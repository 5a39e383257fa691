/**
 * String operations the services rely on: Python's `str.lower()`, the
 * substring test `needle in haystack`, `any(word in s for word in words)`,
 * `"\n".join(parts)`, `str.strip()` and `str(n)` for naturals, plus the
 * first-matching-keyword-group search that the two keyword classifiers share.
 */
module Text {
  import opened Wrappers

  /** Lower-casing of one character, restricted to ASCII letters. */
  function LowerChar(c: char): char {
    if 'A' <= c <= 'Z' then (c as int + 32) as char else c
  }

  /** Python's `s.lower()` (ASCII letters only). */
  function Lower(s: string): (r: string)
    ensures |r| == |s|
    ensures forall i :: 0 <= i < |s| ==> r[i] == LowerChar(s[i])
  {
    seq(|s|, i requires 0 <= i < |s| => LowerChar(s[i]))
  }

  /** Lower-casing works character by character, so it distributes over concatenation. */
  lemma LowerAppend(a: string, b: string)
    ensures Lower(a + b) == Lower(a) + Lower(b)
  {
    forall i | 0 <= i < |a + b| ensures Lower(a + b)[i] == (Lower(a) + Lower(b))[i] {
      if i < |a| {
        assert (a + b)[i] == a[i];
      } else {
        assert (a + b)[i] == b[i - |a|];
      }
    }
  }

  /** `s` ends with `t`. */
  predicate EndsWith(s: string, t: string) {
    |t| <= |s| && s[|s| - |t|..] == t
  }

  /** Python's `t in s` for strings: `t` occurs contiguously in `s`. */
  predicate Contains(s: string, t: string)
    decreases |s|
  {
    t <= s || (|s| > 0 && Contains(s[1..], t))
  }

  /** `t` is the window of `s` that starts at `i`. */
  predicate WindowAt(s: string, t: string, i: int) {
    0 <= i <= |s| - |t| && s[i..i + |t|] == t
  }

  /** A window anywhere in `s` is found by `Contains`. */
  lemma {:induction false} WindowContains(s: string, t: string, i: int)
    requires WindowAt(s, t, i)
    ensures Contains(s, t)
    decreases i
  {
    if i == 0 {
      assert t <= s;
    } else {
      assert WindowAt(s[1..], t, i - 1) by {
        assert s[1..][i - 1..i - 1 + |t|] == s[i..i + |t|];
      }
      WindowContains(s[1..], t, i - 1);
    }
  }

  /** `a` is a prefix of `a + b`. */
  lemma PrefixOfAppend(a: string, b: string)
    ensures a <= a + b
  {
    assert (a + b)[..|a|] == a;
  }

  /** A prefix of `b` is a prefix of anything that starts with `b`. */
  lemma PrefixOfLonger(a: string, b: string, c: string)
    requires a <= b
    ensures a <= b + c
  {
    assert (b + c)[..|a|] == b[..|a|];
  }

  /** `a + b` ends with `b`. */
  lemma EndsWithAppend(a: string, b: string)
    ensures EndsWith(a + b, b)
  {
    assert (a + b)[|a|..] == b;
  }

  /** `Contains` finds only real windows. */
  lemma {:induction false} ContainsWindow(s: string, t: string)
    requires Contains(s, t)
    ensures exists i :: WindowAt(s, t, i)
    decreases |s|
  {
    if t <= s {
      assert WindowAt(s, t, 0);
    } else {
      ContainsWindow(s[1..], t);
      var i :| WindowAt(s[1..], t, i);
      assert s[i + 1..i + 1 + |t|] == s[1..][i..i + |t|];
      assert WindowAt(s, t, i + 1);
    }
  }

  /** What occurs in `s` occurs in any text that has `s` inside it. */
  lemma ContainsWithin(a: string, s: string, b: string, t: string)
    requires Contains(s, t)
    ensures Contains(a + s + b, t)
  {
    ContainsWindow(s, t);
    var i :| WindowAt(s, t, i);
    var w := a + s + b;
    assert w[|a| + i..|a| + i + |t|] == s[i..i + |t|];
    WindowContains(w, t, |a| + i);
  }

  /** `t` occurs in any text that ends with it. */
  lemma ContainsAtEnd(a: string, t: string)
    ensures Contains(a + t, t)
  {
    ContainsMiddle(a, t, "");
    assert a + t + "" == a + t;
  }

  /** What occurs in `s` still occurs once more text is appended. */
  lemma ContainsExtended(s: string, b: string, t: string)
    requires Contains(s, t)
    ensures Contains(s + b, t)
  {
    ContainsWithin("", s, b, t);
    assert "" + s + b == s + b;
  }

  /** Whatever is written between `a` and `b` occurs in `a + t + b`. */
  lemma ContainsMiddle(a: string, t: string, b: string)
    ensures Contains(a + t + b, t)
  {
    var s := a + t + b;
    assert s[|a|..|a| + |t|] == t;
    WindowContains(s, t, |a|);
  }

  /** Python's `any(word in s for word in words)`. */
  predicate AnyOccurs(words: seq<string>, s: string) {
    exists i :: 0 <= i < |words| && Contains(s, words[i])
  }

  /**
   * The index of the first group, in order, one of whose words occurs in `s`:
   * the branch an `if any(...) elif any(...) ...` chain takes.
   */
  function FirstMatch(groups: seq<seq<string>>, s: string): (r: Option<nat>)
    ensures r.Some? ==> r.value < |groups| && AnyOccurs(groups[r.value], s)
    ensures r.Some? ==> forall j :: 0 <= j < r.value ==> !AnyOccurs(groups[j], s)
    ensures r.None? <==> forall j :: 0 <= j < |groups| ==> !AnyOccurs(groups[j], s)
    decreases |groups|
  {
    if |groups| == 0 then None
    else if AnyOccurs(groups[0], s) then Some(0)
    else
      match FirstMatch(groups[1..], s)
      case None => None
      case Some(k) => Some(k + 1)
  }

  /** Python's `sep.join(parts)`. */
  function Join(parts: seq<string>, sep: string): string
    decreases |parts|
  {
    if |parts| == 0 then ""
    else if |parts| == 1 then parts[0]
    else parts[0] + sep + Join(parts[1..], sep)
  }

  /** Appending a part to a non-empty list appends the separator and the part to the join. */
  lemma {:induction false} JoinSnoc(parts: seq<string>, x: string, sep: string)
    requires |parts| > 0
    ensures Join(parts + [x], sep) == Join(parts, sep) + sep + x
    decreases |parts|
  {
    if |parts| == 1 {
      assert (parts + [x])[1..] == [x];
    } else {
      assert (parts + [x])[1..] == parts[1..] + [x];
      JoinSnoc(parts[1..], x, sep);
    }
  }

  /** The join of two or more parts begins with the first part and a separator. */
  lemma JoinHead(parts: seq<string>, sep: string)
    requires |parts| >= 2
    ensures parts[0] + sep <= Join(parts, sep)
  {
  }

  /** Joining a concatenation of two non-empty lists puts one separator between the two joins. */
  lemma {:induction false} JoinAppend(a: seq<string>, b: seq<string>, sep: string)
    requires |a| > 0 && |b| > 0
    ensures Join(a + b, sep) == Join(a, sep) + sep + Join(b, sep)
    decreases |a|
  {
    if |a| == 1 {
      assert (a + b)[1..] == b;
    } else {
      assert (a + b)[1..] == a[1..] + b;
      JoinAppend(a[1..], b, sep);
    }
  }

  /** The join of `[x, ""] + rest` opens with `x` and two separators. */
  lemma JoinOpensWith(x: string, rest: seq<string>, sep: string)
    requires |rest| > 0
    ensures x + sep + sep <= Join([x, ""] + rest, sep)
  {
    JoinAppend([x, ""], rest, sep);
    assert Join([x, ""], sep) == x + sep + "";
    assert Join([x, ""] + rest, sep) == (x + sep + sep) + Join(rest, sep);
    PrefixOfAppend(x + sep + sep, Join(rest, sep));
  }

  /** A join ends with the join of any non-empty tail of its parts. */
  lemma JoinEndsWith(front: seq<string>, tail: seq<string>, sep: string)
    requires |front| > 0 && |tail| > 0
    ensures EndsWith(Join(front + tail, sep), Join(tail, sep))
  {
    JoinAppend(front, tail, sep);
    EndsWithAppend(Join(front, sep) + sep, Join(tail, sep));
  }

  /** The characters Python's `str.isspace()` accepts, restricted to ASCII. */
  predicate IsSpace(c: char) {
    c == ' ' || ('\t' <= c <= '\r') || ('\U{1C}' <= c <= '\U{1F}')
  }

  /** Python's `s.lstrip()`: `s` without its leading space. */
  function StripLeft(s: string): (r: string)
    ensures |r| <= |s| && r == s[|s| - |r|..]
    ensures r == [] || !IsSpace(r[0])
    ensures forall i :: 0 <= i < |s| - |r| ==> IsSpace(s[i])
    decreases |s|
  {
    if |s| > 0 && IsSpace(s[0]) then StripLeft(s[1..]) else s
  }

  /** Python's `s.rstrip()`: `s` without its trailing space. */
  function StripRight(s: string): (r: string)
    ensures |r| <= |s| && r == s[..|r|]
    ensures r == [] || !IsSpace(r[|r| - 1])
    ensures forall i :: |r| <= i < |s| ==> IsSpace(s[i])
    decreases |s|
  {
    if |s| > 0 && IsSpace(s[|s| - 1]) then StripRight(s[..|s| - 1]) else s
  }

  /** Python's `s.strip()`: the longest window of `s` without space at either end. */
  function Strip(s: string): (r: string)
    ensures r == [] || (!IsSpace(r[0]) && !IsSpace(r[|r| - 1]))
    ensures WindowAt(s, r, |s| - |StripLeft(s)|)
    ensures forall i :: 0 <= i < |s| - |StripLeft(s)| ==> IsSpace(s[i])
    ensures forall i :: |s| - |StripLeft(s)| + |r| <= i < |s| ==> IsSpace(s[i])
  {
    var l := StripLeft(s);
    StripWindow(s, l);
    var r := StripRight(l);
    forall i | |s| - |l| + |r| <= i < |s| ensures IsSpace(s[i]) {
      assert s[i] == l[i - (|s| - |l|)];
    }
    r
  }

  /** A prefix of the suffix of `s` that starts at `k` is the window of `s` at `k`. */
  lemma PrefixOfSuffixIsWindow(s: string, k: nat, r: string)
    requires k <= |s| && r <= s[k..]
    ensures WindowAt(s, r, k)
  {
    assert s[k..k + |r|] == s[k..][..|r|];
  }

  /** Stripping the right end of a suffix of `s` leaves a window of `s` where the suffix starts. */
  lemma StripWindow(s: string, l: string)
    requires |l| <= |s| && l == s[|s| - |l|..]
    ensures WindowAt(s, StripRight(l), |s| - |l|)
  {
    var r := StripRight(l);
    assert r <= l;
    PrefixOfSuffixIsWindow(s, |s| - |l|, r);
  }

  /** A string strips to nothing exactly when it is all space. */
  lemma StripEmptyIffAllSpace(s: string)
    ensures Strip(s) == [] <==> forall i :: 0 <= i < |s| ==> IsSpace(s[i])
  {
    var l := StripLeft(s);
    if l != [] {
      assert l[0] == s[|s| - |l|];
    }
  }

  function DigitChar(d: nat): char
    requires d < 10
  {
    "0123456789"[d]
  }

  /** Python's `str(n)` for a natural: its decimal digits, most significant first. */
  function NatToString(n: nat): (r: string)
    ensures |r| >= 1
    ensures forall i :: 0 <= i < |r| ==> '0' <= r[i] <= '9'
  {
    if n < 10 then [DigitChar(n)] else NatToString(n / 10) + [DigitChar(n % 10)]
  }

  function Min(a: int, b: int): int {
    if a <= b then a else b
  }
}
