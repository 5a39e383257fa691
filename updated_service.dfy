/**
 * `UpdatedPropertyService`, the second orchestrator: it gathers source records
 * from the RSS collaborator (capped per branch, with summaries truncated),
 * renders only the records that carry real data into a context document,
 * queries Claude and then Gemini through an abstract query service, picks the
 * final answer, and classifies the question by a priority-ordered keyword list.
 * The clock reading it renders is a parameter.
 */
module UpdatedService {
  import opened Wrappers
  import opened Text
  import opened Feeds

  // ---------------------------------------------------------------------------
  // Summaries

  const SUMMARY_LIMIT: nat := 300
  const ELLIPSIS := "..."

  /** A summary longer than 300 characters is cut to its first 300 and marked with `"..."`. */
  function Truncate(s: string): (r: string)
    ensures |s| <= SUMMARY_LIMIT ==> r == s
    ensures |s| > SUMMARY_LIMIT ==>
      |r| == SUMMARY_LIMIT + |ELLIPSIS| && r[..SUMMARY_LIMIT] == s[..SUMMARY_LIMIT] && EndsWith(r, ELLIPSIS)
  {
    if |s| > SUMMARY_LIMIT then s[..SUMMARY_LIMIT] + ELLIPSIS else s
  }

  /** Truncating twice is truncating once: a truncated summary is 303 characters and cuts back to itself. */
  lemma TruncateIdempotent(s: string)
    ensures Truncate(Truncate(s)) == Truncate(s)
  {
    if |s| > SUMMARY_LIMIT {
      var r := Truncate(s);
      assert r[..SUMMARY_LIMIT] + ELLIPSIS == r by {
        assert r == r[..SUMMARY_LIMIT] + r[SUMMARY_LIMIT..];
        assert r[SUMMARY_LIMIT..] == ELLIPSIS;
      }
    }
  }

  // ---------------------------------------------------------------------------
  // Source records

  /** The loop that built a record: it fixes the id and name prefixes and the relevance keys. */
  datatype Origin = BrisbaneNews | GeneralNews | NationalNews

  /**
   * One source record. `None` is a key the record does not have; the
   * `national_scope` and `fallback` keys, when absent, read as false.
   */
  datatype SourceRecord = SourceRecord(
    id: string,
    name: string,
    kind: string,
    url: Option<string>,
    title: string,
    summary: string,
    published: Option<string>,
    sourceFeed: Option<string>,
    success: bool,
    brisbaneRelevant: Option<bool>,
    nationalScope: bool,
    fallback: bool)

  const BRISBANE_ID_PREFIX := "brisbane_rss_"
  const GENERAL_ID_PREFIX := "general_rss_"
  const NATIONAL_ID_PREFIX := "aus_property_"
  const BRISBANE_NAME_PREFIX := "Brisbane Property News - "
  const AUSTRALIAN_NAME_PREFIX := "Australian Property News - "
  const RSS_FEED_KIND := "rss_feed"
  const NO_TITLE := "No title"
  const UNKNOWN_FEED := "Unknown"

  function IdPrefix(o: Origin): string {
    match o
    case BrisbaneNews => BRISBANE_ID_PREFIX
    case GeneralNews => GENERAL_ID_PREFIX
    case NationalNews => NATIONAL_ID_PREFIX
  }

  function NamePrefix(o: Origin): string {
    if o == BrisbaneNews then BRISBANE_NAME_PREFIX else AUSTRALIAN_NAME_PREFIX
  }

  /** The record that the loop for `o` builds from its `i`-th article (counting from 1). */
  function SourceOf(o: Origin, i: nat, a: Article): SourceRecord
    requires a.source.Some?
  {
    SourceRecord(IdPrefix(o) + NatToString(i), NamePrefix(o) + a.source.value, RSS_FEED_KIND,
                 Some(a.link.GetOr("")), a.title.GetOr(NO_TITLE), Truncate(a.summary.GetOr("")),
                 Some(a.published.GetOr("")), Some(a.source.GetOr(UNKNOWN_FEED)), true,
                 match o case BrisbaneNews => Some(true) case GeneralNews => Some(false) case NationalNews => None,
                 o == NationalNews, false)
  }

  /** Every article has the `source` key that the record's name reads with `article['source']`. */
  predicate HaveSources(articles: seq<Article>) {
    forall k :: 0 <= k < |articles| ==> articles[k].source.Some?
  }

  /** The records of a list of articles, numbered from 1 by position. */
  function SourcesOf(o: Origin, articles: seq<Article>): (r: seq<SourceRecord>)
    requires HaveSources(articles)
    ensures |r| == |articles|
    ensures forall k :: 0 <= k < |r| ==> r[k] == SourceOf(o, k + 1, articles[k])
  {
    seq(|articles|, k requires 0 <= k < |articles| && articles[k].source.Some? => SourceOf(o, k + 1, articles[k]))
  }

  /** One more article with a source adds its record at the end. */
  lemma SourcesOfSnoc(o: Origin, s: seq<Article>, i: nat)
    requires i < |s| && HaveSources(s[..i]) && s[i].source.Some?
    ensures HaveSources(s[..i + 1])
    ensures SourcesOf(o, s[..i + 1]) == SourcesOf(o, s[..i]) + [SourceOf(o, i + 1, s[i])]
  {
    assert forall k :: 0 <= k < i ==> s[..i + 1][k] == s[..i][k];
    var a := SourcesOf(o, s[..i + 1]);
    var b := SourcesOf(o, s[..i]) + [SourceOf(o, i + 1, s[i])];
    forall k | 0 <= k < i + 1 ensures a[k] == b[k] {
      if k < i {
        assert s[..i + 1][k] == s[..i][k];
      }
    }
  }

  const FALLBACK_ID := "fallback_1"
  const FALLBACK_NAME := "Australian Property Market - System Fallback"
  const FALLBACK_KIND := "fallback"
  const FALLBACK_TITLE := "RSS feeds temporarily unavailable"
  const FALLBACK_SUMMARY := "The system is currently using fallback data. " + "Real RSS integration will be restored shortly."

  /** `_get_fallback_sources()`: one record without `success` and with `fallback`. */
  function FallbackSources(): (r: seq<SourceRecord>)
    ensures |r| == 1 && !r[0].success && r[0].fallback && r[0].id == FALLBACK_ID
  {
    [SourceRecord(FALLBACK_ID, FALLBACK_NAME, FALLBACK_KIND, None, FALLBACK_TITLE, FALLBACK_SUMMARY,
                  None, None, false, None, false, true)]
  }

  const BRISBANE_FETCH: nat := 10
  const GENERAL_FETCH: nat := 5
  const NATIONAL_FETCH: nat := 10
  const BRISBANE_CAP: nat := 5
  const GENERAL_CAP: nat := 3
  const NATIONAL_CAP: nat := 8

  /** Python's `s[:n]`. */
  function Take(s: seq<Article>, n: nat): (r: seq<Article>)
    ensures |r| == Min(n, |s|) && r == s[..|r|]
  {
    s[..Min(n, |s|)]
  }

  /**
   * `_get_real_data_sources`: for a region-focused question, the first 5 of 10
   * regional articles and the first 3 of 5 national ones; otherwise the first 8
   * of 10 national articles. A fetch that raises, or a shown article without a
   * `source`, gives the fallback list instead.
   */
  function RealDataSources(question: string, feed: NewsFeed): seq<SourceRecord> {
    if RegionFocused(question) then
      match (feed.regional(BRISBANE_FETCH), feed.national(GENERAL_FETCH))
      case (Fetched(b), Fetched(g)) =>
        var shown := Take(b, BRISBANE_CAP);
        var more := Take(g, GENERAL_CAP);
        if HaveSources(shown) && HaveSources(more) then SourcesOf(BrisbaneNews, shown) + SourcesOf(GeneralNews, more)
        else FallbackSources()
      case _ => FallbackSources()
    else
      match feed.national(NATIONAL_FETCH)
      case Fetched(n) =>
        var shown := Take(n, NATIONAL_CAP);
        if HaveSources(shown) then SourcesOf(NationalNews, shown) else FallbackSources()
      case FetchRaised(_) => FallbackSources()
  }

  /**
   * One of the loops of the gathering: the records of `articles`, numbered
   * from 1, or `ok` false at the first article without a `source`.
   */
  method CollectSources(o: Origin, articles: seq<Article>) returns (ok: bool, sources: seq<SourceRecord>)
    ensures ok == HaveSources(articles)
    ensures ok ==> sources == SourcesOf(o, articles)
  {
    sources := [];
    var i := 0;
    while i < |articles|
      invariant 0 <= i <= |articles|
      invariant HaveSources(articles[..i])
      invariant sources == SourcesOf(o, articles[..i])
    {
      if articles[i].source.None? {
        return false, sources;
      }
      SourcesOfSnoc(o, articles, i);
      sources := sources + [SourceOf(o, i + 1, articles[i])];
      i := i + 1;
    }
    assert articles[..i] == articles;
    ok := true;
  }

  method GetRealDataSources(question: string, feed: NewsFeed) returns (sources: seq<SourceRecord>)
    ensures sources == RealDataSources(question, feed)
  {
    if RegionFocused(question) {
      var brisbaneNews := feed.regional(BRISBANE_FETCH);
      var generalNews := feed.national(GENERAL_FETCH);
      if brisbaneNews.FetchRaised? || generalNews.FetchRaised? {
        return FallbackSources();
      }
      var ok, brisbane := CollectSources(BrisbaneNews, Take(brisbaneNews.articles, BRISBANE_CAP));
      if !ok {
        return FallbackSources();
      }
      var okGeneral, general := CollectSources(GeneralNews, Take(generalNews.articles, GENERAL_CAP));
      if !okGeneral {
        return FallbackSources();
      }
      sources := brisbane + general;
    } else {
      var generalNews := feed.national(NATIONAL_FETCH);
      if generalNews.FetchRaised? {
        return FallbackSources();
      }
      var ok, national := CollectSources(NationalNews, Take(generalNews.articles, NATIONAL_CAP));
      if !ok {
        return FallbackSources();
      }
      sources := national;
    }
  }

  /** Every record of one loop has `success`, the relevance keys of its loop and its numbered id. */
  lemma SourcesOfShape(o: Origin, articles: seq<Article>)
    requires HaveSources(articles)
    ensures var r := SourcesOf(o, articles);
      forall k :: 0 <= k < |r| ==>
        && r[k].success && !r[k].fallback
        && r[k].nationalScope == (o == NationalNews)
        && r[k].brisbaneRelevant == (match o case BrisbaneNews => Some(true) case GeneralNews => Some(false) case NationalNews => None)
        && r[k].id == IdPrefix(o) + NatToString(k + 1)
  {
    var r := SourcesOf(o, articles);
    forall k | 0 <= k < |r|
      ensures r[k].id == IdPrefix(o) + NatToString(k + 1)
    {
      assert r[k] == SourceOf(o, k + 1, articles[k]);
    }
  }

  /**
   * A region-focused question whose two fetches return: at most 5 records
   * marked Brisbane-relevant, then at most 3 marked not relevant, all with
   * `success`; or the fallback list exactly when a shown article has no `source`.
   */
  lemma RegionalGathering(question: string, feed: NewsFeed, b: seq<Article>, g: seq<Article>)
    requires RegionFocused(question)
    requires feed.regional(BRISBANE_FETCH) == Fetched(b) && feed.national(GENERAL_FETCH) == Fetched(g)
    ensures var ds := RealDataSources(question, feed);
      var shown := Take(b, BRISBANE_CAP);
      var more := Take(g, GENERAL_CAP);
      && (ds == FallbackSources() <==> !(HaveSources(shown) && HaveSources(more)))
      && (ds != FallbackSources() ==> ds == SourcesOf(BrisbaneNews, shown) + SourcesOf(GeneralNews, more))
      && (ds != FallbackSources() ==> RegionalShape(ds, |shown|) && |ds| == |shown| + |more| <= BRISBANE_CAP + GENERAL_CAP)
  {
    var shown := Take(b, BRISBANE_CAP);
    var more := Take(g, GENERAL_CAP);
    if HaveSources(shown) && HaveSources(more) {
      RegionalRecords(shown, more);
    }
  }

  /**
   * The regional shape: the first `n` records are marked Brisbane-relevant and
   * numbered from 1, the rest are marked not relevant and numbered from 1
   * again, and all have `success`.
   */
  predicate RegionalShape(ds: seq<SourceRecord>, n: nat) {
    && n <= |ds|
    && (forall k :: 0 <= k < |ds| ==> ds[k].success && !ds[k].fallback && !ds[k].nationalScope)
    && (forall k :: 0 <= k < |ds| ==> ds[k].brisbaneRelevant == Some(k < n))
    && (forall k :: 0 <= k < n ==> ds[k].id == BRISBANE_ID_PREFIX + NatToString(k + 1))
    && (forall k :: n <= k < |ds| ==> ds[k].id == GENERAL_ID_PREFIX + NatToString(k - n + 1))
  }

  lemma RegionalRecords(shown: seq<Article>, more: seq<Article>)
    requires HaveSources(shown) && HaveSources(more)
    ensures var ds := SourcesOf(BrisbaneNews, shown) + SourcesOf(GeneralNews, more);
      RegionalShape(ds, |shown|) && ds != FallbackSources()
  {
    var front := SourcesOf(BrisbaneNews, shown);
    var back := SourcesOf(GeneralNews, more);
    var ds := front + back;
    forall k | 0 <= k < |ds|
      ensures ds[k].success && !ds[k].fallback && !ds[k].nationalScope
      ensures ds[k].brisbaneRelevant == Some(k < |shown|)
      ensures k < |shown| ==> ds[k].id == BRISBANE_ID_PREFIX + NatToString(k + 1)
      ensures |shown| <= k ==> ds[k].id == GENERAL_ID_PREFIX + NatToString(k - |shown| + 1)
    {
      if k < |front| {
        assert ds[k] == SourceOf(BrisbaneNews, k + 1, shown[k]);
      } else {
        assert ds[k] == SourceOf(GeneralNews, k - |front| + 1, more[k - |front|]);
      }
    }
  }

  /**
   * Any other question whose fetch returns: at most 8 records of national
   * scope, all with `success`; or the fallback list exactly when a shown
   * article has no `source`.
   */
  lemma NationalGathering(question: string, feed: NewsFeed, n: seq<Article>)
    requires !RegionFocused(question) && feed.national(NATIONAL_FETCH) == Fetched(n)
    ensures var ds := RealDataSources(question, feed);
      var shown := Take(n, NATIONAL_CAP);
      && (ds == FallbackSources() <==> !HaveSources(shown))
      && (ds != FallbackSources() ==>
            && |ds| == |shown| <= NATIONAL_CAP
            && forall k :: 0 <= k < |ds| ==>
                 && ds[k].success && !ds[k].fallback && ds[k].nationalScope && ds[k].brisbaneRelevant.None?
                 && ds[k].id == NATIONAL_ID_PREFIX + NatToString(k + 1))
  {
    var ds := RealDataSources(question, feed);
    if HaveSources(Take(n, NATIONAL_CAP)) {
      SourcesOfShape(NationalNews, Take(n, NATIONAL_CAP));
      if ds != [] {
        assert ds[0].success;
      }
    }
  }

  /** A fetch that raises gives exactly the fallback list. */
  lemma RaisingFetchFallsBack(question: string, feed: NewsFeed)
    requires RegionFocused(question) ==>
      feed.regional(BRISBANE_FETCH).FetchRaised? || feed.national(GENERAL_FETCH).FetchRaised?
    requires !RegionFocused(question) ==> feed.national(NATIONAL_FETCH).FetchRaised?
    ensures RealDataSources(question, feed) == FallbackSources()
  {
  }

  // ---------------------------------------------------------------------------
  // The analysis context

  /** A record that counts as real data: `success` set and `fallback` not. */
  predicate Real(s: SourceRecord) {
    s.success && !s.fallback
  }

  predicate HasRealData(ds: seq<SourceRecord>) {
    exists k :: 0 <= k < |ds| && Real(ds[k])
  }

  /** The gathered records carry real data exactly when the list is neither the fallback list nor empty. */
  lemma GatheredRealDataIff(question: string, feed: NewsFeed)
    ensures var ds := RealDataSources(question, feed);
      HasRealData(ds) <==> ds != FallbackSources() && ds != []
  {
    var ds := RealDataSources(question, feed);
    if ds != FallbackSources() {
      if RegionFocused(question) {
        RegionalGathering(question, feed, feed.regional(BRISBANE_FETCH).articles, feed.national(GENERAL_FETCH).articles);
      } else {
        NationalGathering(question, feed, feed.national(NATIONAL_FETCH).articles);
      }
      if ds != [] {
        assert Real(ds[0]);
      }
    }
  }

  const CONTEXT_TITLE := "\n# Australian Property Intelligence Analysis Context\n\n## Query: "
  const REAL_CONTEXT_SOURCES := "\n\n## Real Australian Property Data Sources (RSS Feeds)\n"
  const REAL_CONTEXT_RETRIEVED := "Retrieved from live Australian property industry RSS feeds on "
  const REAL_CONTEXT_COLON := ":\n\n"
  const SOURCE_HEADING := "\n### Source "
  const NAME_SEPARATOR := ": "
  const TYPE_LINE := "\n- **Type**: Live RSS Feed"
  const FEED_FIELD := "\n- **Source**: "
  const PUBLISHED_FIELD := "\n- **Published**: "
  const TITLE_FIELD := "\n- **Title**: "
  const SUMMARY_FIELD := "\n- **Summary**: "
  const URL_FIELD := "\n- **URL**: "
  const RECENT := "Recent"
  const NOT_AVAILABLE := "N/A"
  const BRISBANE_NOTE := "- **Brisbane Relevance**: \U{2705} Specifically relevant to Brisbane/Queensland\n"
  const NATIONAL_NOTE := "- **Scope**: \U{1F1E6}\U{1F1FA} Australian national property market\n"
  // The fixed paragraphs keep their opening line and their last words; the prose between is elided ("…").
  const REAL_INSTRUCTIONS := "\n## Analysis Instructions\nYou are analyzing REAL " + "Australian property market data … industry sources.\n"
  const UNAVAILABLE_STATUS := "\n\n## System Status: RSS Feeds Temporarily Unavailable\n…\n\n"
    + "## Analysis Instructions\n… real-time data is temporarily unavailable.\n"

  function RealContextHeader(question: string, minute: string): string {
    CONTEXT_TITLE + question + (REAL_CONTEXT_SOURCES + REAL_CONTEXT_RETRIEVED + minute + REAL_CONTEXT_COLON)
  }

  /** The note after a record's fields: Brisbane relevance first, national scope otherwise. */
  function RelevanceNote(s: SourceRecord): string {
    if s.brisbaneRelevant == Some(true) then BRISBANE_NOTE
    else if s.nationalScope then NATIONAL_NOTE
    else ""
  }

  /** The block of a real record at (1-based) position `i` of the full list. */
  function ContextEntry(i: nat, s: SourceRecord): string {
    SourceHeading(i, s) + RelevanceNote(s) + "\n"
  }

  function SourceHeading(i: nat, s: SourceRecord): string {
    SOURCE_HEADING + NatToString(i) + NAME_SEPARATOR + s.name
    + TYPE_LINE
    + FEED_FIELD + s.sourceFeed.GetOr(UNKNOWN_FEED)
    + PUBLISHED_FIELD + s.published.GetOr(RECENT)
    + TITLE_FIELD + s.title
    + SUMMARY_FIELD + s.summary
    + URL_FIELD + s.url.GetOr(NOT_AVAILABLE) + "\n"
  }

  /** The blocks of the real records of `ds`, each numbered by its position in `ds`. */
  function ContextEntries(ds: seq<SourceRecord>): string
    decreases |ds|
  {
    if ds == [] then ""
    else ContextEntries(ds[..|ds| - 1]) + (if Real(ds[|ds| - 1]) then ContextEntry(|ds|, ds[|ds| - 1]) else "")
  }

  /** `_prepare_analysis_context`: the real-data document, or the fixed unavailable notice. */
  function AnalysisContext(question: string, ds: seq<SourceRecord>, minute: string): string {
    if HasRealData(ds) then RealContextHeader(question, minute) + ContextEntries(ds) + REAL_INSTRUCTIONS
    else CONTEXT_TITLE + question + UNAVAILABLE_STATUS
  }

  method PrepareAnalysisContext(question: string, ds: seq<SourceRecord>, minute: string) returns (context: string)
    ensures context == AnalysisContext(question, ds, minute)
  {
    var hasRealData := exists k :: 0 <= k < |ds| && Real(ds[k]);
    if !hasRealData {
      return CONTEXT_TITLE + question + UNAVAILABLE_STATUS;
    }
    var header := RealContextHeader(question, minute);
    var entries := "";
    var i := 0;
    while i < |ds|
      invariant 0 <= i <= |ds|
      invariant entries == ContextEntries(ds[..i])
    {
      assert ds[..i + 1][..i] == ds[..i];
      if Real(ds[i]) {
        entries := entries + ContextEntry(i + 1, ds[i]);
      }
      i := i + 1;
    }
    assert ds[..i] == ds;
    context := header + entries + REAL_INSTRUCTIONS;
  }

  /** Both documents open with the title and the question. */
  lemma ContextOpensWithQuery(question: string, ds: seq<SourceRecord>, minute: string)
    ensures CONTEXT_TITLE + question <= AnalysisContext(question, ds, minute)
  {
    var lead := CONTEXT_TITLE + question;
    if HasRealData(ds) {
      var header := RealContextHeader(question, minute);
      PrefixOfAppend(lead, REAL_CONTEXT_SOURCES + REAL_CONTEXT_RETRIEVED + minute + REAL_CONTEXT_COLON);
      PrefixOfLonger(lead, header, ContextEntries(ds));
      PrefixOfLonger(lead, header + ContextEntries(ds), REAL_INSTRUCTIONS);
    } else {
      PrefixOfAppend(lead, UNAVAILABLE_STATUS);
    }
  }

  /** The unavailable notice is used exactly when no record carries real data. */
  lemma UnavailableContextIff(question: string, ds: seq<SourceRecord>, minute: string)
    ensures AnalysisContext(question, ds, minute) == CONTEXT_TITLE + question + UNAVAILABLE_STATUS <==> !HasRealData(ds)
  {
    if HasRealData(ds) {
      var front := RealContextHeader(question, minute) + ContextEntries(ds);
      var r := AnalysisContext(question, ds, minute);
      var u := CONTEXT_TITLE + question + UNAVAILABLE_STATUS;
      assert r == front + REAL_INSTRUCTIONS;
      assert r[|r| - 3] == REAL_INSTRUCTIONS[|REAL_INSTRUCTIONS| - 3] == 's';
      assert u[|u| - 3] == UNAVAILABLE_STATUS[|UNAVAILABLE_STATUS| - 3] == 'e';
    }
  }

  /** Every real record has its block, numbered by its position in the full list. */
  lemma {:induction false} EntriesShowEachReal(ds: seq<SourceRecord>, k: nat)
    requires k < |ds| && Real(ds[k])
    ensures Contains(ContextEntries(ds), ContextEntry(k + 1, ds[k]))
    decreases |ds|
  {
    var init := ds[..|ds| - 1];
    var last := if Real(ds[|ds| - 1]) then ContextEntry(|ds|, ds[|ds| - 1]) else "";
    var front := ContextEntries(init);
    assert ContextEntries(ds) == front + last;
    if k == |ds| - 1 {
      ContainsAtEnd(front, last);
    } else {
      assert init[k] == ds[k];
      EntriesShowEachReal(init, k);
      ContainsExtended(front, last, ContextEntry(k + 1, ds[k]));
    }
  }

  /** In the real-data document every real record appears with its position in the full list. */
  lemma ContextShowsEachReal(question: string, ds: seq<SourceRecord>, minute: string, k: nat)
    requires k < |ds| && Real(ds[k])
    ensures Contains(AnalysisContext(question, ds, minute), ContextEntry(k + 1, ds[k]))
  {
    EntriesShowEachReal(ds, k);
    ContainsWithin(RealContextHeader(question, minute), ContextEntries(ds), REAL_INSTRUCTIONS, ContextEntry(k + 1, ds[k]));
  }

  /** Records without real data render nothing. */
  lemma {:induction false} NonRealRendersNothing(ds: seq<SourceRecord>)
    requires forall k :: 0 <= k < |ds| ==> !Real(ds[k])
    ensures ContextEntries(ds) == ""
    decreases |ds|
  {
    if ds != [] {
      var init := ds[..|ds| - 1];
      assert forall k :: 0 <= k < |init| ==> !Real(init[k]) by {
        forall k | 0 <= k < |init| ensures !Real(init[k]) {
          assert init[k] == ds[k];
        }
      }
      NonRealRendersNothing(init);
    }
  }

  /** A Brisbane-relevant record carries the Brisbane note; a national one, the scope note. */
  lemma EntryCarriesNote(i: nat, s: SourceRecord)
    ensures s.brisbaneRelevant == Some(true) ==> Contains(ContextEntry(i, s), BRISBANE_NOTE)
    ensures s.brisbaneRelevant != Some(true) && s.nationalScope ==> Contains(ContextEntry(i, s), NATIONAL_NOTE)
    ensures s.brisbaneRelevant != Some(true) && !s.nationalScope ==> ContextEntry(i, s) == SourceHeading(i, s) + "\n"
  {
    ContainsMiddle(SourceHeading(i, s), RelevanceNote(s), "\n");
  }

  // ---------------------------------------------------------------------------
  // The two queries

  /** What a query returns; `None` is a key missing from the reply dictionary. */
  datatype QueryReply = QueryReply(success: Option<bool>, response: Option<string>, model: Option<string>)

  datatype QueryOutcome = QueryReturned(reply: QueryReply) | QueryRaised(message: string)

  /** The query collaborator as an oracle: a prompt and a token budget in, an outcome out. */
  datatype QueryService = QueryService(claude: (string, nat) -> QueryOutcome, gemini: (string, nat) -> QueryOutcome)

  const CLAUDE_MAX_TOKENS: nat := 1000
  const GEMINI_MAX_TOKENS: nat := 1500
  const DEFAULT_CLAUDE_MODEL := "claude-3-5-sonnet-20241022"
  const DEFAULT_GEMINI_MODEL := "gemini-1.5-flash"
  const PROMPT_OPENING := "\n"
  const CLAUDE_QUERY_BRIEF := "\n\nAs a strategic property research analyst, … Focus on:\n\n…\n\nQuestion: "
  const CLAUDE_QUERY_CLOSING := "\n\nProvide a strategic research foundation … property analysis.\n"
  const GEMINI_QUERY_BRIEF := "\n\nBased on the real Australian property market data provided above, …:\n\n"
  const CLAUDE_SECTION_HEADER := "CLAUDE STRATEGIC ANALYSIS:"
  const GEMINI_QUERY_CLOSING := "\n\nPlease provide a detailed, professional response that:\n…\n"
  const APOLOGY := "I apologize, but I'm experiencing technical difficulties " + "accessing the AI analysis services. Please try again in a moment."
  const ANALYSIS_ERROR_TEXT := "I encountered an error during the analysis process. " + "Please try again."
  /** The text of the `AttributeError` raised by a query method that `LLMService` does not define. */
  const MISSING_QUERY_CLAUDE := "'LLMService' object has no attribute 'query_claude'"

  function ClaudeQueryPrompt(context: string, question: string): string {
    PROMPT_OPENING + context + (CLAUDE_QUERY_BRIEF + question + CLAUDE_QUERY_CLOSING)
  }

  /** The lines for Claude's part of the Gemini prompt: the header and the response only when Claude succeeded. */
  function ClaudeSection(claudeSuccess: bool, claudeResponse: string): string {
    (if claudeSuccess then CLAUDE_SECTION_HEADER else "") + "\n" + (if claudeSuccess then claudeResponse else "")
  }

  function GeminiQueryPrompt(context: string, question: string, claudeSuccess: bool, claudeResponse: string): string {
    PROMPT_OPENING + context + (GEMINI_QUERY_BRIEF + question + "\n\n")
    + ClaudeSection(claudeSuccess, claudeResponse) + GEMINI_QUERY_CLOSING
  }

  /** Both prompts open with the context; Claude's response reaches Gemini exactly through its section. */
  lemma QueryPrompts(context: string, question: string, claudeSuccess: bool, claudeResponse: string)
    ensures PROMPT_OPENING + context <= ClaudeQueryPrompt(context, question)
    ensures PROMPT_OPENING + context <= GeminiQueryPrompt(context, question, claudeSuccess, claudeResponse)
    ensures claudeSuccess ==>
      Contains(GeminiQueryPrompt(context, question, claudeSuccess, claudeResponse), CLAUDE_SECTION_HEADER + "\n" + claudeResponse)
    ensures !claudeSuccess ==>
      GeminiQueryPrompt(context, question, claudeSuccess, claudeResponse)
        == PROMPT_OPENING + context + (GEMINI_QUERY_BRIEF + question + "\n\n") + "\n" + GEMINI_QUERY_CLOSING
  {
    var lead := PROMPT_OPENING + context;
    var brief := GEMINI_QUERY_BRIEF + question + "\n\n";
    var section := ClaudeSection(claudeSuccess, claudeResponse);
    PrefixOfAppend(lead, CLAUDE_QUERY_BRIEF + question + CLAUDE_QUERY_CLOSING);
    PrefixOfAppend(lead, brief);
    PrefixOfLonger(lead, lead + brief, section);
    PrefixOfLonger(lead, lead + brief + section, GEMINI_QUERY_CLOSING);
    if claudeSuccess {
      assert section == CLAUDE_SECTION_HEADER + "\n" + claudeResponse;
      ContainsMiddle(lead + brief, section, GEMINI_QUERY_CLOSING);
    } else {
      assert section == "\n";
    }
  }

  /** The outcome of `_run_multi_llm_analysis`: the selected answer and flags, or the message of what it caught. */
  datatype StageResult =
    | StageCompleted(finalAnswer: string, claudeSuccess: bool, geminiSuccess: bool, claudeModel: string, geminiModel: string)
    | StageFailed(error: string)
  {
    function FinalAnswer(): string {
      if StageCompleted? then finalAnswer else ANALYSIS_ERROR_TEXT
    }
    function ClaudeSucceeded(): bool {
      StageCompleted? && claudeSuccess
    }
    function GeminiSucceeded(): bool {
      StageCompleted? && geminiSuccess
    }
    /** The failure record has no model keys: the response reads them through their defaults. */
    function ClaudeModel(): string {
      if StageCompleted? then claudeModel else DEFAULT_CLAUDE_MODEL
    }
    function GeminiModel(): string {
      if StageCompleted? then geminiModel else DEFAULT_GEMINI_MODEL
    }
    /** `rss_success`: true on completion, false in the failure record. */
    function RssSuccess(): bool {
      StageCompleted?
    }
  }

  /**
   * `_run_multi_llm_analysis`: Claude with the strategic prompt, then Gemini
   * with a prompt that carries Claude's response when Claude succeeded; the
   * answer is Gemini's, else Claude's, else the apology. A raising query ends
   * the stage in the failure record, and a raising Claude query means Gemini is
   * never asked.
   */
  function RunMultiLlmAnalysis(question: string, context: string, queries: QueryService): (r: StageResult)
    ensures var co := queries.claude(ClaudeQueryPrompt(context, question), CLAUDE_MAX_TOKENS);
      co.QueryRaised? ==> r == StageFailed(co.message)
    ensures var co := queries.claude(ClaudeQueryPrompt(context, question), CLAUDE_MAX_TOKENS);
      co.QueryReturned? ==>
        var c := co.reply;
        var cs := c.success.GetOr(false);
        var go := queries.gemini(GeminiQueryPrompt(context, question, cs, c.response.GetOr("")), GEMINI_MAX_TOKENS);
        && (go.QueryRaised? ==> r == StageFailed(go.message))
        && (go.QueryReturned? ==>
              var gs := go.reply.success.GetOr(false);
              && r.StageCompleted? && r.claudeSuccess == cs && r.geminiSuccess == gs
              && (gs ==> r.finalAnswer == go.reply.response.GetOr(""))
              && (!gs && cs ==> r.finalAnswer == c.response.GetOr(""))
              && (!gs && !cs ==> r.finalAnswer == APOLOGY)
              && r.claudeModel == c.model.GetOr(DEFAULT_CLAUDE_MODEL)
              && r.geminiModel == go.reply.model.GetOr(DEFAULT_GEMINI_MODEL))
  {
    match queries.claude(ClaudeQueryPrompt(context, question), CLAUDE_MAX_TOKENS)
    case QueryRaised(m) => StageFailed(m)
    case QueryReturned(c) =>
      var cs := c.success.GetOr(false);
      var geminiPrompt := GeminiQueryPrompt(context, question, cs, c.response.GetOr(""));
      match queries.gemini(geminiPrompt, GEMINI_MAX_TOKENS)
      case QueryRaised(m) => StageFailed(m)
      case QueryReturned(g) =>
        var gs := g.success.GetOr(false);
        var answer := if gs then g.response.GetOr("") else if cs then c.response.GetOr("") else APOLOGY;
        StageCompleted(answer, cs, gs, c.model.GetOr(DEFAULT_CLAUDE_MODEL), g.model.GetOr(DEFAULT_GEMINI_MODEL))
  }

  /**
   * The query service the module as written reaches: `LLMService` defines no
   * `query_claude`, so the first query raises `AttributeError`.
   */
  function AsWrittenQueries(): QueryService {
    QueryService((prompt: string, maxTokens: nat) => QueryRaised(MISSING_QUERY_CLAUDE),
                 (prompt: string, maxTokens: nat) => QueryRaised(MISSING_QUERY_CLAUDE))
  }

  // ---------------------------------------------------------------------------
  // Question classification

  const DEVELOPMENT_WORDS: seq<string> := ["development", "application", "planning", "approval"]
  const MARKET_WORDS: seq<string> := ["trend", "market", "price", "value"]
  const LOCATION_WORDS: seq<string> := ["suburb", "area", "location", "region"]
  const INVESTMENT_WORDS: seq<string> := ["investment", "buy", "purchase", "invest"]
  const INFRASTRUCTURE_WORDS: seq<string> := ["infrastructure", "transport", "school", "amenity"]
  const REGULATORY_WORDS: seq<string> := ["zoning", "regulation", "law", "legal"]
  const QUESTION_GROUPS: seq<seq<string>> :=
    [DEVELOPMENT_WORDS, MARKET_WORDS, LOCATION_WORDS, INVESTMENT_WORDS, INFRASTRUCTURE_WORDS, REGULATORY_WORDS]

  const DEVELOPMENT_APPLICATIONS := "development_applications"
  const MARKET_TRENDS := "market_trends"
  const LOCATION_ANALYSIS := "location_analysis"
  const INVESTMENT_ADVICE := "investment_advice"
  const INFRASTRUCTURE_ANALYSIS := "infrastructure_analysis"
  const REGULATORY_INQUIRY := "regulatory_inquiry"
  const GENERAL_PROPERTY := "general_property"
  const QUESTION_CATEGORIES: seq<string> :=
    [DEVELOPMENT_APPLICATIONS, MARKET_TRENDS, LOCATION_ANALYSIS, INVESTMENT_ADVICE, INFRASTRUCTURE_ANALYSIS, REGULATORY_INQUIRY]

  /** `_classify_question_type`: the `if`/`elif` chain over the lower-cased question. */
  function ClassifyQuestionType(question: string): string {
    var q := Lower(question);
    if AnyOccurs(DEVELOPMENT_WORDS, q) then DEVELOPMENT_APPLICATIONS
    else if AnyOccurs(MARKET_WORDS, q) then MARKET_TRENDS
    else if AnyOccurs(LOCATION_WORDS, q) then LOCATION_ANALYSIS
    else if AnyOccurs(INVESTMENT_WORDS, q) then INVESTMENT_ADVICE
    else if AnyOccurs(INFRASTRUCTURE_WORDS, q) then INFRASTRUCTURE_ANALYSIS
    else if AnyOccurs(REGULATORY_WORDS, q) then REGULATORY_INQUIRY
    else GENERAL_PROPERTY
  }

  /**
   * The category is the one of the first group, in the fixed order, with a
   * word in the lower-cased question, and `general_property` when no group has one.
   */
  lemma ClassifyByFirstMatch(question: string)
    ensures var m := FirstMatch(QUESTION_GROUPS, Lower(question));
      ClassifyQuestionType(question) == if m.Some? then QUESTION_CATEGORIES[m.value] else GENERAL_PROPERTY
  {
    var q := Lower(question);
    var m := FirstMatch(QUESTION_GROUPS, q);
    assert QUESTION_GROUPS[0] == DEVELOPMENT_WORDS && QUESTION_GROUPS[1] == MARKET_WORDS
      && QUESTION_GROUPS[2] == LOCATION_WORDS && QUESTION_GROUPS[3] == INVESTMENT_WORDS
      && QUESTION_GROUPS[4] == INFRASTRUCTURE_WORDS && QUESTION_GROUPS[5] == REGULATORY_WORDS;
    if m.Some? {
      assert forall j :: 0 <= j < m.value ==> !AnyOccurs(QUESTION_GROUPS[j], q);
      assert AnyOccurs(QUESTION_GROUPS[m.value], q);
    }
  }

  // ---------------------------------------------------------------------------
  // The response

  /** `real_sources_used`: the names of the records with `success`, in order. */
  function RealSourcesUsed(ds: seq<SourceRecord>): (r: seq<string>)
    ensures |r| <= |ds|
    ensures (forall k :: 0 <= k < |ds| ==> ds[k].success) ==> |r| == |ds| && forall k :: 0 <= k < |r| ==> r[k] == ds[k].name
    ensures (forall k :: 0 <= k < |ds| ==> !ds[k].success) ==> r == []
    decreases |ds|
  {
    if ds == [] then []
    else RealSourcesUsed(ds[..|ds| - 1]) + UsedName(ds[|ds| - 1])
  }

  /** What one record adds to `real_sources_used`: its name when it has `success`. */
  function UsedName(d: SourceRecord): seq<string> {
    if d.success then [d.name] else []
  }

  /** A name is listed exactly when some record with `success` carries it. */
  lemma {:induction false} RealSourcesUsedMembers(ds: seq<SourceRecord>, x: string)
    ensures x in RealSourcesUsed(ds) <==> exists k :: 0 <= k < |ds| && ds[k].success && ds[k].name == x
    decreases |ds|
  {
    if ds != [] {
      var init := ds[..|ds| - 1];
      RealSourcesUsedMembers(init, x);
      assert forall k :: 0 <= k < |init| ==> init[k] == ds[k];
    }
  }

  /**
   * The names keep the records' order: the names of a concatenation are the
   * names of its parts, one after the other.
   */
  lemma {:induction false} RealSourcesUsedAppend(a: seq<SourceRecord>, b: seq<SourceRecord>)
    ensures RealSourcesUsed(a + b) == RealSourcesUsed(a) + RealSourcesUsed(b)
    decreases |b|
  {
    if b != [] {
      var init := b[..|b| - 1];
      var last := b[|b| - 1];
      assert (a + b)[..|a + b| - 1] == a + init && (a + b)[|a + b| - 1] == last;
      RealSourcesUsedAppend(a, init);
      var x, y, z := RealSourcesUsed(a), RealSourcesUsed(init), UsedName(last);
      assert (x + y) + z == x + (y + z);
    } else {
      assert a + b == a;
    }
  }

  datatype ResponseStages = ResponseStages(
    rssDataFetched: bool,
    claudeSuccess: bool,
    geminiSuccess: bool,
    claudeModel: string,
    geminiModel: string,
    dataSourcesCount: nat,
    realSourcesUsed: seq<string>)

  /** The success-shaped response; `dataSources` is `None` unless details were asked for. */
  datatype Response = Response(
    question: string,
    questionType: string,
    answer: string,
    stages: ResponseStages,
    dataSources: Option<seq<SourceRecord>>)

  /** `analyze_property_question` over the RSS collaborator, the query service and the clock reading. */
  function Analyze(question: string, includeDetails: bool, feed: NewsFeed, queries: QueryService, minute: string): Response {
    var ds := RealDataSources(question, feed);
    var stage := RunMultiLlmAnalysis(question, AnalysisContext(question, ds, minute), queries);
    Response(question, ClassifyQuestionType(question), stage.FinalAnswer(),
             ResponseStages(stage.RssSuccess(), stage.ClaudeSucceeded(), stage.GeminiSucceeded(),
                            stage.ClaudeModel(), stage.GeminiModel(), |ds|, RealSourcesUsed(ds)),
             if includeDetails then Some(ds) else None)
  }

  method AnalyzePropertyQuestion(question: string, includeDetails: bool, feed: NewsFeed, queries: QueryService,
                                 minute: string) returns (r: Response)
    ensures r == Analyze(question, includeDetails, feed, queries, minute)
  {
    var sources := GetRealDataSources(question, feed);
    var context := PrepareAnalysisContext(question, sources, minute);
    var stage := RunMultiLlmAnalysis(question, context, queries);
    r := Response(question, ClassifyQuestionType(question), stage.FinalAnswer(),
                  ResponseStages(stage.RssSuccess(), stage.ClaudeSucceeded(), stage.GeminiSucceeded(),
                                 stage.ClaudeModel(), stage.GeminiModel(), |sources|, RealSourcesUsed(sources)),
                  if includeDetails then Some(sources) else None);
  }

  /**
   * The response counts every gathered record, names exactly the gathered
   * records when real data was gathered and none for the fallback list, and
   * carries the records only when details were asked for.
   */
  lemma ResponseRecords(question: string, includeDetails: bool, feed: NewsFeed, queries: QueryService, minute: string)
    ensures var r := Analyze(question, includeDetails, feed, queries, minute);
      var ds := RealDataSources(question, feed);
      && r.stages.dataSourcesCount == |ds|
      && (r.dataSources.Some? <==> includeDetails)
      && (includeDetails ==> r.dataSources.value == ds)
      && (ds == FallbackSources() ==> r.stages.realSourcesUsed == [])
      && (ds != FallbackSources() ==>
            |r.stages.realSourcesUsed| == |ds| && forall k :: 0 <= k < |ds| ==> r.stages.realSourcesUsed[k] == ds[k].name)
  {
    var ds := RealDataSources(question, feed);
    if ds != FallbackSources() {
      if RegionFocused(question) {
        RegionalGathering(question, feed, feed.regional(BRISBANE_FETCH).articles, feed.national(GENERAL_FETCH).articles);
      } else {
        NationalGathering(question, feed, feed.national(NATIONAL_FETCH).articles);
      }
    }
  }

  /**
   * As written, the first query raises: every response carries the analysis
   * error text with all three stage flags false and the default model names,
   * although the response itself is the success-shaped one.
   */
  lemma AsWrittenAnalysisReportsError(question: string, includeDetails: bool, feed: NewsFeed, minute: string)
    ensures var r := Analyze(question, includeDetails, feed, AsWrittenQueries(), minute);
      && r.answer == ANALYSIS_ERROR_TEXT
      && !r.stages.rssDataFetched && !r.stages.claudeSuccess && !r.stages.geminiSuccess
      && r.stages.claudeModel == DEFAULT_CLAUDE_MODEL && r.stages.geminiModel == DEFAULT_GEMINI_MODEL
  {
  }
}
