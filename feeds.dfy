/**
 * What the two property services consume from the RSS collaborator: article
 * records, the outcome of one fetch, and the region-focus test both services
 * apply to a question before choosing which fetch to make.
 */
module Feeds {
  import opened Wrappers
  import opened Text

  /**
   * One article as the RSS collaborator returns it. A `None` field is a key
   * missing from the article dictionary; `brisbaneRelevant` is the truthiness
   * of its `brisbane_relevant` entry.
   */
  datatype Article = Article(
    source: Option<string>,
    title: Option<string>,
    summary: Option<string>,
    link: Option<string>,
    published: Option<string>,
    brisbaneRelevant: bool)

  /** The outcome of one fetch: a list of articles, or the message of the exception it raised. */
  datatype FetchResult = Fetched(articles: seq<Article>) | FetchRaised(message: string)

  /**
   * The RSS collaborator as an oracle: the outcome of asking for at most `n`
   * region-specific articles, and for at most `n` national ones.
   */
  datatype NewsFeed = NewsFeed(regional: nat -> FetchResult, national: nat -> FetchResult)

  /** The five region keywords; both services list the same ones. */
  const REGION_KEYWORDS: seq<string> := ["brisbane", "queensland", "qld", "gold coast", "sunshine coast"]

  /** A question is region-focused when its lower-cased text contains one of the region keywords. */
  predicate RegionFocused(question: string) {
    AnyOccurs(REGION_KEYWORDS, Lower(question))
  }

  /** A question is region-focused exactly when some region keyword is a window of its lower-cased text. */
  lemma RegionFocusedIffWindow(question: string)
    ensures RegionFocused(question) <==>
      exists k, i :: 0 <= k < |REGION_KEYWORDS| && WindowAt(Lower(question), REGION_KEYWORDS[k], i)
  {
    var q := Lower(question);
    if RegionFocused(question) {
      var k :| 0 <= k < |REGION_KEYWORDS| && Contains(q, REGION_KEYWORDS[k]);
      ContainsWindow(q, REGION_KEYWORDS[k]);
    }
    if exists k, i :: 0 <= k < |REGION_KEYWORDS| && WindowAt(q, REGION_KEYWORDS[k], i) {
      var k, i :| 0 <= k < |REGION_KEYWORDS| && WindowAt(q, REGION_KEYWORDS[k], i);
      WindowContains(q, REGION_KEYWORDS[k], i);
    }
  }

  /** Any question that mentions one of the keywords, in any letter case, is region-focused. */
  lemma MentionMakesRegionFocused(before: string, mention: string, after: string, k: nat)
    requires k < |REGION_KEYWORDS| && Lower(mention) == REGION_KEYWORDS[k]
    ensures RegionFocused(before + mention + after)
  {
    LowerAppend(before, mention);
    LowerAppend(before + mention, after);
    ContainsMiddle(Lower(before), REGION_KEYWORDS[k], Lower(after));
  }
}
