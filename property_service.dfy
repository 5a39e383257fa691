/**
 * The question-analysis pipeline of `PropertyAnalysisService`: classify the
 * question, gather source records from the RSS collaborator (or the one
 * fallback record), render them as a context document, ask Claude, chain
 * Claude's analysis into Gemini's context, and compose the final answer with a
 * sources section and a status block. The two analysis calls go through an
 * abstract `Gateway`, so both the calls as written (which raise) and the calls
 * as intended can be stated; the clock readings are a `Clock` parameter.
 */
module PropertyService {
  import opened Wrappers
  import opened Text
  import opened Config
  import opened Feeds
  import opened LlmGateway

  // ---------------------------------------------------------------------------
  // Question type

  datatype QuestionType = Preset | Custom

  function QuestionTypeName(t: QuestionType): string {
    match t
    case Preset => "preset"
    case Custom => "custom"
  }

  /** `_determine_question_type`: a verbatim membership test on the presets. */
  function DetermineQuestionType(question: string): (t: QuestionType)
    ensures t == Preset <==> question in PRESET_QUESTIONS
  {
    if question in PRESET_QUESTIONS then Preset else Custom
  }

  /**
   * The membership test is exact: every preset is classified as a preset, but
   * the same text with a trailing space is a custom question.
   */
  lemma PresetMatchIsExact(k: nat)
    requires k < |PRESET_QUESTIONS|
    ensures DetermineQuestionType(PRESET_QUESTIONS[k]) == Preset
    ensures DetermineQuestionType(PRESET_QUESTIONS[k] + " ") == Custom
  {
    var p := PRESET_QUESTIONS[k];
    var spaced := p + " ";
    assert spaced[|spaced| - 1] == ' ';
    forall j | 0 <= j < |PRESET_QUESTIONS| ensures PRESET_QUESTIONS[j] != spaced {
      assert PRESET_QUESTIONS[j][|PRESET_QUESTIONS[j]| - 1] == '?';
    }
  }

  // ---------------------------------------------------------------------------
  // Source records

  datatype Relevance = High | Medium

  /**
   * One data-source record. `link` and `published` are `None` where the record
   * has no such key (the fallback record); `kind` is its `type` entry.
   */
  datatype DataSource = DataSource(
    source: string,
    title: string,
    summary: string,
    link: Option<string>,
    published: Option<string>,
    kind: string,
    date: string,
    relevance: Relevance,
    realData: bool)

  /** The readings of the clock that the pipeline renders: `%Y-%m-%d`, `%Y-%m-%d %H:%M` and the long analysis date. */
  datatype Clock = Clock(date: string, minute: string, analysisDate: string)

  /** An article that has every key the conversion reads with `article[...]`. */
  predicate ArticleComplete(a: Article) {
    a.source.Some? && a.title.Some? && a.summary.Some? && a.link.Some? && a.published.Some?
  }

  const RSS_NEWS_KIND := "rss_news"
  const FALLBACK_KIND := "fallback"
  const FALLBACK_SOURCE_NAME := "Australian Property Market Analysis"
  const FALLBACK_TITLE := "RSS feeds temporarily unavailable"
  const FALLBACK_SUMMARY := "Analysis based on general Australian property market knowledge"

  /** The record built from one article. */
  function ArticleSource(a: Article): (d: DataSource)
    requires ArticleComplete(a)
    ensures d.realData && d.kind == RSS_NEWS_KIND
    ensures d.relevance == High <==> a.brisbaneRelevant
    ensures d.link == a.link && d.published == a.published && d.date == a.published.value
  {
    DataSource(a.source.value, a.title.value, a.summary.value, a.link, a.published,
               RSS_NEWS_KIND, a.published.value, if a.brisbaneRelevant then High else Medium, true)
  }

  /** `_get_fallback_data_sources()`: one record, dated today, with no link and no `real_data`. */
  function FallbackDataSources(today: string): (r: seq<DataSource>)
    ensures |r| == 1 && !r[0].realData && r[0].relevance == Medium && r[0].date == today
    ensures r[0].link.None? && r[0].published.None?
  {
    [DataSource(FALLBACK_SOURCE_NAME, FALLBACK_TITLE, FALLBACK_SUMMARY, None, None, FALLBACK_KIND, today, Medium, false)]
  }

  const REGIONAL_ARTICLES: nat := 6
  const NATIONAL_ARTICLES: nat := 8

  /** The one fetch the gathering makes: regional news for a region-focused question, national news otherwise. */
  function RequestedArticles(question: string, feed: NewsFeed): FetchResult {
    if RegionFocused(question) then feed.regional(REGIONAL_ARTICLES) else feed.national(NATIONAL_ARTICLES)
  }

  predicate AllComplete(articles: seq<Article>) {
    forall k :: 0 <= k < |articles| ==> ArticleComplete(articles[k])
  }

  /** The records of a list of complete articles, in order. */
  function ArticleSources(articles: seq<Article>): (r: seq<DataSource>)
    requires AllComplete(articles)
    ensures |r| == |articles|
    ensures forall k :: 0 <= k < |r| ==> r[k] == ArticleSource(articles[k])
    decreases |articles|
  {
    if articles == [] then []
    else ArticleSources(articles[..|articles| - 1]) + [ArticleSource(articles[|articles| - 1])]
  }

  /** A record the context document can render: it has the `link` and `published` keys. */
  predicate Complete(d: DataSource) {
    d.link.Some? && d.published.Some?
  }

  /**
   * What the context builder needs in order not to raise: when the first
   * record has `real_data`, each of the first six has the keys it renders.
   */
  predicate ContextRenderable(ds: seq<DataSource>) {
    ds == [] || !ds[0].realData || forall k :: 0 <= k < Min(6, |ds|) ==> Complete(ds[k])
  }

  /** The source listing reads `published` of a real record whose link is truthy. */
  predicate LinkTruthy(d: DataSource) {
    d.link.Some? && d.link.value != ""
  }

  predicate Listable(d: DataSource) {
    !(d.realData && LinkTruthy(d)) || d.published.Some?
  }

  predicate ListingRenderable(ds: seq<DataSource>) {
    forall k :: 0 <= k < |ds| ==> Listable(ds[k])
  }

  /**
   * `_get_real_property_data_sources`: the fallback list when there is no RSS
   * collaborator, when the fetch raises or when an article lacks a key (the
   * `KeyError` is caught by the same handler); otherwise one record per article.
   */
  function DataSources(question: string, rss: Option<NewsFeed>, today: string): (r: seq<DataSource>)
    ensures ContextRenderable(r) && ListingRenderable(r)
  {
    match rss
    case None => FallbackDataSources(today)
    case Some(feed) =>
      match RequestedArticles(question, feed)
      case FetchRaised(_) => FallbackDataSources(today)
      case Fetched(articles) =>
        if AllComplete(articles) then ArticleSources(articles) else FallbackDataSources(today)
  }

  method GetRealPropertyDataSources(question: string, rss: Option<NewsFeed>, today: string)
    returns (ds: seq<DataSource>)
    ensures ds == DataSources(question, rss, today)
  {
    if rss.None? {
      return FallbackDataSources(today);
    }
    var fetched := if RegionFocused(question) then rss.value.regional(REGIONAL_ARTICLES)
                   else rss.value.national(NATIONAL_ARTICLES);
    if fetched.FetchRaised? {
      return FallbackDataSources(today);
    }
    var articles := fetched.articles;
    ds := [];
    var i := 0;
    while i < |articles|
      invariant 0 <= i <= |articles|
      invariant AllComplete(articles[..i])
      invariant ds == ArticleSources(articles[..i])
    {
      var article := articles[i];
      if !ArticleComplete(article) {
        assert !AllComplete(articles);
        return FallbackDataSources(today);
      }
      ArticleSourcesSnoc(articles, i);
      ds := ds + [ArticleSource(article)];
      i := i + 1;
    }
    assert articles[..i] == articles;
  }

  /** One more complete article adds its record at the end. */
  lemma ArticleSourcesSnoc(articles: seq<Article>, i: nat)
    requires i < |articles| && AllComplete(articles[..i]) && ArticleComplete(articles[i])
    ensures AllComplete(articles[..i + 1])
    ensures ArticleSources(articles[..i + 1]) == ArticleSources(articles[..i]) + [ArticleSource(articles[i])]
  {
    var front := articles[..i + 1];
    assert front[..i] == articles[..i] && front[i] == articles[i];
    assert forall k :: 0 <= k < i ==> front[k] == articles[..i][k];
  }

  /**
   * The gathering produces the fallback list exactly when there is no RSS
   * collaborator, the fetch raised or an article was incomplete; otherwise
   * every record mirrors its article, has `real_data`, and is high-relevance
   * exactly when the article is Brisbane-relevant.
   */
  lemma DataSourcesShape(question: string, rss: Option<NewsFeed>, today: string)
    ensures var ds := DataSources(question, rss, today);
      (ds == FallbackDataSources(today)) <==>
        (rss.None? || RequestedArticles(question, rss.value).FetchRaised?
         || !AllComplete(RequestedArticles(question, rss.value).articles))
    ensures var ds := DataSources(question, rss, today);
      ds != FallbackDataSources(today) ==>
        var articles := RequestedArticles(question, rss.value).articles;
        && |ds| == |articles|
        && forall k :: 0 <= k < |ds| ==>
             && ds[k].realData
             && (ds[k].relevance == High <==> articles[k].brisbaneRelevant)
             && ds[k].title == articles[k].title.value
             && ds[k].source == articles[k].source.value
  {
    var ds := DataSources(question, rss, today);
    if rss.Some? && RequestedArticles(question, rss.value).Fetched? {
      var articles := RequestedArticles(question, rss.value).articles;
      if AllComplete(articles) && articles == [] {
        assert ds == [];
      } else if AllComplete(articles) {
        assert ds[0].realData;
        assert !FallbackDataSources(today)[0].realData;
      }
    }
  }

  /**
   * Region focus decides which fetch is made: the records depend only on the
   * answer to the request for 6 regional articles when the question is
   * region-focused, and only on the request for 8 national ones otherwise.
   */
  lemma RegionFocusChoosesRequest(question: string, f1: NewsFeed, f2: NewsFeed, today: string)
    requires RegionFocused(question) ==> f1.regional(6) == f2.regional(6)
    requires !RegionFocused(question) ==> f1.national(8) == f2.national(8)
    ensures DataSources(question, Some(f1), today) == DataSources(question, Some(f2), today)
  {
    assert RequestedArticles(question, f1) == RequestedArticles(question, f2);
  }

  // ---------------------------------------------------------------------------
  // The context document

  // The fixed paragraphs keep their opening line; the prose after it is elided ("…").
  const NEUTRAL_CONTEXT := "\n# Australian Property Market Analysis Context\n…\n"
  const HIGH_RELEVANCE_MARKER := "- **Relevance**: \U{1F525} High relevance to query\n"
  const RSS_INSTRUCTIONS := "\n**Analysis Instructions**: …\n"

  const RSS_HEADER_OPENING := "\n# Current Australian Property Market Data\nRetrieved from live industry RSS feeds on "
  const RSS_HEADER_CLOSING := "\n\n## Real Property News and Developments:\n"
  const ENTRY_OPENING := "\n### "
  const ENTRY_NUMBER_END := ". "
  const SOURCE_FIELD := "\n- **Source**: "
  const PUBLISHED_FIELD := "\n- **Published**: "
  const SUMMARY_FIELD := "\n- **Summary**: "
  const LINK_FIELD := "\n- **Link**: "

  function RssHeader(minute: string): string {
    RSS_HEADER_OPENING + minute + RSS_HEADER_CLOSING
  }

  /** The block of the source at (1-based) position `i`; the marker line only for a high-relevance source. */
  function RssEntry(i: nat, d: DataSource): string
    requires Complete(d)
  {
    ENTRY_OPENING + NatToString(i) + ENTRY_NUMBER_END + d.title
    + SOURCE_FIELD + d.source
    + PUBLISHED_FIELD + d.published.value
    + SUMMARY_FIELD + d.summary
    + LINK_FIELD + d.link.value + "\n"
    + (if d.relevance == High then HIGH_RELEVANCE_MARKER else "")
    + "\n"
  }

  /** The blocks of `s`, numbered from 1 by position. */
  function RssEntries(s: seq<DataSource>): string
    requires AllRenderable(s)
    decreases |s|
  {
    if s == [] then "" else RssEntries(s[..|s| - 1]) + RssEntry(|s|, s[|s| - 1])
  }

  /** `_build_rss_context`: the neutral notice, or the header, the first six blocks and the instructions. */
  function RssContext(ds: seq<DataSource>, minute: string): string
    requires ContextRenderable(ds)
  {
    if ds == [] || !ds[0].realData then NEUTRAL_CONTEXT
    else RssHeader(minute) + RssEntries(ds[..Min(6, |ds|)]) + RSS_INSTRUCTIONS
  }

  method BuildRssContext(question: string, ds: seq<DataSource>, minute: string) returns (context: string)
    requires ContextRenderable(ds)
    ensures context == RssContext(ds, minute)
  {
    if ds == [] || !ds[0].realData {
      return NEUTRAL_CONTEXT;
    }
    var header := RssHeader(minute);
    var shown := ds[..Min(6, |ds|)];
    assert AllRenderable(shown);
    var entries := "";
    var i := 0;
    while i < |shown|
      invariant 0 <= i <= |shown|
      invariant entries == RssEntries(shown[..i])
    {
      RssEntriesSnoc(shown, i);
      entries := entries + RssEntry(i + 1, shown[i]);
      i := i + 1;
    }
    assert shown[..i] == shown;
    context := header + entries + RSS_INSTRUCTIONS;
  }

  predicate AllRenderable(s: seq<DataSource>) {
    forall k :: 0 <= k < |s| ==> Complete(s[k])
  }

  /** One more record adds its numbered block at the end. */
  lemma RssEntriesSnoc(s: seq<DataSource>, i: nat)
    requires AllRenderable(s) && i < |s|
    ensures AllRenderable(s[..i]) && AllRenderable(s[..i + 1])
    ensures RssEntries(s[..i + 1]) == RssEntries(s[..i]) + RssEntry(i + 1, s[i])
  {
    assert s[..i + 1][..i] == s[..i];
  }

  /** The neutral notice is used exactly when the list is empty or only its first record lacks `real_data`. */
  lemma RssContextNeutralIff(ds: seq<DataSource>, minute: string)
    requires ContextRenderable(ds)
    ensures RssContext(ds, minute) == NEUTRAL_CONTEXT <==> ds == [] || !ds[0].realData
  {
    if ds != [] && ds[0].realData {
      var r := RssContext(ds, minute);
      var front := RssHeader(minute) + RssEntries(ds[..Min(6, |ds|)]);
      assert r == front + RSS_INSTRUCTIONS;
      assert r[|r| - 3] == RSS_INSTRUCTIONS[|RSS_INSTRUCTIONS| - 3] == ' ';
      assert NEUTRAL_CONTEXT[|NEUTRAL_CONTEXT| - 3] == '\n';
    }
  }

  /**
   * Only the first record decides whether the list is rendered: when it has
   * `real_data`, every one of the first six blocks is rendered, including
   * those of later records without `real_data`; when it lacks `real_data`,
   * the neutral notice is used however many later records are real.
   */
  lemma OnlyFirstRecordDecides(ds: seq<DataSource>, minute: string, k: nat)
    requires ContextRenderable(ds) && 0 < k < |ds|
    ensures ds[0].realData && k < 6 ==> Contains(RssContext(ds, minute), RssEntry(k + 1, ds[k]))
    ensures !ds[0].realData ==> RssContext(ds, minute) == NEUTRAL_CONTEXT
  {
    if ds[0].realData && k < 6 {
      RssContextShowsFirstSix(ds, minute, k);
    }
  }

  /** A rendered context starts with the header and ends with the analysis instructions. */
  lemma RssContextFrame(ds: seq<DataSource>, minute: string)
    requires ContextRenderable(ds) && ds != [] && ds[0].realData
    ensures RssHeader(minute) <= RssContext(ds, minute)
    ensures EndsWith(RssContext(ds, minute), RSS_INSTRUCTIONS)
  {
    var header := RssHeader(minute);
    var entries := RssEntries(ds[..Min(6, |ds|)]);
    assert RssContext(ds, minute) == header + (entries + RSS_INSTRUCTIONS) by {
      assert RssContext(ds, minute) == header + entries + RSS_INSTRUCTIONS;
    }
    PrefixOfAppend(header, entries + RSS_INSTRUCTIONS);
    EndsWithAppend(header + entries, RSS_INSTRUCTIONS);
  }

  /** Only the first six records are rendered: the rest change nothing. */
  lemma RssContextCap(ds: seq<DataSource>, minute: string)
    requires ContextRenderable(ds) && |ds| > 6
    ensures ContextRenderable(ds[..6])
    ensures RssContext(ds, minute) == RssContext(ds[..6], minute)
  {
    assert ds[..6][..6] == ds[..6];
  }

  /** Each of the first six records has its numbered block in a rendered context. */
  lemma RssContextShowsFirstSix(ds: seq<DataSource>, minute: string, k: nat)
    requires ContextRenderable(ds) && ds != [] && ds[0].realData && k < Min(6, |ds|)
    ensures Contains(RssContext(ds, minute), RssEntry(k + 1, ds[k]))
  {
    var shown := ds[..Min(6, |ds|)];
    EntriesContainEach(shown, k);
    ContainsWithin(RssHeader(minute), RssEntries(shown), RSS_INSTRUCTIONS, RssEntry(k + 1, ds[k]));
  }

  lemma {:induction false} EntriesContainEach(s: seq<DataSource>, k: nat)
    requires AllRenderable(s) && k < |s|
    ensures Contains(RssEntries(s), RssEntry(k + 1, s[k]))
    decreases |s|
  {
    var init := s[..|s| - 1];
    var last := RssEntry(|s|, s[|s| - 1]);
    assert AllRenderable(init);
    var front := RssEntries(init);
    assert RssEntries(s) == front + last;
    if k == |s| - 1 {
      ContainsAtEnd(front, last);
    } else {
      assert init[k] == s[k];
      EntriesContainEach(init, k);
      ContainsExtended(front, last, RssEntry(k + 1, s[k]));
    }
  }

  /**
   * Relevance only adds the marker line: the block of a high-relevance record
   * is the block of the same record at medium relevance with the marker
   * inserted before its closing blank line.
   */
  lemma HighRelevanceAddsMarker(i: nat, d: DataSource)
    requires Complete(d) && d.relevance == High
    ensures var plain := RssEntry(i, d.(relevance := Medium));
      RssEntry(i, d) == plain[..|plain| - 1] + HIGH_RELEVANCE_MARKER + "\n"
    ensures Contains(RssEntry(i, d), HIGH_RELEVANCE_MARKER)
  {
    var m := d.(relevance := Medium);
    var lead := ENTRY_OPENING + NatToString(i) + ENTRY_NUMBER_END + d.title
      + SOURCE_FIELD + d.source
      + PUBLISHED_FIELD + d.published.value
      + SUMMARY_FIELD + d.summary
      + LINK_FIELD + d.link.value + "\n";
    assert RssEntry(i, m) == lead + "\n";
    assert (lead + "\n")[..|lead + "\n"| - 1] == lead;
    assert RssEntry(i, d) == lead + HIGH_RELEVANCE_MARKER + "\n";
    ContainsMiddle(lead, HIGH_RELEVANCE_MARKER, "\n");
  }

  // ---------------------------------------------------------------------------
  // Gemini's context

  const STRATEGIC_CONTEXT_HEADING := "\n\n## Strategic Analysis Context (from Claude):\n"
  const FINAL_INSTRUCTIONS := "\n\n## Final Analysis Instructions:\n…\n"

  /** `_build_enhanced_context`: the RSS context, followed by Claude's analysis when Claude succeeded. */
  function BuildEnhancedContext(question: string, claude: LlmResult, rssContext: string): (r: string)
    ensures rssContext <= r
    ensures r == rssContext <==> !claude.Success()
    ensures claude.Success() ==> Contains(r, claude.analysis)
  {
    if claude.Success() then
      var r := rssContext + STRATEGIC_CONTEXT_HEADING + claude.analysis + FINAL_INSTRUCTIONS;
      ContainsMiddle(rssContext + STRATEGIC_CONTEXT_HEADING, claude.analysis, FINAL_INSTRUCTIONS);
      r
    else rssContext
  }

  // ---------------------------------------------------------------------------
  // The fallback answer

  const FALLBACK_BASE := "Based on general Australian property market knowledge …"
  const DEVELOPMENT_PARAGRAPH := "\n\n**Development Activity Insights:**\n…"
  const TREND_PARAGRAPH := "\n\n**Market Trend Analysis:**\n…"
  const INFRASTRUCTURE_PARAGRAPH := "\n\n**Infrastructure Impact:**\n…"
  const FALLBACK_NOTE := "\n\n**Note**: …"

  const DEVELOPMENT_KEYWORDS: seq<string> := ["development", "application", "planning"]
  const TREND_KEYWORDS: seq<string> := ["trend", "market", "growth"]
  const INFRASTRUCTURE_KEYWORDS: seq<string> := ["infrastructure", "transport"]
  const FALLBACK_GROUPS: seq<seq<string>> := [DEVELOPMENT_KEYWORDS, TREND_KEYWORDS, INFRASTRUCTURE_KEYWORDS]
  const FALLBACK_PARAGRAPHS: seq<string> := [DEVELOPMENT_PARAGRAPH, TREND_PARAGRAPH, INFRASTRUCTURE_PARAGRAPH]

  /** `_generate_fallback_answer`: the overview, at most one category paragraph, and the note. */
  function GenerateFallbackAnswer(question: string): string {
    var q := Lower(question);
    var paragraph :=
      if AnyOccurs(DEVELOPMENT_KEYWORDS, q) then DEVELOPMENT_PARAGRAPH
      else if AnyOccurs(TREND_KEYWORDS, q) then TREND_PARAGRAPH
      else if AnyOccurs(INFRASTRUCTURE_KEYWORDS, q) then INFRASTRUCTURE_PARAGRAPH
      else "";
    FALLBACK_BASE + paragraph + FALLBACK_NOTE
  }

  /**
   * The fallback answer is the overview, the paragraph of the first keyword
   * group that occurs in the lower-cased question (none when no group
   * occurs), and the note.
   */
  lemma FallbackAnswerByFirstMatch(question: string)
    ensures var m := FirstMatch(FALLBACK_GROUPS, Lower(question));
      GenerateFallbackAnswer(question)
        == FALLBACK_BASE + (if m.Some? then FALLBACK_PARAGRAPHS[m.value] else "") + FALLBACK_NOTE
  {
    var q := Lower(question);
    var m := FirstMatch(FALLBACK_GROUPS, q);
    assert FALLBACK_GROUPS[0] == DEVELOPMENT_KEYWORDS && FALLBACK_GROUPS[1] == TREND_KEYWORDS
      && FALLBACK_GROUPS[2] == INFRASTRUCTURE_KEYWORDS;
    if m.Some? {
      assert m.value == 0 || !AnyOccurs(FALLBACK_GROUPS[0], q);
      assert m.value == 1 ==> AnyOccurs(FALLBACK_GROUPS[1], q);
    }
  }

  /** The fallback answer always opens with the overview and closes with the note. */
  lemma FallbackAnswerFrame(question: string)
    ensures FALLBACK_BASE <= GenerateFallbackAnswer(question)
    ensures EndsWith(GenerateFallbackAnswer(question), FALLBACK_NOTE)
  {
    FallbackAnswerByFirstMatch(question);
    var m := FirstMatch(FALLBACK_GROUPS, Lower(question));
    var p := if m.Some? then FALLBACK_PARAGRAPHS[m.value] else "";
    assert GenerateFallbackAnswer(question) == FALLBACK_BASE + (p + FALLBACK_NOTE);
    PrefixOfAppend(FALLBACK_BASE, p + FALLBACK_NOTE);
    EndsWithAppend(FALLBACK_BASE + p, FALLBACK_NOTE);
  }

  /** A development question gets the development paragraph even when it also names a later category. */
  lemma FallbackPrefersEarlierGroup(before: string, after: string)
    ensures GenerateFallbackAnswer(Lower(before) + "development" + Lower(after))
      == FALLBACK_BASE + DEVELOPMENT_PARAGRAPH + FALLBACK_NOTE
  {
    var q := Lower(before) + "development" + Lower(after);
    assert Lower(q) == q by {
      forall i | 0 <= i < |q| ensures LowerChar(q[i]) == q[i] {
        if i < |before| {
          assert q[i] == Lower(before)[i];
        } else if i < |before| + 11 {
          assert q[i] == "development"[i - |before|];
        } else {
          assert q[i] == Lower(after)[i - |before| - 11];
        }
      }
    }
    ContainsMiddle(Lower(before), "development", Lower(after));
    assert AnyOccurs(FALLBACK_GROUPS[0], Lower(q)) by {
      assert DEVELOPMENT_KEYWORDS[0] == "development";
    }
  }

  // ---------------------------------------------------------------------------
  // The final answer

  const REAL_SOURCES_HEADING := "### Real Australian Property Data Sources"
  const DATA_SOURCES_HEADING := "### Data Sources"
  const GENERAL_KNOWLEDGE_LINE := "- Analysis based on general " + "Australian property market knowledge"
  const RSS_UNAVAILABLE_LINE := "- Real-time RSS data temporarily unavailable"
  const SUMMARY_HEADING := "### AI Analysis Summary"
  const REAL_DATA_FOOTER := "*Australian Property Intelligence - " + "Real-time RSS data …*"
  const GENERAL_FOOTER := "*Australian Property Intelligence - " + "Professional Multi-LLM Analysis System*"
  const HIGH_ICON := "\U{1F525}"
  const MEDIUM_ICON := "\U{1F4CA}"
  const LISTING_OPENING := "- **"
  const LISTING_NAME_END := "** "
  const LISTING_TITLE_START := ": "
  const PUBLISHED_OPENING := "  *Published: "
  const PUBLISHED_CLOSING := "*"
  const CLAUDE_COMPLETED := "\U{2705} Strategic Analysis Completed"
  const CLAUDE_FAILED := "\U{274C} Strategic Analysis Failed"
  const GEMINI_COMPLETED := "\U{2705} Comprehensive Analysis Completed"
  const GEMINI_FAILED := "\U{274C} Comprehensive Analysis Failed"
  const REAL_COUNT_OPENING := "\U{2705} "
  const REAL_COUNT_CLOSING := " Real RSS Sources"
  const FALLBACK_DATA_USED := "\U{26A0}\U{FE0F} Fallback Data Used"
  const CLAUDE_LABEL := "- **Claude 3.5 Sonnet**: "
  const GEMINI_LABEL := "- **Gemini 1.5 Flash**: "
  const DATA_SOURCES_LABEL := "- **Data Sources**: "
  const ANALYSIS_DATE_LABEL := "- **Analysis Date**: "
  const RULE := "---"

  /** The main analysis: Gemini's, else Claude's, else the fallback answer. */
  function AnswerBody(question: string, claude: LlmResult, gemini: LlmResult): (r: string)
    ensures gemini.Success() ==> r == gemini.analysis
    ensures !gemini.Success() && claude.Success() ==> r == claude.analysis
    ensures !gemini.Success() && !claude.Success() ==> r == GenerateFallbackAnswer(question)
  {
    if gemini.Success() then gemini.analysis
    else if claude.Success() then claude.analysis
    else GenerateFallbackAnswer(question)
  }

  /** The entry line of one record: its source, its relevance icon and its title. */
  function ListingLine(d: DataSource): string {
    LISTING_OPENING + d.source + LISTING_NAME_END + (if d.relevance == High then HIGH_ICON else MEDIUM_ICON)
    + LISTING_TITLE_START + d.title
  }

  /** The listing lines of one record: its entry line, and a Published line when its link is truthy. */
  function ListingLines(d: DataSource): (r: seq<string>)
    requires Listable(d)
    ensures !d.realData ==> r == []
    ensures d.realData ==> |r| == (if LinkTruthy(d) then 2 else 1)
    ensures d.realData ==>
      r[0] == ListingLine(d)
    ensures d.realData && LinkTruthy(d) ==> r[1] == PUBLISHED_OPENING + d.published.value + PUBLISHED_CLOSING
  {
    if !d.realData then []
    else
      [ListingLine(d)]
      + (if LinkTruthy(d) then [PUBLISHED_OPENING + d.published.value + PUBLISHED_CLOSING] else [])
  }

  /** The listing lines of a list of records, in order. */
  function SourceLines(s: seq<DataSource>): seq<string>
    requires ListingRenderable(s)
    decreases |s|
  {
    if s == [] then [] else SourceLines(s[..|s| - 1]) + ListingLines(s[|s| - 1])
  }

  /** The records that have `real_data`, in order. */
  function RealOnly(s: seq<DataSource>): (r: seq<DataSource>)
    ensures |r| <= |s|
    ensures forall k :: 0 <= k < |r| ==> r[k].realData
    ensures forall d :: d in r <==> d in s && d.realData
    ensures ListingRenderable(s) ==> ListingRenderable(r)
    decreases |s|
  {
    if s == [] then []
    else
      assert s == s[..|s| - 1] + [s[|s| - 1]];
      RealOnly(s[..|s| - 1]) + (if s[|s| - 1].realData then [s[|s| - 1]] else [])
  }

  /**
   * The filter keeps order: filtering a concatenation concatenates the
   * filtered parts, so with `RealOnly([d])` being `[d]` or `[]` it keeps
   * each real record in place.
   */
  lemma {:induction false} RealOnlyAppend(a: seq<DataSource>, b: seq<DataSource>)
    ensures RealOnly(a + b) == RealOnly(a) + RealOnly(b)
    decreases |b|
  {
    if b != [] {
      var init := b[..|b| - 1];
      var last := b[|b| - 1];
      assert (a + b)[..|a + b| - 1] == a + init;
      RealOnlyAppend(a, init);
    } else {
      assert a + b == a;
    }
  }

  lemma ListingRenderableInit(s: seq<DataSource>)
    requires ListingRenderable(s) && s != []
    ensures ListingRenderable(s[..|s| - 1])
  {
    var init := s[..|s| - 1];
    forall k | 0 <= k < |init| ensures Listable(init[k]) {
      assert init[k] == s[k];
    }
  }

  /** Records without `real_data` contribute no listing line. */
  lemma {:induction false} ListingSkipsNonReal(s: seq<DataSource>)
    requires ListingRenderable(s)
    ensures ListingRenderable(RealOnly(s))
    ensures SourceLines(s) == SourceLines(RealOnly(s))
    decreases |s|
  {
    if s != [] {
      var init := s[..|s| - 1];
      var last := s[|s| - 1];
      ListingRenderableInit(s);
      ListingSkipsNonReal(init);
      assert SourceLines(s) == SourceLines(init) + ListingLines(last);
      if last.realData {
        var r := RealOnly(init) + [last];
        assert RealOnly(s) == r;
        assert r[..|r| - 1] == RealOnly(init);
        assert SourceLines(r) == SourceLines(RealOnly(init)) + ListingLines(last);
      } else {
        assert RealOnly(s) == RealOnly(init);
        assert ListingLines(last) == [];
      }
    }
  }

  /** Every listing line comes from a record with `real_data`: a list with none lists nothing. */
  lemma {:induction false} ListingOfNonRealIsEmpty(s: seq<DataSource>)
    requires ListingRenderable(s)
    requires forall k :: 0 <= k < |s| ==> !s[k].realData
    ensures SourceLines(s) == []
    decreases |s|
  {
    if s != [] {
      var init := s[..|s| - 1];
      ListingRenderableInit(s);
      assert forall k :: 0 <= k < |init| ==> !init[k].realData by {
        forall k | 0 <= k < |init| ensures !init[k].realData {
          assert init[k] == s[k];
        }
      }
      ListingOfNonRealIsEmpty(init);
      assert ListingLines(s[|s| - 1]) == [];
    }
  }

  /** The sources section: the real listing of the first five, the general notice, or nothing. */
  function SourcesSection(ds: seq<DataSource>, hasRealData: bool): seq<string>
    requires ListingRenderable(ds)
  {
    if |ds| > 0 && hasRealData then
      [REAL_SOURCES_HEADING, ""] + SourceLines(ds[..Min(5, |ds|)]) + [""]
    else if |ds| > 0 then
      [DATA_SOURCES_HEADING, "", GENERAL_KNOWLEDGE_LINE, RSS_UNAVAILABLE_LINE, ""]
    else []
  }

  function ClaudeStatus(claude: LlmResult): string {
    if claude.Success() then CLAUDE_COMPLETED else CLAUDE_FAILED
  }

  function GeminiStatus(gemini: LlmResult): string {
    if gemini.Success() then GEMINI_COMPLETED else GEMINI_FAILED
  }

  function DataStatus(count: nat, hasRealData: bool): string {
    if hasRealData then REAL_COUNT_OPENING + NatToString(count) + REAL_COUNT_CLOSING else FALLBACK_DATA_USED
  }

  /** The status block that closes every answer. */
  function StatusBlock(claude: LlmResult, gemini: LlmResult, count: nat, hasRealData: bool, analysisDate: string): (r: seq<string>)
    ensures |r| == 9 && r[0] == SUMMARY_HEADING && r[7] == RULE
    ensures r[2] == CLAUDE_LABEL + (if claude.Success() then CLAUDE_COMPLETED else CLAUDE_FAILED)
    ensures r[3] == GEMINI_LABEL + (if gemini.Success() then GEMINI_COMPLETED else GEMINI_FAILED)
    ensures hasRealData ==> r[4] == DATA_SOURCES_LABEL + (REAL_COUNT_OPENING + NatToString(count) + REAL_COUNT_CLOSING)
    ensures !hasRealData ==> r[4] == DATA_SOURCES_LABEL + FALLBACK_DATA_USED
    ensures r[5] == ANALYSIS_DATE_LABEL + analysisDate
    ensures r[8] == (if hasRealData then REAL_DATA_FOOTER else GENERAL_FOOTER)
  {
    var claudeLine := CLAUDE_LABEL + ClaudeStatus(claude);
    var geminiLine := GEMINI_LABEL + GeminiStatus(gemini);
    var dataLine := DATA_SOURCES_LABEL + DataStatus(count, hasRealData);
    var footer := if hasRealData then REAL_DATA_FOOTER else GENERAL_FOOTER;
    [SUMMARY_HEADING, "", claudeLine, geminiLine, dataLine, ANALYSIS_DATE_LABEL + analysisDate, "", RULE, footer]
  }

  /** The parts `_format_comprehensive_answer` collects before joining them with newlines. */
  function AnswerParts(question: string, claude: LlmResult, gemini: LlmResult, ds: seq<DataSource>,
                       hasRealData: bool, analysisDate: string): seq<string>
    requires ListingRenderable(ds)
  {
    [AnswerBody(question, claude, gemini), ""]
    + (SourcesSection(ds, hasRealData) + StatusBlock(claude, gemini, |ds|, hasRealData, analysisDate))
  }

  method FormatComprehensiveAnswer(question: string, claude: LlmResult, gemini: LlmResult, ds: seq<DataSource>,
                                   hasRealData: bool, analysisDate: string) returns (answer: string)
    requires ListingRenderable(ds)
    ensures answer == Join(AnswerParts(question, claude, gemini, ds, hasRealData, analysisDate), "\n")
  {
    var parts: seq<string>;
    if gemini.Success() {
      parts := [gemini.analysis, ""];
    } else if claude.Success() {
      parts := [claude.analysis, ""];
    } else {
      parts := [GenerateFallbackAnswer(question), ""];
    }
    var section: seq<string> := [];
    if |ds| > 0 && hasRealData {
      var shown := ds[..Min(5, |ds|)];
      assert ListingRenderable(shown);
      var lines: seq<string> := [];
      var i := 0;
      while i < |shown|
        invariant 0 <= i <= |shown|
        invariant lines == SourceLines(shown[..i])
      {
        var source := shown[i];
        SourceLinesSnoc(shown, i);
        if source.realData {
          var indicator := if source.relevance == High then HIGH_ICON else MEDIUM_ICON;
          var entry := [LISTING_OPENING + source.source + LISTING_NAME_END + indicator + LISTING_TITLE_START + source.title];
          if LinkTruthy(source) {
            entry := entry + [PUBLISHED_OPENING + source.published.value + PUBLISHED_CLOSING];
          }
          assert entry == ListingLines(source);
          lines := lines + entry;
        }
        i := i + 1;
      }
      assert shown[..i] == shown;
      section := [REAL_SOURCES_HEADING, ""] + lines + [""];
    } else if |ds| > 0 {
      section := [DATA_SOURCES_HEADING, "", GENERAL_KNOWLEDGE_LINE, RSS_UNAVAILABLE_LINE, ""];
    }
    parts := parts + (section + StatusBlock(claude, gemini, |ds|, hasRealData, analysisDate));
    answer := Join(parts, "\n");
  }

  /** One more record adds its listing lines at the end. */
  lemma SourceLinesSnoc(s: seq<DataSource>, i: nat)
    requires ListingRenderable(s) && i < |s|
    ensures ListingRenderable(s[..i]) && ListingRenderable(s[..i + 1])
    ensures SourceLines(s[..i + 1]) == SourceLines(s[..i]) + ListingLines(s[i])
  {
    assert s[..i + 1][..i] == s[..i];
    assert forall k :: 0 <= k < i + 1 ==> s[..i + 1][k] == s[k];
  }

  /** The answer opens with the main analysis and a blank line. */
  lemma AnswerStartsWithBody(question: string, claude: LlmResult, gemini: LlmResult, ds: seq<DataSource>,
                             hasRealData: bool, analysisDate: string)
    requires ListingRenderable(ds)
    ensures AnswerBody(question, claude, gemini) + "\n\n"
      <= Join(AnswerParts(question, claude, gemini, ds, hasRealData, analysisDate), "\n")
  {
    var rest := SourcesSection(ds, hasRealData) + StatusBlock(claude, gemini, |ds|, hasRealData, analysisDate);
    JoinOpensWith(AnswerBody(question, claude, gemini), rest, "\n");
  }

  /** Every answer ends with the status block, whatever the sources were. */
  lemma AnswerEndsWithStatus(question: string, claude: LlmResult, gemini: LlmResult, ds: seq<DataSource>,
                             hasRealData: bool, analysisDate: string)
    requires ListingRenderable(ds)
    ensures EndsWith(Join(AnswerParts(question, claude, gemini, ds, hasRealData, analysisDate), "\n"),
                     Join(StatusBlock(claude, gemini, |ds|, hasRealData, analysisDate), "\n"))
  {
    var head := [AnswerBody(question, claude, gemini), ""];
    var section := SourcesSection(ds, hasRealData);
    var status := StatusBlock(claude, gemini, |ds|, hasRealData, analysisDate);
    assert head + (section + status) == (head + section) + status;
    JoinEndsWith(head + section, status, "\n");
  }

  /** With no sources there is no sources section: the status block follows the body directly. */
  lemma NoSourcesNoSection(question: string, claude: LlmResult, gemini: LlmResult, hasRealData: bool, analysisDate: string)
    ensures AnswerParts(question, claude, gemini, [], hasRealData, analysisDate)
      == [AnswerBody(question, claude, gemini), ""] + StatusBlock(claude, gemini, 0, hasRealData, analysisDate)
  {
    assert SourcesSection([], hasRealData) == [];
  }

  /**
   * With sources and real data, the section lists at most the first five
   * records, and only those with `real_data`; records past the fifth change nothing.
   */
  lemma SourcesSectionCap(ds: seq<DataSource>)
    requires ListingRenderable(ds) && |ds| > 5
    ensures ListingRenderable(ds[..5])
    ensures SourcesSection(ds, true) == SourcesSection(ds[..5], true)
    ensures SourcesSection(ds, true) == [REAL_SOURCES_HEADING, ""] + SourceLines(RealOnly(ds[..5])) + [""]
  {
    assert ds[..5][..5] == ds[..5];
    ListingSkipsNonReal(ds[..5]);
  }

  // ---------------------------------------------------------------------------
  // The pipeline

  datatype Stages = Stages(
    claudeSuccess: bool,
    geminiSuccess: bool,
    rssDataSources: nat,
    dataSourcesCount: nat,
    claudeModel: Option<string>,
    geminiModel: Option<string>,
    realDataUsed: bool)

  /** The record `analyze_property_question` returns: the success record, or the failure record of its handler. */
  datatype AnalysisResult =
    | Analysed(question: string, questionType: QuestionType, finalAnswer: string, stages: Stages,
               claudeResult: LlmResult, geminiResult: LlmResult, dataSources: seq<DataSource>)
    | PipelineFailed(error: string, finalAnswer: string)

  /** `analyze_property_question` over a gateway, an optional RSS collaborator and the clock readings. */
  function Pipeline(question: string, rss: Option<NewsFeed>, gateway: Gateway, clock: Clock): AnalysisResult {
    var ds := DataSources(question, rss, clock.date);
    var rssContext := RssContext(ds, clock.minute);
    match gateway.claude(question, rssContext)
    case Raised(m) => PipelineFailed(m, GenerateFallbackAnswer(question))
    case Returned(claude) => AfterClaude(question, ds, rssContext, claude, gateway, clock)
  }

  /** The stages after Claude returned: Gemini's call with the enhanced context, then the answer. */
  function AfterClaude(question: string, ds: seq<DataSource>, rssContext: string, claude: LlmResult,
                       gateway: Gateway, clock: Clock): AnalysisResult
    requires ListingRenderable(ds)
  {
    var enhanced := BuildEnhancedContext(question, claude, rssContext);
    match gateway.gemini(question, claude.AnalysisText(), enhanced)
    case Raised(m) => PipelineFailed(m, GenerateFallbackAnswer(question))
    case Returned(gemini) => SuccessResult(question, ds, claude, gemini, clock)
  }

  /** The success record, with `has_real_data` and `real_data_used` both `bool(data_sources)`. */
  function SuccessResult(question: string, ds: seq<DataSource>, claude: LlmResult, gemini: LlmResult,
                         clock: Clock): AnalysisResult
    requires ListingRenderable(ds)
  {
    var hasRealData := |ds| > 0;
    Analysed(question, DetermineQuestionType(question),
             Join(AnswerParts(question, claude, gemini, ds, hasRealData, clock.analysisDate), "\n"),
             Stages(claude.Success(), gemini.Success(), |ds|, |ds|, claude.ModelUsed(), gemini.ModelUsed(), hasRealData),
             claude, gemini, ds)
  }

  method AnalyzePropertyQuestion(question: string, rss: Option<NewsFeed>, gateway: Gateway, clock: Clock)
    returns (r: AnalysisResult)
    ensures r == Pipeline(question, rss, gateway, clock)
  {
    var questionType := DetermineQuestionType(question);
    var ds := GetRealPropertyDataSources(question, rss, clock.date);
    var rssContext := BuildRssContext(question, ds, clock.minute);
    var claudeReply := gateway.claude(question, rssContext);
    if claudeReply.Raised? {
      return PipelineFailed(claudeReply.message, GenerateFallbackAnswer(question));
    }
    var claude := claudeReply.result;
    assert Pipeline(question, rss, gateway, clock) == AfterClaude(question, ds, rssContext, claude, gateway, clock);
    var enhanced := BuildEnhancedContext(question, claude, rssContext);
    var geminiReply := gateway.gemini(question, claude.AnalysisText(), enhanced);
    if geminiReply.Raised? {
      return PipelineFailed(geminiReply.message, GenerateFallbackAnswer(question));
    }
    var gemini := geminiReply.result;
    assert Pipeline(question, rss, gateway, clock) == SuccessResult(question, ds, claude, gemini, clock);
    var hasRealData := |ds| > 0;
    var answer := FormatComprehensiveAnswer(question, claude, gemini, ds, hasRealData, clock.analysisDate);
    r := Analysed(question, questionType, answer,
                  Stages(claude.Success(), gemini.Success(), |ds|, |ds|, claude.ModelUsed(), gemini.ModelUsed(), hasRealData),
                  claude, gemini, ds);
  }

  /**
   * The pipeline fails exactly when one of the two calls raises, and then its
   * answer is the fallback answer for the question.
   */
  lemma PipelineFailureIsFallback(question: string, rss: Option<NewsFeed>, gateway: Gateway, clock: Clock)
    ensures var r := Pipeline(question, rss, gateway, clock);
      var ctx := RssContext(DataSources(question, rss, clock.date), clock.minute);
      && (r.PipelineFailed? <==>
            (gateway.claude(question, ctx).Raised?
             || (var cr := gateway.claude(question, ctx).result;
                 gateway.gemini(question, cr.AnalysisText(), BuildEnhancedContext(question, cr, ctx)).Raised?)))
      && (r.PipelineFailed? ==> r.finalAnswer == GenerateFallbackAnswer(question))
  {
  }

  /**
   * As written, the first call passes a keyword the gateway does not accept:
   * every question ends in the failure record with the fallback answer.
   */
  lemma AsWrittenPipelineAlwaysFails(question: string, rss: Option<NewsFeed>, clock: Clock)
    ensures Pipeline(question, rss, AsWrittenGateway(), clock)
      == PipelineFailed(CLAUDE_KEYWORD_ERROR, GenerateFallbackAnswer(question))
  {
  }

  /**
   * The success record: both counts are the number of records, real data is
   * reported whenever there is any record, the flags and models are the
   * calls' own, and the answer opens with the body chosen by priority.
   */
  lemma SuccessRecord(question: string, rss: Option<NewsFeed>, gateway: Gateway, clock: Clock)
    ensures var r := Pipeline(question, rss, gateway, clock);
      r.Analysed? ==>
        && r.stages.rssDataSources == r.stages.dataSourcesCount == |r.dataSources|
        && r.stages.realDataUsed == (|r.dataSources| > 0)
        && r.dataSources == DataSources(question, rss, clock.date)
        && r.questionType == DetermineQuestionType(question)
        && r.stages.claudeSuccess == r.claudeResult.Success()
        && r.stages.geminiSuccess == r.geminiResult.Success()
        && r.stages.claudeModel == r.claudeResult.ModelUsed()
        && r.stages.geminiModel == r.geminiResult.ModelUsed()
        && AnswerBody(question, r.claudeResult, r.geminiResult) + "\n\n" <= r.finalAnswer
  {
    var r := Pipeline(question, rss, gateway, clock);
    if r.Analysed? {
      AnswerStartsWithBody(question, r.claudeResult, r.geminiResult, r.dataSources, |r.dataSources| > 0, clock.analysisDate);
    }
  }

  /** When the pipeline succeeds, its record is the success record of the gathered sources and the two results. */
  lemma PipelineSucceeded(question: string, rss: Option<NewsFeed>, gateway: Gateway, clock: Clock)
    ensures var r := Pipeline(question, rss, gateway, clock);
      r.Analysed? ==> r == SuccessResult(question, DataSources(question, rss, clock.date), r.claudeResult, r.geminiResult, clock)
  {
  }

  /**
   * The fallback list alone, reported as real data, gets the real-sources
   * heading with an empty listing, and the status line counts one real source.
   */
  lemma FallbackListing(today: string)
    ensures ListingRenderable(FallbackDataSources(today))
    ensures SourcesSection(FallbackDataSources(today), true) == [REAL_SOURCES_HEADING, "", ""]
    ensures DataStatus(1, true) == REAL_COUNT_OPENING + "1" + REAL_COUNT_CLOSING
  {
    var ds := FallbackDataSources(today);
    assert ds[..Min(5, |ds|)] == ds;
    ListingOfNonRealIsEmpty(ds);
    assert NatToString(1) == "1";
  }

  /**
   * Without an RSS collaborator the pipeline still reports real data: the one
   * fallback record makes `bool(data_sources)` true, so the answer claims one
   * real RSS source although no record has `real_data`.
   */
  lemma FallbackListCountsAsRealData(question: string, gateway: Gateway, clock: Clock)
    ensures var r := Pipeline(question, None, gateway, clock);
      r.Analysed? ==>
        && r.stages.realDataUsed
        && (forall k :: 0 <= k < |r.dataSources| ==> !r.dataSources[k].realData)
        && r.finalAnswer == Join([AnswerBody(question, r.claudeResult, r.geminiResult), "", REAL_SOURCES_HEADING, "", ""]
                                 + StatusBlock(r.claudeResult, r.geminiResult, 1, true, clock.analysisDate), "\n")
  {
    var r := Pipeline(question, None, gateway, clock);
    PipelineSucceeded(question, None, gateway, clock);
    if r.Analysed? {
      var ds := FallbackDataSources(clock.date);
      FallbackListing(clock.date);
      var body := AnswerBody(question, r.claudeResult, r.geminiResult);
      var status := StatusBlock(r.claudeResult, r.geminiResult, 1, true, clock.analysisDate);
      assert AnswerParts(question, r.claudeResult, r.geminiResult, ds, true, clock.analysisDate)
        == [body, ""] + ([REAL_SOURCES_HEADING, "", ""] + status);
      assert [body, ""] + ([REAL_SOURCES_HEADING, "", ""] + status) == [body, "", REAL_SOURCES_HEADING, "", ""] + status;
    }
  }

  /**
   * With the calls reaching the gateway (the `context` keyword dropped), the
   * pipeline chains Claude's analysis text into the Gemini call.
   */
  lemma ContextDroppingChainsClaudeIntoGemini(st: ServiceState, transport: Transport, question: string,
                                              rss: Option<NewsFeed>, clock: Clock)
    ensures var r := Pipeline(question, rss, ContextDroppingGateway(st, transport), clock);
      && r.Analysed?
      && r.claudeResult == AnalyzeWithClaude(st, question, transport)
      && r.geminiResult == AnalyzeWithGemini(st, question, r.claudeResult.AnalysisText(), transport)
  {
  }

  // ---------------------------------------------------------------------------
  // The summary

  datatype Summary = Summary(
    questionType: Option<QuestionType>,
    success: bool,
    providersUsed: seq<Provider>,
    dataSourcesCount: nat,
    realDataUsed: bool,
    answerLength: nat,
    processingTime: nat)

  /** `get_analysis_summary`, with absent entries read through their defaults. */
  function GetAnalysisSummary(r: AnalysisResult): (s: Summary)
    ensures forall p :: p in s.providersUsed <==>
      r.Analysed? && (match p case Claude => r.stages.claudeSuccess case Gemini => r.stages.geminiSuccess)
    ensures InProviderOrder(s.providersUsed)
    ensures s.answerLength == |r.finalAnswer|
    ensures s.success == r.Analysed?
    ensures r.PipelineFailed? ==>
      s.questionType.None? && s.dataSourcesCount == 0 && !s.realDataUsed && s.processingTime == 0
    ensures r.Analysed? ==>
      && s.questionType == Some(r.questionType)
      && s.dataSourcesCount == r.stages.dataSourcesCount
      && s.realDataUsed == r.stages.realDataUsed
      && s.processingTime == r.claudeResult.Duration() + r.geminiResult.Duration()
  {
    match r
    case PipelineFailed(_, answer) => Summary(None, false, [], 0, false, |answer|, 0)
    case Analysed(_, qt, answer, stages, claude, gemini, _) =>
      Summary(Some(qt), true,
              (if stages.claudeSuccess then [Claude] else []) + (if stages.geminiSuccess then [Gemini] else []),
              stages.dataSourcesCount, stages.realDataUsed, |answer|,
              claude.Duration() + gemini.Duration())
  }

  /** The summary of a pipeline run counts the providers that actually succeeded and the answer's length. */
  lemma SummaryOfPipeline(question: string, rss: Option<NewsFeed>, gateway: Gateway, clock: Clock)
    ensures var r := Pipeline(question, rss, gateway, clock);
      var s := GetAnalysisSummary(r);
      && (Claude in s.providersUsed <==> r.Analysed? && r.claudeResult.Success())
      && (Gemini in s.providersUsed <==> r.Analysed? && r.geminiResult.Success())
      && (r.Analysed? ==> s.dataSourcesCount == |DataSources(question, rss, clock.date)|)
      && s.answerLength == |r.finalAnswer|
  {
  }
}
