/**
 * The request-shaping rules of the HTTP layer: which services exist after
 * start-up, the preset-plus-popular question list, the analysis endpoint's
 * rejections, storage rule and response, and the history limit. Requests are
 * JSON values, the database is an oracle of what its calls return or raise,
 * and the elapsed processing time is an abstract natural.
 */
module App {
  import opened Wrappers
  import opened Text
  import opened Config
  import opened Feeds
  import opened LlmGateway
  import opened PropertyService

  // ---------------------------------------------------------------------------
  // Services

  /** One entry of `get_popular_questions`; `None` is a key missing from the entry. */
  datatype PopularItem = PopularItem(question: Option<string>, count: Option<int>)

  datatype PopularFetch = PopularItems(items: seq<PopularItem>) | PopularRaised(message: string)

  /** The rows of `get_query_history`, or the message of the exception it raised. */
  datatype HistoryFetch = HistoryRows(rows: seq<map<string, string>>) | HistoryRaised(message: string)

  datatype StoreOutcome = Stored(id: int) | StoreRaised(message: string)

  /**
   * The database object as the endpoints use it: popular questions for a
   * limit, history rows for a limit, and `store_query` for a question, its
   * answer, its type name, the processing time and the success flag.
   */
  datatype Database = Database(
    popular: nat -> PopularFetch,
    history: int -> HistoryFetch,
    store: (string, string, string, nat, bool) -> StoreOutcome)

  /** The property-analysis service: the LLM gateway and the optional RSS collaborator it was built with. */
  datatype PropertyHandle = PropertyHandle(gateway: Gateway, rss: Option<NewsFeed>)

  /** The `services` dictionary; `None` is a service whose construction raised or was skipped. */
  datatype Services = Services(
    database: Option<Database>,
    llm: Option<Gateway>,
    rss: Option<NewsFeed>,
    property: Option<PropertyHandle>)

  /**
   * `initialize_services`: each constructor either yields its service or
   * raises (`None` here, `propertyBuilds` for the property service). The
   * property service is built only when the LLM service exists, and then
   * over that LLM service and the RSS service, present or not.
   */
  method InitializeServices(database: Option<Database>, llm: Option<Gateway>, rss: Option<NewsFeed>,
                            propertyBuilds: bool)
    returns (s: Services)
    ensures s.database == database && s.llm == llm && s.rss == rss
    ensures s.property.Some? <==> llm.Some? && propertyBuilds
    ensures s.property.Some? ==> s.property.value == PropertyHandle(llm.value, rss)
  {
    s := Services(database, None, None, None);
    s := s.(llm := llm);
    s := s.(rss := rss);
    if llm.Some? && propertyBuilds {
      s := s.(property := Some(PropertyHandle(llm.value, rss)));
    }
  }

  // ---------------------------------------------------------------------------
  // The question list

  datatype EntryKind = PresetEntry | PopularEntry

  datatype QuestionEntry = QuestionEntry(question: string, kind: EntryKind, count: int)

  datatype QuestionsResponse = QuestionsListed(questions: seq<QuestionEntry>, presetQuestions: seq<string>, totalCount: nat)

  const POPULAR_LIMIT: nat := 5

  function PresetQuestion(question: string): QuestionEntry {
    QuestionEntry(question, PresetEntry, 0)
  }

  /**
   * The popular entries the loop appends: items whose question is a preset are
   * skipped, and the first item missing a key it reads raises, which ends the
   * loop with the entries appended so far.
   */
  function PopularEntries(items: seq<PopularItem>): (r: seq<QuestionEntry>)
    ensures |r| <= |items|
    ensures forall k :: 0 <= k < |r| ==> r[k].kind == PopularEntry && r[k].question !in PRESET_QUESTIONS
    decreases |items|
  {
    if items == [] then []
    else
      match items[0].question
      case None => []
      case Some(q) =>
        if q in PRESET_QUESTIONS then PopularEntries(items[1..])
        else
          match items[0].count
          case None => []
          case Some(c) => [QuestionEntry(q, PopularEntry, c)] + PopularEntries(items[1..])
  }

  /** The entries beyond the presets: none without a database or when the popular fetch raises. */
  function PopularPart(database: Option<Database>): seq<QuestionEntry> {
    if database.None? then []
    else
      match database.value.popular(POPULAR_LIMIT)
      case PopularRaised(_) => []
      case PopularItems(items) => PopularEntries(items)
  }

  /** Every preset as a question entry, in order. */
  function PresetEntries(presets: seq<string>): (r: seq<QuestionEntry>)
    ensures |r| == |presets|
    ensures forall k :: 0 <= k < |r| ==> r[k] == QuestionEntry(presets[k], PresetEntry, 0)
  {
    seq(|presets|, k requires 0 <= k < |presets| => PresetQuestion(presets[k]))
  }

  function QuestionList(database: Option<Database>): seq<QuestionEntry> {
    PresetEntries(PRESET_QUESTIONS) + PopularPart(database)
  }

  /** `get_property_questions`: the presets in order, then the popular entries. */
  method GetPropertyQuestions(database: Option<Database>) returns (r: QuestionsResponse)
    ensures r == QuestionsListed(QuestionList(database), PRESET_QUESTIONS, |QuestionList(database)|)
  {
    var questions := ListPresets(PRESET_QUESTIONS);
    if database.Some? {
      var popular := database.value.popular(POPULAR_LIMIT);
      if popular.PopularItems? {
        questions := AppendPopular(questions, popular.items);
      }
    }
    r := QuestionsListed(questions, PRESET_QUESTIONS, |questions|);
  }

  /** The first loop of `get_property_questions`: one preset entry per preset. */
  method ListPresets(presets: seq<string>) returns (questions: seq<QuestionEntry>)
    ensures questions == PresetEntries(presets)
  {
    questions := [];
    for i := 0 to |presets|
      invariant |questions| == i
      invariant forall k :: 0 <= k < i ==> questions[k] == PresetQuestion(presets[k])
    {
      questions := questions + [PresetQuestion(presets[i])];
    }
  }

  /**
   * The second loop: append each popular item that is not a preset, until an
   * item raises on a missing key.
   */
  method AppendPopular(start: seq<QuestionEntry>, items: seq<PopularItem>) returns (questions: seq<QuestionEntry>)
    ensures questions == start + PopularEntries(items)
  {
    questions := start;
    var i := 0;
    while i < |items|
      invariant 0 <= i <= |items|
      invariant questions + PopularEntries(items[i..]) == start + PopularEntries(items)
    {
      var item := items[i];
      assert items[i..][1..] == items[i + 1..];
      if item.question.None? {
        break;
      }
      if item.question.value !in PRESET_QUESTIONS {
        if item.count.None? {
          break;
        }
        questions := questions + [QuestionEntry(item.question.value, PopularEntry, item.count.value)];
      }
      i := i + 1;
    }
    assert i == |items| ==> items[i..] == [];
  }

  /**
   * The list opens with every preset, in order, typed preset with count 0;
   * every later entry is popular and not a preset; without a database the
   * list is the presets alone.
   */
  lemma QuestionListShape(database: Option<Database>)
    ensures var q := QuestionList(database);
      && |q| >= |PRESET_QUESTIONS|
      && (forall k :: 0 <= k < |PRESET_QUESTIONS| ==> q[k] == QuestionEntry(PRESET_QUESTIONS[k], PresetEntry, 0))
      && (forall k :: |PRESET_QUESTIONS| <= k < |q| ==> q[k].kind == PopularEntry && q[k].question !in PRESET_QUESTIONS)
      && (database.None? ==> |q| == |PRESET_QUESTIONS|)
  {
    var q := QuestionList(database);
    var p := PopularPart(database);
    forall k | |PRESET_QUESTIONS| <= k < |q|
      ensures q[k].kind == PopularEntry && q[k].question !in PRESET_QUESTIONS
    {
      assert q[k] == p[k - |PRESET_QUESTIONS|];
    }
  }

  /** Each preset occurs in the list once, at its own position: no popular entry repeats a preset. */
  lemma PresetsListedOnce(database: Option<Database>, j: nat, k: nat)
    requires j < |PRESET_QUESTIONS| && k < |QuestionList(database)|
    ensures QuestionList(database)[k].question == PRESET_QUESTIONS[j] <==> k == j
  {
    QuestionListShape(database);
    FixedLists();
  }

  predicate WellFormed(item: PopularItem) {
    item.question.Some? && item.count.Some?
  }

  /**
   * When every item has both keys, the popular entries are exactly the items
   * whose question is not a preset.
   */
  lemma {:induction false} PopularEntriesFilter(items: seq<PopularItem>, e: QuestionEntry)
    requires forall k :: 0 <= k < |items| ==> WellFormed(items[k])
    ensures e in PopularEntries(items) <==>
      exists k :: 0 <= k < |items| && WellFormed(items[k]) && items[k].question.value !in PRESET_QUESTIONS
        && e == QuestionEntry(items[k].question.value, PopularEntry, items[k].count.value)
    decreases |items|
  {
    if items != [] {
      var rest := items[1..];
      assert forall k :: 0 <= k < |rest| ==> rest[k] == items[k + 1];
      PopularEntriesFilter(rest, e);
      var hit := exists k :: (0 <= k < |rest| && rest[k].question.value !in PRESET_QUESTIONS
        && e == QuestionEntry(rest[k].question.value, PopularEntry, rest[k].count.value));
      if hit {
        var k :| 0 <= k < |rest| && rest[k].question.value !in PRESET_QUESTIONS
          && e == QuestionEntry(rest[k].question.value, PopularEntry, rest[k].count.value);
        assert items[k + 1] == rest[k];
      }
      if exists k :: (0 <= k < |items| && WellFormed(items[k]) && items[k].question.value !in PRESET_QUESTIONS
        && e == QuestionEntry(items[k].question.value, PopularEntry, items[k].count.value))
      {
        var k :| 0 <= k < |items| && WellFormed(items[k]) && items[k].question.value !in PRESET_QUESTIONS
          && e == QuestionEntry(items[k].question.value, PopularEntry, items[k].count.value);
        if k > 0 {
          assert rest[k - 1] == items[k];
        }
      }
    }
  }

  /** An item that raises (a missing question, or a missing count on a non-preset) hides every item after it. */
  predicate Raises(item: PopularItem) {
    item.question.None? || (item.question.value !in PRESET_QUESTIONS && item.count.None?)
  }

  lemma {:induction false} NothingAfterRaisingItem(front: seq<PopularItem>, bad: PopularItem, rest: seq<PopularItem>)
    requires Raises(bad)
    ensures PopularEntries(front + [bad] + rest) == PopularEntries(front + [bad])
    decreases |front|
  {
    if front == [] {
      assert [bad] + rest == front + [bad] + rest;
      assert ([bad] + rest)[0] == bad;
    } else {
      assert (front + [bad] + rest)[1..] == front[1..] + [bad] + rest;
      assert (front + [bad])[1..] == front[1..] + [bad];
      NothingAfterRaisingItem(front[1..], bad, rest);
    }
  }

  // ---------------------------------------------------------------------------
  // The analysis endpoint

  /** The JSON values a request field may hold (floats, lists and objects are not modelled). */
  datatype JsonValue = JString(s: string) | JBool(b: bool) | JNumber(n: int) | JNull

  /** Python's truthiness of a decoded JSON value. */
  predicate Truthy(v: JsonValue) {
    match v
    case JString(s) => s != ""
    case JBool(b) => b
    case JNumber(n) => n != 0
    case JNull => false
  }

  const BODY_REQUIRED := "Request body must be JSON"
  const QUESTION_REQUIRED := "Question is required"
  const SERVICE_UNAVAILABLE := "Property analysis service not available"
  const SERVICE_DETAILS := "LLM services may not be configured correctly"
  const BOOL_STRIP_ERROR := "'bool' object has no attribute 'strip'"
  const INT_STRIP_ERROR := "'int' object has no attribute 'strip'"
  const NONE_STRIP_ERROR := "'NoneType' object has no attribute 'strip'"
  const QUESTION_TYPE_KEY_ERROR := "'question_type'"

  /** The `detailed_results` entry: the three lookups the endpoint makes with `get`. */
  datatype Details = Details(claudeResult: Option<LlmResult>, geminiResult: Option<LlmResult>,
                             dataSources: Option<seq<DataSource>>)

  /** The endpoint's JSON reply: the analysis response, or an error with its status code. */
  datatype AnalyzeResponse =
    | Answered(success: bool, question: string, questionType: Option<QuestionType>, answer: string,
               processingTime: nat, queryId: Option<int>, stages: Option<Stages>, summary: Summary,
               details: Option<Details>)
    | ErrorReply(status: nat, error: string, hint: Option<string>)

  /** `data.get('question', '').strip()`: the stripped text, or the message a non-string raises. */
  datatype QuestionText = Text(text: string) | NotText(message: string)

  function StrippedQuestion(body: map<string, JsonValue>): QuestionText {
    if "question" !in body then Text("")
    else
      match body["question"]
      case JString(s) => Text(Strip(s))
      case JBool(_) => NotText(BOOL_STRIP_ERROR)
      case JNumber(_) => NotText(INT_STRIP_ERROR)
      case JNull => NotText(NONE_STRIP_ERROR)
  }

  function IncludeDetails(body: map<string, JsonValue>): bool {
    "include_details" in body && Truthy(body["include_details"])
  }

  /** The checks made before the analysis service is called: a rejection, or the question to analyse. */
  datatype Admission =
    | Rejected(reply: AnalyzeResponse)
    | Admitted(question: string, service: PropertyHandle, includeDetails: bool)

  function Admit(body: Option<map<string, JsonValue>>, services: Services): (a: Admission)
    ensures a.Admitted? ==> a.question != [] && Some(a.service) == services.property
  {
    if body.None? || body.value == map[] then Rejected(ErrorReply(400, BODY_REQUIRED, None))
    else
      match StrippedQuestion(body.value)
      case NotText(m) => Rejected(ErrorReply(500, m, None))
      case Text(question) =>
        if question == [] then Rejected(ErrorReply(400, QUESTION_REQUIRED, None))
        else if services.property.None? then Rejected(ErrorReply(500, SERVICE_UNAVAILABLE, Some(SERVICE_DETAILS)))
        else Admitted(question, services.property.value, IncludeDetails(body.value))
  }

  /** The id `store_query` returns; it is called only with a database and a successful result. */
  function StoredId(question: string, result: AnalysisResult, database: Option<Database>, elapsed: nat): Option<int> {
    if database.Some? && result.Analysed? then
      match database.value.store(question, result.finalAnswer, QuestionTypeName(result.questionType), elapsed, true)
      case Stored(id) => Some(id)
      case StoreRaised(_) => None
    else None
  }

  /**
   * The response built from the pipeline's record, as written: the failure
   * record has no `question_type` entry, so building the response raises
   * `KeyError` and the handler replies with its message.
   */
  function Respond(question: string, result: AnalysisResult, database: Option<Database>, includeDetails: bool,
                   elapsed: nat): AnalyzeResponse
  {
    match result
    case PipelineFailed(_, _) => ErrorReply(500, QUESTION_TYPE_KEY_ERROR, None)
    case Analysed(_, qt, answer, stages, claude, gemini, ds) =>
      Answered(true, question, Some(qt), answer, elapsed, StoredId(question, result, database, elapsed),
               Some(stages), GetAnalysisSummary(result),
               if includeDetails then Some(Details(Some(claude), Some(gemini), Some(ds))) else None)
  }

  /** The response with the record's entries read through `get`, so that a failure record is reported as such. */
  function RespondCorrected(question: string, result: AnalysisResult, database: Option<Database>,
                            includeDetails: bool, elapsed: nat): AnalyzeResponse
  {
    match result
    case PipelineFailed(_, answer) =>
      Answered(false, question, None, answer, elapsed, None, None, GetAnalysisSummary(result),
               if includeDetails then Some(Details(None, None, None)) else None)
    case Analysed(_, _, _, _, _, _, _) => Respond(question, result, database, includeDetails, elapsed)
  }

  function RunPipeline(a: Admission, clock: Clock): AnalysisResult
    requires a.Admitted?
  {
    Pipeline(a.question, a.service.rss, a.service.gateway, clock)
  }

  /** `analyze_property_question`, the endpoint, as written. */
  function AnalyzeEndpoint(body: Option<map<string, JsonValue>>, services: Services, clock: Clock,
                           elapsed: nat): AnalyzeResponse
  {
    var a := Admit(body, services);
    if a.Rejected? then a.reply
    else Respond(a.question, RunPipeline(a, clock), services.database, a.includeDetails, elapsed)
  }

  /** The endpoint with the corrected response. */
  function AnalyzeEndpointCorrected(body: Option<map<string, JsonValue>>, services: Services, clock: Clock,
                                    elapsed: nat): AnalyzeResponse
  {
    var a := Admit(body, services);
    if a.Rejected? then a.reply
    else RespondCorrected(a.question, RunPipeline(a, clock), services.database, a.includeDetails, elapsed)
  }

  /**
   * A missing or empty body, and a question that is missing or all space, are
   * rejected with their messages before any service is consulted: the reply
   * is the same whatever the services, the clock and the elapsed time.
   */
  lemma RejectedBeforeService(body: Option<map<string, JsonValue>>, s1: Services, s2: Services,
                              c1: Clock, c2: Clock, e1: nat, e2: nat)
    ensures (body.None? || body.value == map[]) ==>
      AnalyzeEndpoint(body, s1, c1, e1) == ErrorReply(400, BODY_REQUIRED, None)
    ensures body.Some? && body.value != map[] && StrippedQuestion(body.value) == Text("") ==>
      AnalyzeEndpoint(body, s1, c1, e1) == ErrorReply(400, QUESTION_REQUIRED, None)
    ensures (body.None? || body.value == map[] || StrippedQuestion(body.value).NotText?
             || StrippedQuestion(body.value) == Text("")) ==>
      AnalyzeEndpoint(body, s1, c1, e1) == AnalyzeEndpoint(body, s2, c2, e2)
  {
  }

  /** The question strips to nothing exactly when it is absent or a string made only of space. */
  lemma EmptyQuestionIff(body: map<string, JsonValue>)
    ensures StrippedQuestion(body) == Text("") <==>
      ("question" !in body
       || (body["question"].JString? && forall i :: 0 <= i < |body["question"].s| ==> IsSpace(body["question"].s[i])))
  {
    if "question" in body && body["question"].JString? {
      StripEmptyIffAllSpace(body["question"].s);
    }
  }

  /** An admissible question without a property service is refused with the service message. */
  lemma MissingServiceRefused(body: map<string, JsonValue>, services: Services, clock: Clock, elapsed: nat)
    requires body != map[] && StrippedQuestion(body).Text? && StrippedQuestion(body).text != []
    ensures AnalyzeEndpoint(Some(body), services, clock, elapsed)
      == (if services.property.None? then ErrorReply(500, SERVICE_UNAVAILABLE, Some(SERVICE_DETAILS))
          else Respond(StrippedQuestion(body).text,
                       Pipeline(StrippedQuestion(body).text, services.property.value.rss,
                                services.property.value.gateway, clock),
                       services.database, IncludeDetails(body), elapsed))
  {
  }

  /**
   * A query is stored only with a database and a successful result: a reply
   * carries an id exactly when both hold and `store_query` returned one.
   */
  lemma StoredOnlyOnSuccess(question: string, result: AnalysisResult, database: Option<Database>,
                            includeDetails: bool, elapsed: nat)
    ensures var r := RespondCorrected(question, result, database, includeDetails, elapsed);
      && r.Answered?
      && (r.queryId.Some? <==>
            database.Some? && result.Analysed?
            && database.value.store(question, result.finalAnswer, QuestionTypeName(result.questionType),
                                    elapsed, true).Stored?)
      && (r.queryId.Some? ==> r.queryId.value == database.value.store(question, result.finalAnswer,
                                    QuestionTypeName(result.questionType), elapsed, true).id)
  {
  }

  /** `detailed_results` is present exactly when `include_details` is truthy. */
  lemma DetailsOnlyWhenAsked(body: Option<map<string, JsonValue>>, services: Services, clock: Clock, elapsed: nat)
    ensures var r := AnalyzeEndpointCorrected(body, services, clock, elapsed);
      r.Answered? ==> (r.details.Some? <==> "include_details" in body.value && Truthy(body.value["include_details"]))
    ensures var r := AnalyzeEndpoint(body, services, clock, elapsed);
      r.Answered? ==> (r.details.Some? <==> "include_details" in body.value && Truthy(body.value["include_details"]))
  {
  }

  /**
   * A successful pipeline record is answered with the stripped question, the
   * record's answer and type, and its summary, by both responses alike.
   */
  lemma AnsweredCarriesPipeline(question: string, result: AnalysisResult, database: Option<Database>,
                                includeDetails: bool, elapsed: nat)
    requires result.Analysed?
    ensures var r := Respond(question, result, database, includeDetails, elapsed);
      && r == RespondCorrected(question, result, database, includeDetails, elapsed)
      && r.Answered? && r.success && r.question == question
      && r.answer == result.finalAnswer && r.questionType == Some(result.questionType)
      && r.stages == Some(result.stages) && r.summary == GetAnalysisSummary(result)
      && r.processingTime == elapsed
  {
  }

  /** As written, a failure record never reaches the client: the reply is the `KeyError` message. */
  lemma AsWrittenFailureRaisesKeyError(question: string, error: string, answer: string,
                                       database: Option<Database>, includeDetails: bool, elapsed: nat)
    ensures Respond(question, PipelineFailed(error, answer), database, includeDetails, elapsed)
      == ErrorReply(500, QUESTION_TYPE_KEY_ERROR, None)
  {
  }

  /**
   * As written, with the calls that raise on their `context` keyword, every
   * admitted question is answered with the `KeyError` message, not with the
   * fallback answer the pipeline prepared.
   */
  lemma AsWrittenEveryAnalysisErrors(body: Option<map<string, JsonValue>>, database: Option<Database>,
                                     rss: Option<NewsFeed>, clock: Clock, elapsed: nat)
    ensures var services := Services(database, Some(AsWrittenGateway()), rss, Some(PropertyHandle(AsWrittenGateway(), rss)));
      Admit(body, services).Admitted? ==>
        AnalyzeEndpoint(body, services, clock, elapsed) == ErrorReply(500, QUESTION_TYPE_KEY_ERROR, None)
  {
    var services := Services(database, Some(AsWrittenGateway()), rss, Some(PropertyHandle(AsWrittenGateway(), rss)));
    var a := Admit(body, services);
    if a.Admitted? {
      AsWrittenPipelineAlwaysFails(a.question, rss, clock);
    }
  }

  /**
   * Corrected, a failure record is reported with `success` false and the
   * pipeline's fallback answer, and nothing is stored.
   */
  lemma CorrectedFailureReturnsFallback(body: Option<map<string, JsonValue>>, database: Option<Database>,
                                        rss: Option<NewsFeed>, clock: Clock, elapsed: nat)
    ensures var services := Services(database, Some(AsWrittenGateway()), rss, Some(PropertyHandle(AsWrittenGateway(), rss)));
      var a := Admit(body, services);
      var r := AnalyzeEndpointCorrected(body, services, clock, elapsed);
      a.Admitted? ==>
        && r.Answered? && !r.success && r.queryId.None? && r.question == a.question
        && r.answer == GenerateFallbackAnswer(a.question)
  {
    var services := Services(database, Some(AsWrittenGateway()), rss, Some(PropertyHandle(AsWrittenGateway(), rss)));
    var a := Admit(body, services);
    if a.Admitted? {
      AsWrittenPipelineAlwaysFails(a.question, rss, clock);
    }
  }

  // ---------------------------------------------------------------------------
  // The history endpoint

  const DEFAULT_LIMIT: int := 50
  const DEFAULT_OFFSET: int := 0
  const MAX_LIMIT: int := 1000
  const LOW_LIMIT_REPLACEMENT: int := 10
  const DATABASE_UNAVAILABLE := "Database not available"

  /** The limit after validation: capped at 1000, and replaced by 10 when below 1. */
  function ClampLimit(limit: int): (r: int)
    ensures 1 <= r <= MAX_LIMIT
    ensures 1 <= limit <= MAX_LIMIT ==> r == limit
    ensures limit > MAX_LIMIT ==> r == MAX_LIMIT
    ensures limit < 1 ==> r == LOW_LIMIT_REPLACEMENT
  {
    if limit > MAX_LIMIT then MAX_LIMIT else if limit < 1 then LOW_LIMIT_REPLACEMENT else limit
  }

  /** Validating a validated limit changes nothing. */
  lemma ClampLimitIdempotent(limit: int)
    ensures ClampLimit(ClampLimit(limit)) == ClampLimit(limit)
  {
  }

  datatype HistoryResponse =
    | HistoryListed(history: seq<map<string, string>>, count: nat, limit: int, offset: int)
    | HistoryError(error: string)

  /**
   * `get_property_history`: `limitArg` and `offsetArg` are the query
   * arguments that parse as integers (`None` when absent or not an integer).
   */
  method GetPropertyHistory(database: Option<Database>, limitArg: Option<int>, offsetArg: Option<int>)
    returns (r: HistoryResponse)
    ensures database.None? ==> r == HistoryError(DATABASE_UNAVAILABLE)
    ensures database.Some? ==>
      var limit := ClampLimit(limitArg.GetOr(DEFAULT_LIMIT));
      match database.value.history(limit)
      case HistoryRaised(m) => r == HistoryError(m)
      case HistoryRows(rows) => r == HistoryListed(rows, |rows|, limit, offsetArg.GetOr(DEFAULT_OFFSET))
  {
    if database.None? {
      return HistoryError(DATABASE_UNAVAILABLE);
    }
    var limit := limitArg.GetOr(DEFAULT_LIMIT);
    var offset := offsetArg.GetOr(DEFAULT_OFFSET);
    if limit > MAX_LIMIT {
      limit := MAX_LIMIT;
    }
    if limit < 1 {
      limit := LOW_LIMIT_REPLACEMENT;
    }
    var fetched := database.value.history(limit);
    match fetched
    case HistoryRaised(m) => r := HistoryError(m);
    case HistoryRows(rows) => r := HistoryListed(rows, |rows|, limit, offset);
  }
}
