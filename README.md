# Australian Property Intelligence API — a verified model of its core

The system answers property-market questions over HTTP. A question is analysed by
a pipeline with these steps:

1. classify the question;
2. gather news articles from an RSS collaborator;
3. render them into a context document;
4. ask Claude for a strategic analysis;
5. chain that analysis into a Gemini request;
6. compose an answer with a sources section and a status block.

If a step fails, the pipeline falls back to a keyword-chosen canned answer.

The model is written in Dafny. It covers these parts of the system:

- **Configuration.** The model and preset lists, the enabled flags and the validator.
- **The LLM gateway.**
  - First-passing-model selection at start-up, as a class whose fields the start-up methods set.
  - The analysis calls and the health snapshot.
- **The two orchestrators.**
  - `PropertyAnalysisService`.
  - The newer `UpdatedPropertyService`.
- **The request-shaping rules of the HTTP layer.**

Collaborators are oracles passed in as parameters:

- the SDK transport;
- the RSS fetches;
- the database;
- the LLM replies.

Two further values are also parameters:

- the clock readings, as opaque strings;
- elapsed times, as naturals.

Modules:

| module | file | models |
|---|---|---|
| `Wrappers` | wrappers.dfy | `Option` for Python's `None`-or-value |
| `Text` | text.dfy | `str.lower`, `in`, `any(...)`, `"\n".join`, `str.strip`, `str(n)`, and the first-matching keyword group |
| `Config` | config.dfy | config.py |
| `LlmGateway` | llm_gateway.dfy | services/llm_service.py |
| `Feeds` | feeds.dfy | the article records and fetch outcomes both orchestrators consume, and the region-focus test |
| `PropertyService` | property_service.dfy | services/property_service.py |
| `UpdatedService` | updated_service.dfy | services/rss_service.py (`UpdatedPropertyService`) |
| `App` | app.dfy | app.py: service construction, question list, analysis endpoint, history endpoint |

The loops of the source are methods with loop invariants. Each is proved equal to a specification function, and the lemmas state properties of that function:

- `GetRealPropertyDataSources`, `BuildRssContext` and `FormatComprehensiveAnswer`;
- `GetRealDataSources` (through `CollectSources`) and `PrepareAnalysisContext`;
- `GetPropertyQuestions` (through `ListPresets` and `AppendPopular`) and `GetPropertyHistory`;
- the model-selection loops of `LLMService`.

## Model

| member | source | states |
|---|---|---|
| Config.FixedLists | config.py:24-65 | three Claude and three Gemini candidates, each list duplicate-free in its priority order; exactly five distinct presets |
| Config.EnabledFlagIff | config.py:38-39 | a flag is on iff the variable is unset (default `'true'`) or lower-cases to exactly `"true"` |
| Config.FromEnvironment | config.py:15-39 | the settings take the flags through that rule and the timeout default 30 |
| Config.Issues | config.py:77-97 | each of the four issues is collected iff its condition holds, in the order the checks append them |
| Config.ValidateConfig | config.py:77-97 | valid iff each enabled provider has a key, some provider is enabled and the timeout is at least 5 |
| Config.EnabledLlmProviders | config.py:99-106 | a provider is listed iff it is enabled and has a key, Claude before Gemini |
| Config.ValidConfigHasProviders | config.py:77-106 | a valid configuration has a provider, and the listed ones are exactly the enabled ones |
| Config.EnabledFlag | config.py:38-39 | no contract of its own; stated by Config.EnabledFlagIff and used by Config.FromEnvironment |
| LlmGateway.ErrorResponse | services/llm_service.py:202-209 | the error record: not successful, no analysis, zero time, the given message |
| LlmGateway.FirstPassing | services/llm_service.py:88-104 | the first candidate in list order whose test passes, and none iff no candidate passes |
| LlmGateway.FirstPassingIsFirst | services/llm_service.py:88-104 | a passing candidate with no passing one before it is the one chosen |
| LlmGateway.LLMService.constructor | services/llm_service.py:17-22 | all four fields start empty; initialisation leaves the state `Initialised` describes |
| LlmGateway.LLMService.InitializeClients | services/llm_service.py:24-30 | Claude and then Gemini are initialised, each only when its flag is on |
| LlmGateway.LLMService.InitClaude | services/llm_service.py:32-53 | no key or a failing SDK leaves no client; otherwise the client stays iff some model passes its test |
| LlmGateway.LLMService.TestClaudeConnection | services/llm_service.py:88-104 | sets the first passing Claude model; returns normally iff there is one |
| LlmGateway.LLMService.InitGemini | services/llm_service.py:55-86 | the loop stops at the first Gemini model that builds and answers; with none, the model object is cleared |
| LlmGateway.ClaudeWorkingModelIsFirstPassing | services/llm_service.py:32-104 | after start-up the working Claude model is the first passing one, and the client exists iff one passes |
| LlmGateway.GeminiWorkingModelIsFirstPassing | services/llm_service.py:55-86 | the working Gemini model is the first passing one, and the model object is absent iff none passes |
| LlmGateway.UnconfiguredProviderStaysEmpty | services/llm_service.py:24-60 | a disabled flag or a missing key leaves that provider's fields empty |
| LlmGateway.ProvidersInitialiseIndependently | services/llm_service.py:24-86 | each provider's fields depend only on its own flag, key and SDK behaviour |
| LlmGateway.CreateGeminiPrompt | services/llm_service.py:179-200 | the base prompt alone without Claude context; otherwise the base prompt extended by a suffix that contains the context |
| LlmGateway.AnalyzeWithClaude | services/llm_service.py:111-138 | no client gives the "not available" error; with a client, a reply to the Brisbane prompt sent to the working model (else the first candidate) gives the success record with that reply's text and time, that model and Claude as provider; a failing request gives the "Claude analysis failed: " error; a success comes only from such a reply |
| LlmGateway.AnalyzeWithGemini | services/llm_service.py:140-163 | the same cases for Gemini: no model object gives its error; a reply to the Gemini prompt carrying Claude's context gives the success record for the working Gemini model; a failing request gives the "Gemini analysis failed: " error |
| LlmGateway.UnavailableProviderMakesNoRequest | services/llm_service.py:111-143 | an unavailable provider's result does not depend on the transport |
| LlmGateway.InitialisedCallsUseWorkingModel | services/llm_service.py:111-163 | after start-up a successful call reports the frozen working model |
| LlmGateway.ClaudeAnalysisReachesGemini | services/llm_service.py:193-198 | a non-empty Claude analysis occurs in the Gemini prompt |
| LlmGateway.GetHealthStatus | services/llm_service.py:211-226 | availability, flags, working models and key presence, read from the fields and the settings |
| LlmGateway.GetAvailableProviders | services/llm_service.py:228-234 | a provider is listed iff the health snapshot calls it available, in provider order |
| LlmGateway.AvailableProvidersAreEnabled | services/llm_service.py:228-234 | after start-up only enabled providers with keys can be available |
| LlmGateway.Initialised | services/llm_service.py:17-30 | no contract of its own; the state that LlmGateway.LLMService.constructor reaches, with its properties stated by LlmGateway.ClaudeWorkingModelIsFirstPassing, LlmGateway.GeminiWorkingModelIsFirstPassing, LlmGateway.UnconfiguredProviderStaysEmpty and LlmGateway.ProvidersInitialiseIndependently |
| LlmGateway.AsWrittenGateway | services/property_service.py:31-39 | no contract of its own; the calls as written, where both raise on the `context=` keyword; stated by PropertyService.AsWrittenPipelineAlwaysFails |
| LlmGateway.ContextDroppingGateway | services/property_service.py:31-39 | no contract of its own; the calls without the keyword, reaching LlmGateway.AnalyzeWithClaude and LlmGateway.AnalyzeWithGemini; stated by PropertyService.ContextDroppingChainsClaudeIntoGemini |
| Feeds.RegionFocusedIffWindow | services/property_service.py:84-87 | a question is region-focused iff one of the five keywords occurs contiguously in its lower-cased text |
| Feeds.MentionMakesRegionFocused | services/rss_service.py:84-86 | a question containing any text that lower-cases to one of the keywords (`Brisbane`, `QLD`, `Gold Coast`, ...) is region-focused, whatever surrounds it |
| Feeds.RegionFocused | services/property_service.py:84-87 | no contract of its own; stated by Feeds.RegionFocusedIffWindow and Feeds.MentionMakesRegionFocused |
| PropertyService.DetermineQuestionType | services/property_service.py:73-75 | `preset` iff the question is one of the presets verbatim |
| PropertyService.PresetMatchIsExact | services/property_service.py:73-75 | a preset is a preset, and the same text with a trailing space is custom |
| PropertyService.ArticleSource | services/property_service.py:99-110 | an article's record has real data and the `rss_news` type; relevance is high iff the article is Brisbane-relevant; link and date are the article's |
| PropertyService.FallbackDataSources | services/property_service.py:118-128 | one record, dated today, medium relevance, no link, no real data |
| PropertyService.ArticleSources | services/property_service.py:97-112 | one record per article, in order |
| PropertyService.DataSources | services/property_service.py:77-116 | every gathered list can be rendered by the context builder and the answer formatter |
| PropertyService.GetRealPropertyDataSources | services/property_service.py:77-116 | the loop builds exactly the specified record list |
| PropertyService.DataSourcesShape | services/property_service.py:77-116 | the fallback list iff no collaborator, a raising fetch or an article missing a key; otherwise one real record per article mirroring it |
| PropertyService.RegionFocusChoosesRequest | services/property_service.py:84-95 | the records depend only on the 6-article regional request for region-focused questions, otherwise only on the 8-article national one |
| PropertyService.BuildRssContext | services/property_service.py:130-161 | the loop builds exactly the specified context document |
| PropertyService.RssContextNeutralIff | services/property_service.py:132-136 | the neutral notice is used iff the list is empty or its first record lacks real data |
| PropertyService.OnlyFirstRecordDecides | services/property_service.py:132-155 | only the first record's `real_data` is checked: if it is set, each of the first six blocks is rendered, including those of later records without real data; if it is not, the neutral notice is used even when later records are real |
| PropertyService.RssContextFrame | services/property_service.py:138-159 | a rendered context opens with the header and ends with the instructions |
| PropertyService.RssContextCap | services/property_service.py:145-155 | records past the sixth change nothing |
| PropertyService.RssContextShowsFirstSix | services/property_service.py:145-155 | each of the first six records has its numbered block |
| PropertyService.HighRelevanceAddsMarker | services/property_service.py:153-155 | a high-relevance block is the medium block with the marker line inserted |
| PropertyService.BuildEnhancedContext | services/property_service.py:163-181 | extends the RSS context; is unchanged iff Claude failed; contains Claude's analysis when it succeeded |
| PropertyService.FallbackAnswerByFirstMatch | services/property_service.py:241-293 | overview, then the paragraph of the first keyword group found in the lower-cased question (none if no group matches), then the note |
| PropertyService.FallbackAnswerFrame | services/property_service.py:245-293 | every fallback answer opens with the overview and ends with the note |
| PropertyService.FallbackPrefersEarlierGroup | services/property_service.py:262-287 | a development question gets the development paragraph even if it names a later group |
| PropertyService.AnswerBody | services/property_service.py:189-199 | Gemini's analysis if it succeeded, else Claude's, else the fallback answer |
| PropertyService.ListingLines | services/property_service.py:206-210 | a real record gives its entry line plus a Published line iff its link is truthy; others give nothing |
| PropertyService.RealOnly | services/property_service.py:205-206 | a record is kept iff it is in the list and has real data |
| PropertyService.RealOnlyAppend | services/property_service.py:205-206 | the filter distributes over concatenation, so the kept records stay in their original order |
| PropertyService.ListingSkipsNonReal | services/property_service.py:205-210 | records without real data contribute no listing line |
| PropertyService.ListingOfNonRealIsEmpty | services/property_service.py:202-211 | a list with no real record lists nothing |
| PropertyService.StatusBlock | services/property_service.py:219-237 | nine lines: the heading; Claude's line reads completed iff Claude succeeded, and Gemini's iff Gemini did; the data line gives the record count when real data was used and the fallback notice otherwise; then the analysis date, the rule, and the footer for real or general data |
| PropertyService.FormatComprehensiveAnswer | services/property_service.py:183-239 | the loop-built answer is the newline-join of the specified parts |
| PropertyService.AnswerStartsWithBody | services/property_service.py:187-199 | the answer opens with the main analysis and a blank line |
| PropertyService.AnswerEndsWithStatus | services/property_service.py:219-239 | every answer ends with the status block |
| PropertyService.NoSourcesNoSection | services/property_service.py:201-217 | with no records there is no sources section |
| PropertyService.SourcesSectionCap | services/property_service.py:202-211 | the section lists at most the first five records, and only real ones |
| PropertyService.AnalyzePropertyQuestion | services/property_service.py:21-71 | the stage-by-stage method returns the specified pipeline record |
| PropertyService.PipelineFailureIsFallback | services/property_service.py:21-71 | the record is the failure record iff a call raises, and then carries the fallback answer |
| PropertyService.SuccessRecord | services/property_service.py:46-63 | both counts equal the number of records; real data is reported iff there is a record; flags and models are the calls' own; the answer opens with the main analysis |
| PropertyService.FallbackListCountsAsRealData | services/property_service.py:43-58 | without a collaborator a successful run still reports real data and "1 Real RSS Sources" with an empty listing |
| PropertyService.AsWrittenPipelineAlwaysFails | services/property_service.py:31-39 | as written every question ends in the failure record with the keyword error and the fallback answer |
| PropertyService.ContextDroppingChainsClaudeIntoGemini | services/property_service.py:31-39 | with the calls reaching the gateway, the pipeline succeeds and Gemini receives Claude's analysis |
| PropertyService.GetAnalysisSummary | services/property_service.py:295-310 | providers listed iff they succeeded, in order; failure reads every absent key as its default |
| PropertyService.SummaryOfPipeline | services/property_service.py:295-310 | the summary of a run names the providers that succeeded and counts the gathered records |
| PropertyService.RssContext | services/property_service.py:130-161 | no contract of its own; built by PropertyService.BuildRssContext and stated by PropertyService.RssContextNeutralIff, PropertyService.OnlyFirstRecordDecides, PropertyService.RssContextFrame, PropertyService.RssContextCap, PropertyService.RssContextShowsFirstSix and PropertyService.HighRelevanceAddsMarker |
| PropertyService.GenerateFallbackAnswer | services/property_service.py:241-293 | no contract of its own; stated by PropertyService.FallbackAnswerByFirstMatch, PropertyService.FallbackAnswerFrame and PropertyService.FallbackPrefersEarlierGroup |
| PropertyService.Pipeline | services/property_service.py:21-71 | no contract of its own; returned by PropertyService.AnalyzePropertyQuestion and stated by PropertyService.PipelineFailureIsFallback, PropertyService.SuccessRecord, PropertyService.FallbackListCountsAsRealData, PropertyService.AsWrittenPipelineAlwaysFails and PropertyService.ContextDroppingChainsClaudeIntoGemini |
| UpdatedService.Truncate | services/rss_service.py:104 | a summary of up to 300 characters is kept; a longer one keeps its first 300 and ends with `...` |
| UpdatedService.TruncateIdempotent | services/rss_service.py:104 | truncating twice is truncating once |
| UpdatedService.SourcesOf | services/rss_service.py:97-109 | one record per article, numbered from 1 by position |
| UpdatedService.FallbackSources | services/rss_service.py:153-165 | one record with `fallback`, without `success`, id `fallback_1` |
| UpdatedService.CollectSources | services/rss_service.py:97-124 | one loop succeeds iff every article has a `source`, and then builds that loop's records |
| UpdatedService.GetRealDataSources | services/rss_service.py:81-151 | the three loops build exactly the specified list |
| UpdatedService.SourcesOfShape | services/rss_service.py:97-143 | every record of a loop has `success`, that loop's relevance keys and its numbered id |
| UpdatedService.RegionalGathering | services/rss_service.py:88-124 | region-focused: the fallback list iff a shown article lacks `source`; otherwise at most 5 Brisbane-relevant records then at most 3 others |
| UpdatedService.RegionalRecords | services/rss_service.py:97-124 | the two regional loops give the regional numbering and relevance, and never the fallback list |
| UpdatedService.NationalGathering | services/rss_service.py:126-143 | other questions: the fallback list iff a shown article lacks `source`; otherwise at most 8 national-scope records |
| UpdatedService.RaisingFetchFallsBack | services/rss_service.py:148-151 | a raising fetch gives exactly the fallback list |
| UpdatedService.GatheredRealDataIff | services/rss_service.py:171 | the gathered list has real data iff it is neither the fallback list nor empty |
| UpdatedService.PrepareAnalysisContext | services/rss_service.py:167-232 | the loop builds exactly the specified document |
| UpdatedService.ContextOpensWithQuery | services/rss_service.py:174-223 | both documents open with the title and the question |
| UpdatedService.UnavailableContextIff | services/rss_service.py:171-230 | the unavailable document is used iff no record has real data |
| UpdatedService.EntriesShowEachReal | services/rss_service.py:184-202 | every real record has its block, numbered by its position in the full list |
| UpdatedService.ContextShowsEachReal | services/rss_service.py:184-202 | in the real-data document, every real record's block occurs |
| UpdatedService.NonRealRendersNothing | services/rss_service.py:185 | records without real data render nothing |
| UpdatedService.EntryCarriesNote | services/rss_service.py:196-202 | the Brisbane note for a Brisbane-relevant record; otherwise the national note for a national-scope one; otherwise no note |
| UpdatedService.QueryPrompts | services/rss_service.py:240-279 | both prompts open with the context; Claude's response reaches Gemini only inside its headed section |
| UpdatedService.RunMultiLlmAnalysis | services/rss_service.py:234-309 | a raising query yields the failure record; otherwise the flags are the replies' own, the answer is Gemini's, else Claude's, else the apology, and the models default |
| UpdatedService.ClassifyByFirstMatch | services/rss_service.py:311-328 | the category of the first word group found in the lower-cased question, else `general_property` |
| UpdatedService.RealSourcesUsed | services/rss_service.py:52 | never more names than records; every record's name in order when every record succeeded; none when none did |
| UpdatedService.RealSourcesUsedMembers | services/rss_service.py:52 | for any list, a name is listed iff some record with `success` carries it |
| UpdatedService.RealSourcesUsedAppend | services/rss_service.py:52 | the names of a concatenation are the names of its parts in turn, so they follow the records' order |
| UpdatedService.AnalyzePropertyQuestion | services/rss_service.py:18-59 | the method returns the specified response |
| UpdatedService.ResponseRecords | services/rss_service.py:39-56 | counts every gathered record; names them all unless it is the fallback list; carries them iff details are asked for |
| UpdatedService.AsWrittenAnalysisReportsError | services/rss_service.py:255-309 | as written, every response carries the analysis-error text, false stage flags and the default models |
| UpdatedService.SourceOf | services/rss_service.py:97-109 | no contract of its own; stated through UpdatedService.SourcesOf and UpdatedService.SourcesOfShape |
| UpdatedService.RealDataSources | services/rss_service.py:81-151 | no contract of its own; built by UpdatedService.GetRealDataSources and stated by UpdatedService.RegionalGathering, UpdatedService.RegionalRecords, UpdatedService.NationalGathering and UpdatedService.RaisingFetchFallsBack |
| UpdatedService.AnalysisContext | services/rss_service.py:167-232 | no contract of its own; built by UpdatedService.PrepareAnalysisContext and stated by UpdatedService.ContextOpensWithQuery, UpdatedService.UnavailableContextIff and UpdatedService.ContextShowsEachReal |
| UpdatedService.ClassifyQuestionType | services/rss_service.py:311-328 | no contract of its own; stated by UpdatedService.ClassifyByFirstMatch |
| UpdatedService.Analyze | services/rss_service.py:18-59 | no contract of its own; returned by UpdatedService.AnalyzePropertyQuestion and stated by UpdatedService.ResponseRecords and UpdatedService.AsWrittenAnalysisReportsError |
| App.InitializeServices | app.py:31-72 | the property service exists iff the LLM service exists and its constructor does not raise, and then wraps that LLM service and the RSS service |
| App.PresetEntries | app.py:342-347 | one preset entry per preset, in order, with count 0 |
| App.PopularEntries | app.py:352-361 | the appended entries are popular and never a preset, at most one per item |
| App.ListPresets | app.py:342-347 | the first loop builds the preset entries |
| App.AppendPopular | app.py:353-361 | the second loop appends the specified popular entries and stops at the first item missing a key |
| App.GetPropertyQuestions | app.py:336-369 | the list is the presets then the popular part, and `total_count` is its length |
| App.QuestionListShape | app.py:339-367 | the list opens with every preset in order; every later entry is popular and not a preset; without a database it is the presets alone |
| App.PresetsListedOnce | app.py:350-359 | each preset occurs in the list exactly once, at its own position |
| App.PopularEntriesFilter | app.py:353-359 | with well-formed items, an entry is listed iff it comes from an item whose question is not a preset |
| App.NothingAfterRaisingItem | app.py:353-361 | items after one that raises on a missing key are never listed |
| App.Admit | app.py:382-401 | an admitted request has a non-empty stripped question and the present property service |
| App.RejectedBeforeService | app.py:382-394 | a missing or empty body, or an empty question, gives its 400 message whatever the services, clock and time |
| App.EmptyQuestionIff | app.py:389-390 | the question strips to nothing iff it is absent or only white space |
| App.MissingServiceRefused | app.py:396-407 | an admissible question gets the 500 service message without a property service, else the response to its pipeline record |
| App.StoredOnlyOnSuccess | app.py:411-423 | a reply has a query id iff there is a database, the record succeeded and `store_query` returned |
| App.DetailsOnlyWhenAsked | app.py:441-446 | `detailed_results` is present iff `include_details` is truthy |
| App.AnsweredCarriesPipeline | app.py:428-438 | a successful record is answered with the stripped question, its answer, type, stages and summary |
| App.AsWrittenFailureRaisesKeyError | app.py:428-457 | as written, a failure record yields the 500 reply `'question_type'` |
| App.AsWrittenEveryAnalysisErrors | app.py:407-457 | as written, every admitted question is answered with that `KeyError` message |
| App.CorrectedFailureReturnsFallback | app.py:428-446 | corrected, a failure reply has `success` false, stores nothing and carries the fallback answer |
| App.ClampLimit | app.py:472-476 | the limit lies in [1, 1000]; an in-range limit is kept, above 1000 becomes 1000, below 1 becomes 10 |
| App.ClampLimitIdempotent | app.py:472-476 | validating a validated limit changes nothing |
| App.GetPropertyHistory | app.py:460-493 | no database gives "Database not available"; otherwise the clamped limit is queried and the count is the number of rows |
| App.QuestionList | app.py:339-362 | no contract of its own; returned by App.GetPropertyQuestions and stated by App.QuestionListShape, App.PresetsListedOnce, App.PopularEntriesFilter and App.NothingAfterRaisingItem |
| App.StrippedQuestion | app.py:389 | no contract of its own; stated by App.EmptyQuestionIff and App.Admit |
| App.StoredId | app.py:411-423 | no contract of its own; stated by App.StoredOnlyOnSuccess |
| App.Respond | app.py:411-457 | no contract of its own; the as-written response; stated by App.AnsweredCarriesPipeline, App.DetailsOnlyWhenAsked and App.AsWrittenFailureRaisesKeyError |
| App.RespondCorrected | app.py:411-449 | no contract of its own; the corrected response; stated by App.CorrectedFailureReturnsFallback |
| App.AnalyzeEndpoint | app.py:378-457 | no contract of its own; stated by App.RejectedBeforeService, App.MissingServiceRefused and App.AsWrittenEveryAnalysisErrors |
| App.AnalyzeEndpointCorrected | app.py:378-457 | no contract of its own; with App.RespondCorrected for the reply; stated by App.CorrectedFailureReturnsFallback |
| Text.Strip | app.py:389 | the result has no white space at either end; it is the window of the input that starts after the leading white space; everything dropped before and after it is white space |
| Text.StripEmptyIffAllSpace | app.py:389-390 | a string strips to nothing iff it is all white space |
| Text.FirstMatch | services/rss_service.py:315-328 | the first group with a word in the text, and none iff no group has one |

## Left out

- Flask routing, `jsonify`, CORS, HTTP plumbing, the `/`, `/health`, `/health/deep` and `/api/property/stats` endpoints, and the `/debug/*` endpoints. They are I/O around the modelled rules; status codes are kept only on the analysis endpoint's error replies.
- The SDK calls, the RSS fetcher and cache, the database, `HealthChecker` and `StabilityService`. Each is an oracle that returns a value or raises with a message.
- Logging, wall-clock readings and durations. The several `datetime.now()` readings of one run are one `Clock` value of opaque strings. `time.time()` differences are naturals. `get_analysis_summary` adds the two durations as naturals, and `round(..., 2)` is not modelled.
- The long fixed paragraphs of the prompts and reports. Each is a named constant holding its opening line and "…". The properties are about structure: prefixes, suffixes, presence and order.
- `Text.Lower` and `Text.Strip` handle ASCII only. Non-ASCII case mappings and Unicode white space are not modelled.
- Reading environment variables when `Config` is defined is not modelled. The values are a parameter with `int(...)` already applied, so a non-numeric timeout, which raises at import, is not modelled.
- `Config.log_config_status`, `CORS_ORIGINS`, `DATABASE_PATH` and `BRISBANE_RSS_SOURCES` are not modelled. They are logging and configuration data that no modelled rule reads.
- `LLMService._create_brisbane_prompt` and `_test_gemini_connection` are opaque. The prompt is a function of the question, and the smoke test is part of the backend oracle.
- In services/rss_service.py, these are not modelled:
  - the module-level imports at lines 9-10;
  - the global instance and wrappers at lines 372-386;
  - the `__main__` script at lines 388-432;
  - the pass-through methods `get_rss_feed_status`, `refresh_rss_cache` and `get_sample_rss_data`.
- UpdatedService.AnalyzePropertyQuestion: the outer handler at services/rss_service.py:61-79 is not modelled. The gathering and the analysis stage each catch their own exceptions, so nothing reaches it.
- UpdatedService.GetRealDataSources: the model reads the general fetch even when the Brisbane fetch raises. The source stops at the first raise (services/rss_service.py:90-91). The result is the same, because either raise gives the fallback list, but the model does not capture the order or number of RSS calls.
- PropertyService.PresetMatchIsExact: exactness is shown for the trailing-space variant of each preset only.
- Collaborator dictionaries (articles, popular-question rows) are assumed to hold non-`None` values wherever a key is present. `Feeds.Article` and `App.PopularItem` use `None` only for a missing key, so a key present with value `None` cannot be represented. For example, a `summary` of `None` makes `len(...)` raise at services/rss_service.py:104, and lines 148-151 then return the fallback list; the model reads `""` instead and keeps the record.
- App.AnalyzeEndpoint: the request body is a JSON object whose values are strings, booleans, integers or null. Floats, lists, nested objects and non-object bodies are not modelled. A `get_json` that raises on malformed JSON is not modelled either.
- App.GetPropertyQuestions: the outer handler at app.py:371-376 is not modelled. The inner handler catches every exception except one raised by `jsonify` (app.py:363-369), and `jsonify` is left out with the HTTP plumbing.
- App.GetPropertyHistory: `request.args.get(..., type=int)` is a parameter that is `None` when the argument is absent or not an integer. The `offset` is echoed, as in the source.
- App.InitializeServices models the construction of the database, LLM, RSS and property services only. The stability and health services do not affect any modelled rule.
- App.InitializeServices leaves the RSS service free, but in the repository as it stands, `from services.rss_service import RSSService` (app.py:56) cannot succeed. services/rss_service.py defines no `RSSService`, and its own line 9 imports an `llm_service` name that services/llm_service.py does not define. So `services['rss']` is always `None`, and the deployed pipeline always gathers `FallbackDataSources`. The model covers both cases through the `rss` parameter.
- services/__init__.py is export wiring and is not part of this model.

## Findings

| source | as written | input that shows it | evidently intended | confidence | as-written member | corrected member |
|---|---|---|---|---|---|---|
| services/property_service.py:31-39 | both analysis calls pass a `context=` keyword that `analyze_with_claude(question)` and `analyze_with_gemini(question, claude_context)` do not accept, so each raises `TypeError` | any question, with any services | the calls reach the LLM service and Claude's analysis is chained into Gemini's request | high (not executed) | PropertyService.AsWrittenPipelineAlwaysFails | PropertyService.ContextDroppingChainsClaudeIntoGemini |
| app.py:428-438 | the response reads `result['question_type']` and `result['processing_stages']`, which the failure record of services/property_service.py:67-71 lacks, so the handler replies 500 with `'question_type'` | any admitted question whose pipeline fails, for example every question under the first finding | the client receives `success` false with the fallback answer the pipeline prepared | medium (not executed) | App.AsWrittenFailureRaisesKeyError | App.CorrectedFailureReturnsFallback |
| services/rss_service.py:255 | the analysis stage calls `llm_service.query_claude`, which `LLMService` does not define, so the stage always ends in its error record | any question | the two queries reach the LLM service and the answer is chosen by priority | medium (not executed) | UpdatedService.AsWrittenAnalysisReportsError | UpdatedService.RunMultiLlmAnalysis |
