/**
 * The provider gateway (`LLMService`): at construction it picks, per
 * provider, the first candidate model whose smoke test passes and freezes it;
 * afterwards it answers analysis calls, turning every failure into one fixed
 * error-record shape, and reports availability.
 *
 * The SDKs are oracles: `Backend` says what initialisation would observe, and
 * a `Transport` gives the outcome of one request. The call operations change
 * no field, so they are functions of the service's field values (`ServiceState`).
 */
module LlmGateway {
  import opened Wrappers
  import opened Text
  import opened Config

  /** What the SDKs do during initialisation. */
  datatype Backend = Backend(
    claudeSdkReady: bool,             // `import anthropic` and building the client succeed
    geminiSdkReady: bool,             // `import google.generativeai` and `genai.configure` succeed
    claudeSmokePasses: set<string>,   // Claude models whose minimal request succeeds
    geminiSmokePasses: set<string>)   // Gemini models that can be built and answer "hi"

  /** The outcome of one SDK request: reply text and elapsed time, or the exception's message. */
  datatype CallOutcome = Replied(text: string, elapsed: nat) | CallFailed(message: string)

  /** The SDKs as an oracle: the outcome of sending `prompt` to `model` of a provider. */
  type Transport = (Provider, string, string) -> CallOutcome

  /**
   * A gateway result record: `{'success': True, 'analysis', 'model_used',
   * 'processing_time', 'provider'}` or the error record `{'success': False,
   * 'analysis': None, 'error', 'processing_time': 0}`.
   */
  datatype LlmResult =
    | Analysis(analysis: string, modelUsed: string, processingTime: nat, provider: Provider)
    | ErrorRecord(error: string)
  {
    predicate Success() { Analysis? }

    /** The `analysis` entry: the text, or `None` in an error record. */
    function AnalysisText(): Option<string> {
      if Analysis? then Some(analysis) else None
    }

    /** The `model_used` entry, absent (`None`) in an error record. */
    function ModelUsed(): Option<string> {
      if Analysis? then Some(modelUsed) else None
    }

    /** The `processing_time` entry; an error record carries 0. */
    function Duration(): nat {
      if Analysis? then processingTime else 0
    }
  }

  /** `_error_response(msg)`. */
  function ErrorResponse(message: string): (r: LlmResult)
    ensures !r.Success() && r.AnalysisText() == None && r.Duration() == 0 && r.ModelUsed() == None
    ensures r.error == message
  {
    ErrorRecord(message)
  }

  /**
   * The values of the service's fields. A client or model object is
   * represented by whether it is there; a Gemini model object by the name it
   * was built for.
   */
  datatype ServiceState = ServiceState(
    settings: Settings,
    claudeClient: bool,
    geminiModel: Option<string>,
    workingClaudeModel: Option<string>,
    workingGeminiModel: Option<string>)

  /** The first candidate, in list order, that is in `passes`. */
  function FirstPassing(candidates: seq<string>, passes: set<string>): (r: Option<string>)
    ensures r.Some? ==> r.value in passes
    ensures r.Some? ==> exists i :: (0 <= i < |candidates| && candidates[i] == r.value &&
      forall j :: 0 <= j < i ==> candidates[j] !in passes)
    ensures r.None? <==> forall j :: 0 <= j < |candidates| ==> candidates[j] !in passes
    decreases |candidates|
  {
    if |candidates| == 0 then None
    else if candidates[0] in passes then Some(candidates[0])
    else
      var r := FirstPassing(candidates[1..], passes);
      if r.Some? then
        var i :| 0 <= i < |candidates[1..]| && candidates[1..][i] == r.value &&
          forall j :: 0 <= j < i ==> candidates[1..][j] !in passes;
        assert candidates[i + 1] == r.value;
        r
      else r
  }

  /** The Claude fields `_init_claude` leaves: client present, and the working model. */
  function ClaudeInit(s: Settings, b: Backend): (bool, Option<string>) {
    if !HasKey(s.claudeApiKey) || !b.claudeSdkReady then (false, None)
    else
      var m := FirstPassing(CLAUDE_MODELS, b.claudeSmokePasses);
      (m.Some?, m)
  }

  /** The Gemini fields `_init_gemini` leaves: the model object, and the working model. */
  function GeminiInit(s: Settings, b: Backend): (Option<string>, Option<string>) {
    if !HasKey(s.geminiApiKey) || !b.geminiSdkReady then (None, None)
    else
      var m := FirstPassing(GEMINI_MODELS, b.geminiSmokePasses);
      (m, m)
  }

  /** The state `__init__` leaves: each provider initialised only when its flag is on. */
  function Initialised(s: Settings, b: Backend): ServiceState {
    var (client, claudeModel) := if s.claudeEnabled then ClaudeInit(s, b) else (false, None);
    var (model, geminiModel) := if s.geminiEnabled then GeminiInit(s, b) else (None, None);
    ServiceState(s, client, model, claudeModel, geminiModel)
  }

  class LLMService {
    const settings: Settings
    const backend: Backend
    var claudeClient: bool
    var geminiModel: Option<string>
    var workingClaudeModel: Option<string>
    var workingGeminiModel: Option<string>

    function State(): ServiceState
      reads this
    {
      ServiceState(settings, claudeClient, geminiModel, workingClaudeModel, workingGeminiModel)
    }

    /** `__init__`: all four fields start as `None`, then `_initialize_clients` runs. */
    constructor (settings: Settings, backend: Backend)
      ensures State() == Initialised(settings, backend)
    {
      this.settings := settings;
      this.backend := backend;
      claudeClient := false;
      geminiModel := None;
      workingClaudeModel := None;
      workingGeminiModel := None;
      new;
      InitializeClients();
    }

    /** `_initialize_clients`: Claude, then Gemini, each only when enabled. */
    method InitializeClients()
      requires !claudeClient && geminiModel == None && workingClaudeModel == None && workingGeminiModel == None
      modifies this
      ensures State() == Initialised(settings, backend)
    {
      if settings.claudeEnabled {
        InitClaude();
      }
      if settings.geminiEnabled {
        InitGemini();
      }
    }

    /** `_init_claude`; every exception inside it ends with no client. */
    method InitClaude()
      requires !claudeClient && workingClaudeModel == None
      modifies this`claudeClient, this`workingClaudeModel
      ensures (claudeClient, workingClaudeModel) == ClaudeInit(settings, backend)
    {
      if !HasKey(settings.claudeApiKey) {
        return;
      }
      if !backend.claudeSdkReady {
        claudeClient := false;
        return;
      }
      claudeClient := true;
      var ok := TestClaudeConnection();
      if !ok {
        claudeClient := false;
      }
    }

    /**
     * `_test_claude_connection`: try the candidates in order and keep the
     * first that answers; `ok == false` stands for the exception raised when
     * none does.
     */
    method TestClaudeConnection() returns (ok: bool)
      requires workingClaudeModel == None
      modifies this`workingClaudeModel
      ensures ok <==> FirstPassing(CLAUDE_MODELS, backend.claudeSmokePasses).Some?
      ensures workingClaudeModel == FirstPassing(CLAUDE_MODELS, backend.claudeSmokePasses)
    {
      var i := 0;
      while i < |CLAUDE_MODELS|
        invariant 0 <= i <= |CLAUDE_MODELS|
        invariant workingClaudeModel == None
        invariant forall j :: 0 <= j < i ==> CLAUDE_MODELS[j] !in backend.claudeSmokePasses
      {
        var model := CLAUDE_MODELS[i];
        if model in backend.claudeSmokePasses {
          workingClaudeModel := Some(model);
          FirstPassingIsFirst(CLAUDE_MODELS, backend.claudeSmokePasses, i);
          return true;
        }
        i := i + 1;
      }
      return false;
    }

    /** `_init_gemini`: build and test each candidate in order, stopping at the first that works. */
    method InitGemini()
      requires geminiModel == None && workingGeminiModel == None
      modifies this`geminiModel, this`workingGeminiModel
      ensures (geminiModel, workingGeminiModel) == GeminiInit(settings, backend)
    {
      if !HasKey(settings.geminiApiKey) {
        return;
      }
      if !backend.geminiSdkReady {
        geminiModel := None;
        return;
      }
      var i := 0;
      while i < |GEMINI_MODELS|
        invariant 0 <= i <= |GEMINI_MODELS|
        invariant workingGeminiModel == None
        invariant forall j :: 0 <= j < i ==> GEMINI_MODELS[j] !in backend.geminiSmokePasses
      {
        var modelName := GEMINI_MODELS[i];
        geminiModel := Some(modelName);
        if modelName in backend.geminiSmokePasses {
          workingGeminiModel := Some(modelName);
          FirstPassingIsFirst(GEMINI_MODELS, backend.geminiSmokePasses, i);
          break;
        }
        i := i + 1;
      }
      if workingGeminiModel == None {
        geminiModel := None;
      }
    }
  }

  /** A passing candidate with no passing candidate before it is the one `FirstPassing` finds. */
  lemma {:induction false} FirstPassingIsFirst(candidates: seq<string>, passes: set<string>, i: nat)
    requires i < |candidates| && candidates[i] in passes
    requires forall j :: 0 <= j < i ==> candidates[j] !in passes
    ensures FirstPassing(candidates, passes) == Some(candidates[i])
    decreases i
  {
    if i > 0 {
      FirstPassingIsFirst(candidates[1..], passes, i - 1);
    }
  }

  /**
   * After initialisation the working Claude model is the first candidate whose
   * smoke test passed; with none passing there is no client.
   */
  lemma ClaudeWorkingModelIsFirstPassing(s: Settings, b: Backend)
    requires s.claudeEnabled && HasKey(s.claudeApiKey) && b.claudeSdkReady
    ensures var st := Initialised(s, b);
      && st.workingClaudeModel == FirstPassing(CLAUDE_MODELS, b.claudeSmokePasses)
      && (st.claudeClient <==> exists m :: m in CLAUDE_MODELS && m in b.claudeSmokePasses)
  {
    if exists m :: m in CLAUDE_MODELS && m in b.claudeSmokePasses {
      var m :| m in CLAUDE_MODELS && m in b.claudeSmokePasses;
      var i :| 0 <= i < |CLAUDE_MODELS| && CLAUDE_MODELS[i] == m;
    }
  }

  /**
   * The Gemini loop stops at the first model whose test passes and records it;
   * with none passing the model object ends as `None`.
   */
  lemma GeminiWorkingModelIsFirstPassing(s: Settings, b: Backend)
    requires s.geminiEnabled && HasKey(s.geminiApiKey) && b.geminiSdkReady
    ensures var st := Initialised(s, b);
      && st.workingGeminiModel == FirstPassing(GEMINI_MODELS, b.geminiSmokePasses)
      && st.geminiModel == st.workingGeminiModel
      && (st.geminiModel.None? <==> forall m :: m in GEMINI_MODELS ==> m !in b.geminiSmokePasses)
  {
    if exists m :: m in GEMINI_MODELS && m in b.geminiSmokePasses {
      var m :| m in GEMINI_MODELS && m in b.geminiSmokePasses;
      var i :| 0 <= i < |GEMINI_MODELS| && GEMINI_MODELS[i] == m;
    }
  }

  /** A disabled flag or a missing key leaves that provider unconfigured. */
  lemma UnconfiguredProviderStaysEmpty(s: Settings, b: Backend)
    ensures !Configured(s, Claude) ==>
      !Initialised(s, b).claudeClient && Initialised(s, b).workingClaudeModel == None
    ensures !Configured(s, Gemini) ==>
      Initialised(s, b).geminiModel == None && Initialised(s, b).workingGeminiModel == None
  {
  }

  /**
   * The two initialisations are independent: each provider's fields depend
   * only on that provider's flag, key and SDK behaviour.
   */
  lemma ProvidersInitialiseIndependently(s1: Settings, b1: Backend, s2: Settings, b2: Backend)
    ensures (s1.claudeEnabled == s2.claudeEnabled && s1.claudeApiKey == s2.claudeApiKey
             && b1.claudeSdkReady == b2.claudeSdkReady && b1.claudeSmokePasses == b2.claudeSmokePasses)
      ==> (Initialised(s1, b1).claudeClient == Initialised(s2, b2).claudeClient
           && Initialised(s1, b1).workingClaudeModel == Initialised(s2, b2).workingClaudeModel)
    ensures (s1.geminiEnabled == s2.geminiEnabled && s1.geminiApiKey == s2.geminiApiKey
             && b1.geminiSdkReady == b2.geminiSdkReady && b1.geminiSmokePasses == b2.geminiSmokePasses)
      ==> (Initialised(s1, b1).geminiModel == Initialised(s2, b2).geminiModel
           && Initialised(s1, b1).workingGeminiModel == Initialised(s2, b2).workingGeminiModel)
  {
  }

  /** The fixed parts of the two prompt templates; their prose is kept as opaque constants. */
  const BRISBANE_PROMPT_HEAD := "You are a Brisbane property research specialist. …\n\nQuestion: \""
  const BRISBANE_PROMPT_TAIL := "\"\n\nPlease provide:\n…"
  const GEMINI_PROMPT_HEAD := "You are a Brisbane property market analyst. …\n\nQuestion: \""
  const GEMINI_PROMPT_TAIL := "\"\n\nPlease provide a detailed Brisbane property market analysis …"
  const CONTEXT_LABEL := "\n\nInitial Research Context: "
  const CONTEXT_CLOSING := "\n\nBuild upon this context to provide your comprehensive analysis."

  /** `_create_brisbane_prompt`. */
  function BrisbanePrompt(question: string): string {
    BRISBANE_PROMPT_HEAD + question + BRISBANE_PROMPT_TAIL
  }

  function GeminiBasePrompt(question: string): string {
    GEMINI_PROMPT_HEAD + question + GEMINI_PROMPT_TAIL
  }

  /** Python truthiness of the `claude_context` argument (`None` and `""` are false). */
  predicate Truthy(text: Option<string>) {
    text.Some? && text.value != ""
  }

  /**
   * `_create_gemini_prompt`: the base prompt alone when the Claude context is
   * empty; otherwise the base prompt followed by the labelled context.
   */
  function CreateGeminiPrompt(question: string, claudeContext: Option<string>): (r: string)
    ensures !Truthy(claudeContext) ==> r == GeminiBasePrompt(question)
    ensures Truthy(claudeContext) ==>
      && GeminiBasePrompt(question) <= r
      && |r| > |GeminiBasePrompt(question)|
      && Contains(r, claudeContext.value)
      && EndsWith(r, CONTEXT_CLOSING)
  {
    var base := GeminiBasePrompt(question);
    if Truthy(claudeContext) then
      var r := base + CONTEXT_LABEL + claudeContext.value + CONTEXT_CLOSING;
      ContainsMiddle(base + CONTEXT_LABEL, claudeContext.value, CONTEXT_CLOSING);
      r
    else base
  }

  /** The model a call uses: the working one, or the first candidate when none was recorded. */
  function CallModel(working: Option<string>, candidates: seq<string>): string
    requires |candidates| > 0
  {
    working.GetOr(candidates[0])
  }

  /** `analyze_with_claude`. */
  function AnalyzeWithClaude(st: ServiceState, question: string, transport: Transport): (r: LlmResult)
    ensures !st.claudeClient ==> r == ErrorResponse("Claude client not available")
    ensures r.Success() ==>
      && st.claudeClient
      && r.provider == Claude
      && r.modelUsed == CallModel(st.workingClaudeModel, CLAUDE_MODELS)
      && transport(Claude, r.modelUsed, BrisbanePrompt(question)) == Replied(r.analysis, r.processingTime)
    ensures st.claudeClient && transport(Claude, CallModel(st.workingClaudeModel, CLAUDE_MODELS), BrisbanePrompt(question)).Replied? ==>
      var reply := transport(Claude, CallModel(st.workingClaudeModel, CLAUDE_MODELS), BrisbanePrompt(question));
      r == Analysis(reply.text, CallModel(st.workingClaudeModel, CLAUDE_MODELS), reply.elapsed, Claude)
    ensures st.claudeClient && transport(Claude, CallModel(st.workingClaudeModel, CLAUDE_MODELS), BrisbanePrompt(question)).CallFailed? ==>
      r == ErrorResponse("Claude analysis failed: " + transport(Claude, CallModel(st.workingClaudeModel, CLAUDE_MODELS), BrisbanePrompt(question)).message)
  {
    if !st.claudeClient then ErrorResponse("Claude client not available")
    else
      var model := CallModel(st.workingClaudeModel, CLAUDE_MODELS);
      match transport(Claude, model, BrisbanePrompt(question))
      case Replied(text, elapsed) => Analysis(text, model, elapsed, Claude)
      case CallFailed(message) => ErrorResponse("Claude analysis failed: " + message)
  }

  /** `analyze_with_gemini`. */
  function AnalyzeWithGemini(st: ServiceState, question: string, claudeContext: Option<string>, transport: Transport): (r: LlmResult)
    ensures st.geminiModel.None? ==> r == ErrorResponse("Gemini model not available")
    ensures r.Success() ==>
      && st.geminiModel.Some?
      && r.provider == Gemini
      && r.modelUsed == CallModel(st.workingGeminiModel, GEMINI_MODELS)
      && transport(Gemini, r.modelUsed, CreateGeminiPrompt(question, claudeContext)) == Replied(r.analysis, r.processingTime)
    ensures st.geminiModel.Some? && transport(Gemini, CallModel(st.workingGeminiModel, GEMINI_MODELS), CreateGeminiPrompt(question, claudeContext)).Replied? ==>
      var reply := transport(Gemini, CallModel(st.workingGeminiModel, GEMINI_MODELS), CreateGeminiPrompt(question, claudeContext));
      r == Analysis(reply.text, CallModel(st.workingGeminiModel, GEMINI_MODELS), reply.elapsed, Gemini)
    ensures st.geminiModel.Some? && transport(Gemini, CallModel(st.workingGeminiModel, GEMINI_MODELS), CreateGeminiPrompt(question, claudeContext)).CallFailed? ==>
      r == ErrorResponse("Gemini analysis failed: " + transport(Gemini, CallModel(st.workingGeminiModel, GEMINI_MODELS), CreateGeminiPrompt(question, claudeContext)).message)
  {
    if st.geminiModel.None? then ErrorResponse("Gemini model not available")
    else
      var model := CallModel(st.workingGeminiModel, GEMINI_MODELS);
      match transport(Gemini, model, CreateGeminiPrompt(question, claudeContext))
      case Replied(text, elapsed) => Analysis(text, model, elapsed, Gemini)
      case CallFailed(message) => ErrorResponse("Gemini analysis failed: " + message)
  }

  /**
   * A call to an unavailable provider makes no request: its result is the
   * same whatever the transport would have done.
   */
  lemma UnavailableProviderMakesNoRequest(st: ServiceState, question: string, claudeContext: Option<string>, t1: Transport, t2: Transport)
    ensures !st.claudeClient ==> AnalyzeWithClaude(st, question, t1) == AnalyzeWithClaude(st, question, t2)
    ensures st.geminiModel.None? ==>
      AnalyzeWithGemini(st, question, claudeContext, t1) == AnalyzeWithGemini(st, question, claudeContext, t2)
  {
  }

  /**
   * After initialisation a successful call reports the frozen working model,
   * never the first-candidate default.
   */
  lemma InitialisedCallsUseWorkingModel(s: Settings, b: Backend, question: string, claudeContext: Option<string>, t: Transport)
    ensures var st := Initialised(s, b);
      && (AnalyzeWithClaude(st, question, t).Success() ==>
            Some(AnalyzeWithClaude(st, question, t).modelUsed) == st.workingClaudeModel)
      && (AnalyzeWithGemini(st, question, claudeContext, t).Success() ==>
            Some(AnalyzeWithGemini(st, question, claudeContext, t).modelUsed) == st.workingGeminiModel)
  {
  }

  /** The Claude analysis reaches the Gemini request whenever it is non-empty. */
  lemma ClaudeAnalysisReachesGemini(st: ServiceState, question: string, t: Transport)
    requires AnalyzeWithClaude(st, question, t).Success()
    requires AnalyzeWithClaude(st, question, t).analysis != ""
    ensures Contains(CreateGeminiPrompt(question, AnalyzeWithClaude(st, question, t).AnalysisText()),
                     AnalyzeWithClaude(st, question, t).analysis)
  {
  }

  datatype ProviderHealth = ProviderHealth(available: bool, enabled: bool, workingModel: Option<string>, apiKeyConfigured: bool)
  datatype HealthStatus = HealthStatus(claude: ProviderHealth, gemini: ProviderHealth)

  /** `get_health_status`: a read-only snapshot of the fields and the settings. */
  function GetHealthStatus(st: ServiceState): (h: HealthStatus)
    ensures h.claude.available == st.claudeClient && h.gemini.available == st.geminiModel.Some?
    ensures h.claude.workingModel == st.workingClaudeModel && h.gemini.workingModel == st.workingGeminiModel
    ensures h.claude.enabled == st.settings.claudeEnabled && h.gemini.enabled == st.settings.geminiEnabled
    ensures h.claude.apiKeyConfigured == HasKey(st.settings.claudeApiKey)
    ensures h.gemini.apiKeyConfigured == HasKey(st.settings.geminiApiKey)
  {
    HealthStatus(
      ProviderHealth(st.claudeClient, st.settings.claudeEnabled, st.workingClaudeModel, HasKey(st.settings.claudeApiKey)),
      ProviderHealth(st.geminiModel.Some?, st.settings.geminiEnabled, st.workingGeminiModel, HasKey(st.settings.geminiApiKey)))
  }

  /** `get_available_providers`: agrees with the `available` flags of the health snapshot. */
  function GetAvailableProviders(st: ServiceState): (r: seq<Provider>)
    ensures Claude in r <==> GetHealthStatus(st).claude.available
    ensures Gemini in r <==> GetHealthStatus(st).gemini.available
    ensures InProviderOrder(r)
  {
    (if st.claudeClient then [Claude] else []) + (if st.geminiModel.Some? then [Gemini] else [])
  }

  /** After initialisation only configured providers can be available. */
  lemma AvailableProvidersAreEnabled(s: Settings, b: Backend)
    ensures forall p :: p in GetAvailableProviders(Initialised(s, b)) ==> p in EnabledLlmProviders(s)
  {
  }

  /**
   * The gateway as the property-analysis service calls it: Claude with the
   * question and a `context=` keyword, Gemini with the question, Claude's
   * `analysis` entry and a `context=` keyword. A call returns a result record
   * or raises.
   */
  datatype Reply = Returned(result: LlmResult) | Raised(message: string)

  datatype Gateway = Gateway(
    claude: (string, string) -> Reply,
    gemini: (string, Option<string>, string) -> Reply)

  const CLAUDE_KEYWORD_ERROR := "LLMService.analyze_with_claude() got an unexpected keyword argument 'context'"
  const GEMINI_KEYWORD_ERROR := "LLMService.analyze_with_gemini() got an unexpected keyword argument 'context'"

  /**
   * The calls as written: neither analysis method accepts a `context`
   * keyword, so each call raises `TypeError` before the method body runs.
   */
  function AsWrittenGateway(): Gateway {
    Gateway((q: string, ctx: string) => Raised(CLAUDE_KEYWORD_ERROR),
            (q: string, cc: Option<string>, ctx: string) => Raised(GEMINI_KEYWORD_ERROR))
  }

  /**
   * The calls with the `context` keyword accepted and discarded: each reaches
   * the analysis method, which never raises.
   */
  function ContextDroppingGateway(st: ServiceState, transport: Transport): Gateway {
    Gateway((q: string, ctx: string) => Returned(AnalyzeWithClaude(st, q, transport)),
            (q: string, cc: Option<string>, ctx: string) => Returned(AnalyzeWithGemini(st, q, cc, transport)))
  }
}
