/**
 * The configuration class of the service: the fixed model and preset lists,
 * the enabled-flag parsing, the four-condition validator and the list of
 * enabled providers. The environment is an explicit parameter rather than
 * being read when the class is defined.
 */
module Config {
  import opened Wrappers
  import opened Text

  datatype Provider = Claude | Gemini

  /** The tag the services use for a provider (`'claude'`, `'gemini'`). */
  function ProviderName(p: Provider): string {
    match p
    case Claude => "claude"
    case Gemini => "gemini"
  }

  /** Claude before Gemini: the order every provider list of the service follows. */
  function ProviderRank(p: Provider): nat {
    match p
    case Claude => 0
    case Gemini => 1
  }

  /** A provider list in the fixed order, each provider at most once. */
  predicate InProviderOrder(ps: seq<Provider>) {
    forall i, j :: 0 <= i < j < |ps| ==> ProviderRank(ps[i]) < ProviderRank(ps[j])
  }

  /** Claude models, in priority order. */
  const CLAUDE_MODELS: seq<string> := [
    "claude-3-5-sonnet-20241022",
    "claude-3-haiku-20240307",
    "claude-3-sonnet-20240229"
  ]

  /** Gemini models, in priority order. */
  const GEMINI_MODELS: seq<string> := [
    "gemini-1.5-flash",
    "gemini-1.5-pro",
    "gemini-pro"
  ]

  /** The preset questions offered to users. */
  const PRESET_QUESTIONS: seq<string> := [
    "What new development applications were submitted in Brisbane this month?",
    "Which Brisbane suburbs are trending in property news?",
    "Are there any major infrastructure projects affecting property values?",
    "What zoning changes have been approved recently?",
    "Which areas have the most development activity?"
  ]

  /** The fixed lists: three distinct candidates per provider and five distinct presets. */
  lemma FixedLists()
    ensures |CLAUDE_MODELS| == 3 && |GEMINI_MODELS| == 3 && |PRESET_QUESTIONS| == 5
    ensures forall i, j :: 0 <= i < j < 3 ==> CLAUDE_MODELS[i] != CLAUDE_MODELS[j] && GEMINI_MODELS[i] != GEMINI_MODELS[j]
    ensures forall i, j :: 0 <= i < j < |PRESET_QUESTIONS| ==> PRESET_QUESTIONS[i] != PRESET_QUESTIONS[j]
  {
  }

  const DEFAULT_LLM_TIMEOUT: int := 30
  const DEFAULT_LLM_MAX_RETRIES: int := 3
  const MIN_LLM_TIMEOUT: int := 5

  /**
   * The environment variables the configuration reads; `None` is an unset
   * variable. The two numeric variables are given already converted by `int(...)`.
   */
  datatype Environment = Environment(
    claudeApiKey: Option<string>,
    geminiApiKey: Option<string>,
    claudeEnabled: Option<string>,
    geminiEnabled: Option<string>,
    llmTimeout: Option<int>,
    llmMaxRetries: Option<int>)

  /** The configuration values derived from an environment. */
  datatype Settings = Settings(
    claudeApiKey: Option<string>,
    geminiApiKey: Option<string>,
    claudeEnabled: bool,
    geminiEnabled: bool,
    llmTimeout: int,
    llmMaxRetries: int)

  /** Python truthiness of an optional key: set and non-empty. */
  predicate HasKey(key: Option<string>) {
    key.Some? && key.value != ""
  }

  /** An enabled flag: the variable, defaulting to `'true'`, lower-cases to `'true'`. */
  function EnabledFlag(raw: Option<string>): bool {
    Lower(raw.GetOr("true")) == "true"
  }

  /**
   * A flag is on exactly when it is unset, or it is four characters that spell
   * "true" in any mix of cases.
   */
  lemma EnabledFlagIff(raw: Option<string>)
    ensures EnabledFlag(raw) <==>
      raw.None? || (|raw.value| == 4 && forall i :: 0 <= i < 4 ==> LowerChar(raw.value[i]) == "true"[i])
  {
    if raw.Some? && |raw.value| == 4 && forall i :: 0 <= i < 4 ==> LowerChar(raw.value[i]) == "true"[i] {
      assert Lower(raw.value) == "true";
    }
  }

  function FromEnvironment(env: Environment): (s: Settings)
    ensures s.claudeEnabled == EnabledFlag(env.claudeEnabled)
    ensures s.geminiEnabled == EnabledFlag(env.geminiEnabled)
    ensures s.llmTimeout == env.llmTimeout.GetOr(DEFAULT_LLM_TIMEOUT)
  {
    Settings(
      env.claudeApiKey,
      env.geminiApiKey,
      EnabledFlag(env.claudeEnabled),
      EnabledFlag(env.geminiEnabled),
      env.llmTimeout.GetOr(DEFAULT_LLM_TIMEOUT),
      env.llmMaxRetries.GetOr(DEFAULT_LLM_MAX_RETRIES))
  }

  /** Whether a provider is both enabled and has a key. */
  predicate Configured(s: Settings, p: Provider) {
    match p
    case Claude => s.claudeEnabled && HasKey(s.claudeApiKey)
    case Gemini => s.geminiEnabled && HasKey(s.geminiApiKey)
  }

  datatype Issue = ClaudeKeyMissing | GeminiKeyMissing | NoProviderEnabled | TimeoutTooLow

  function IssueRank(i: Issue): nat {
    match i
    case ClaudeKeyMissing => 0
    case GeminiKeyMissing => 1
    case NoProviderEnabled => 2
    case TimeoutTooLow => 3
  }

  function IssueMessage(i: Issue): string {
    match i
    case ClaudeKeyMissing => "CLAUDE_API_KEY missing but Claude is enabled"
    case GeminiKeyMissing => "GEMINI_API_KEY missing but Gemini is enabled"
    case NoProviderEnabled => "No LLM providers enabled"
    case TimeoutTooLow => "LLM_TIMEOUT too low (minimum 5 seconds)"
  }

  /** The issues `validate_config` collects, in the order it appends them. */
  function Issues(s: Settings): (r: seq<Issue>)
    ensures ClaudeKeyMissing in r <==> !HasKey(s.claudeApiKey) && s.claudeEnabled
    ensures GeminiKeyMissing in r <==> !HasKey(s.geminiApiKey) && s.geminiEnabled
    ensures NoProviderEnabled in r <==> !s.claudeEnabled && !s.geminiEnabled
    ensures TimeoutTooLow in r <==> s.llmTimeout < MIN_LLM_TIMEOUT
    ensures forall i, j :: 0 <= i < j < |r| ==> IssueRank(r[i]) < IssueRank(r[j])
  {
    (if !HasKey(s.claudeApiKey) && s.claudeEnabled then [ClaudeKeyMissing] else [])
    + (if !HasKey(s.geminiApiKey) && s.geminiEnabled then [GeminiKeyMissing] else [])
    + (if !s.claudeEnabled && !s.geminiEnabled then [NoProviderEnabled] else [])
    + (if s.llmTimeout < MIN_LLM_TIMEOUT then [TimeoutTooLow] else [])
  }

  /** `validate_config`: true when no issue was collected. */
  function ValidateConfig(s: Settings): (ok: bool)
    ensures ok <==>
      && (s.claudeEnabled ==> HasKey(s.claudeApiKey))
      && (s.geminiEnabled ==> HasKey(s.geminiApiKey))
      && (s.claudeEnabled || s.geminiEnabled)
      && s.llmTimeout >= MIN_LLM_TIMEOUT
  {
    var issues := Issues(s);
    if |issues| > 0 then assert issues[0] in issues; false else true
  }

  /** `get_enabled_llm_providers`. */
  function EnabledLlmProviders(s: Settings): (r: seq<Provider>)
    ensures forall p :: p in r <==> Configured(s, p)
    ensures InProviderOrder(r)
  {
    (if s.claudeEnabled && HasKey(s.claudeApiKey) then [Claude] else [])
    + (if s.geminiEnabled && HasKey(s.geminiApiKey) then [Gemini] else [])
  }

  /**
   * A valid configuration has at least one usable provider, and the usable
   * ones are exactly the enabled ones.
   */
  lemma ValidConfigHasProviders(s: Settings)
    requires ValidateConfig(s)
    ensures EnabledLlmProviders(s) != []
    ensures forall p :: p in EnabledLlmProviders(s) <==>
      (match p case Claude => s.claudeEnabled case Gemini => s.geminiEnabled)
  {
    if s.claudeEnabled {
      assert Claude in EnabledLlmProviders(s);
    } else {
      assert Gemini in EnabledLlmProviders(s);
    }
  }
}
