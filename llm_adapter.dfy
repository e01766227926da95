/**
 * The LLM adapter (tools/llm_adapter.py): which provider the adapter talks to,
 * which model name it asks for, what `generate_response` returns when the
 * provider is the mock or its call raises, the `fallback_reason` that
 * `detect_environment` reports, and `check_availability`.
 *
 * The process environment and the outcome of importing the two client
 * libraries are the `Environment` value; the provider's network call is an
 * oracle from the request to `Some(answer)` or `None` when it raises.
 */
module Llm {
  import opened Wrappers
  import opened Strings

  /** What the adapter reads from the environment and the import system. */
  datatype Environment = Environment(
    providerOverride: Option<string>, // CHAOSGEN_LLM_PROVIDER
    openaiKey: Option<string>,        // OPENAI_API_KEY
    googleKey: Option<string>,        // GOOGLE_API_KEY
    mockMode: Option<string>,         // CHAOSGEN_MOCK_MODE
    llmModel: Option<string>,         // CHAOSGEN_LLM_MODEL
    openaiLibrary: bool,              // `from openai import OpenAI` succeeds
    geminiLibrary: bool)              // `import google.generativeai` succeeds
  {
    /** `bool(os.getenv("OPENAI_API_KEY"))`: set and not empty. */
    predicate HasOpenAIKey() {
      openaiKey.Some? && openaiKey.value != ""
    }

    /** `bool(os.getenv("GOOGLE_API_KEY"))`. */
    predicate HasGoogleKey() {
      googleKey.Some? && googleKey.value != ""
    }

    /** `os.getenv("CHAOSGEN_MOCK_MODE", "false").lower() == "true"`. */
    predicate MockModeSet() {
      Lower(mockMode.GetOr("false")) == "true"
    }
  }

  datatype Provider = Gemini | OpenAI | Mock
  {
    /** The provider's name as the adapter stores it in `self.provider`. */
    function Name(): string {
      match this
      case Gemini => "gemini"
      case OpenAI => "openai"
      case Mock => "mock"
    }
  }

  // ---------------------------------------------------------------------------
  // _detect_provider

  /** The override, lower-cased; an unset variable reads as "". */
  function Forced(env: Environment): string {
    Lower(env.providerOverride.GetOr(""))
  }

  /**
   * `_detect_provider`: a forced provider is used exactly when its key is set
   * and its library imports, and is otherwise replaced by the mock; without a
   * recognised override the Google key is looked at first.
   */
  function DetectProvider(env: Environment): (p: Provider)
    ensures p == Gemini ==> env.HasGoogleKey() && env.geminiLibrary
    ensures p == OpenAI ==> env.HasOpenAIKey() && env.openaiLibrary
  {
    if Forced(env) == "gemini" then
      if env.HasGoogleKey() && env.geminiLibrary then Gemini else Mock
    else if Forced(env) == "openai" then
      if env.HasOpenAIKey() && env.openaiLibrary then OpenAI else Mock
    else if env.HasGoogleKey() then
      if env.geminiLibrary then Gemini else Mock
    else if env.HasOpenAIKey() then
      if env.openaiLibrary then OpenAI else Mock
    else
      Mock
  }

  /** Forcing Gemini gives Gemini exactly when it can work, and never OpenAI. */
  lemma ForcedGemini(env: Environment)
    requires Forced(env) == "gemini"
    ensures DetectProvider(env) == Gemini <==> env.HasGoogleKey() && env.geminiLibrary
    ensures DetectProvider(env) != OpenAI
  {
  }

  /** Forcing OpenAI gives OpenAI exactly when it can work, and never Gemini. */
  lemma ForcedOpenAI(env: Environment)
    requires Forced(env) == "openai"
    ensures DetectProvider(env) == OpenAI <==> env.HasOpenAIKey() && env.openaiLibrary
    ensures DetectProvider(env) != Gemini
  {
  }

  /**
   * Auto-detection: a Google key takes precedence (without its library the
   * result is the mock even when an OpenAI key is set); otherwise an OpenAI
   * key gives OpenAI when its library imports; no key gives the mock.
   */
  lemma AutoDetected(env: Environment)
    requires Forced(env) != "gemini" && Forced(env) != "openai"
    ensures env.HasGoogleKey() ==> (DetectProvider(env) == Gemini <==> env.geminiLibrary)
    ensures env.HasGoogleKey() ==> DetectProvider(env) != OpenAI
    ensures !env.HasGoogleKey() && env.HasOpenAIKey() ==>
              (DetectProvider(env) == OpenAI <==> env.openaiLibrary)
    ensures !env.HasGoogleKey() ==> DetectProvider(env) != Gemini
    ensures !env.HasGoogleKey() && !env.HasOpenAIKey() ==> DetectProvider(env) == Mock
  {
  }

  /** The override is compared without regard to ASCII case. */
  lemma OverrideCaseInsensitive(env: Environment, o: string)
    requires env.providerOverride.Some? && Lower(o) == Lower(env.providerOverride.value)
    ensures DetectProvider(env.(providerOverride := Some(o))) == DetectProvider(env)
  {
  }

  /** CHAOSGEN_MOCK_MODE plays no part in choosing the provider. */
  lemma MockModeIgnored(env: Environment, m: Option<string>)
    ensures DetectProvider(env.(mockMode := m)) == DetectProvider(env)
  {
  }

  // ---------------------------------------------------------------------------
  // _get_model and the constructor

  /** `_get_model`: CHAOSGEN_LLM_MODEL or the provider's default; the mock's fixed name. */
  function GetModel(p: Provider, env: Environment): (m: string)
    ensures p == Mock ==> m == "mock-model"
    ensures p != Mock && env.llmModel.Some? ==> m == env.llmModel.value
    ensures p == OpenAI && env.llmModel.None? ==> m == "gpt-3.5-turbo"
    ensures p == Gemini && env.llmModel.None? ==> m == "gemini-1.5-flash"
  {
    match p
    case OpenAI => env.llmModel.GetOr("gpt-3.5-turbo")
    case Gemini => env.llmModel.GetOr("gemini-1.5-flash")
    case Mock => "mock-model"
  }

  /** The adapter after construction: `provider` and `model` are fixed once. */
  datatype Adapter = Adapter(provider: Provider, model: string)

  /** `LLMAdapter()`: detects the provider, then derives the model name from it. */
  function NewAdapter(env: Environment): (a: Adapter)
    ensures a.provider == DetectProvider(env)
    ensures a.model == GetModel(DetectProvider(env), env)
  {
    var p := DetectProvider(env);
    Adapter(p, GetModel(p, env))
  }

  // ---------------------------------------------------------------------------
  // generate_response

  datatype Message = Message(role: string, content: string)

  /** The call a real provider receives. */
  datatype Request =
    | ChatCompletion(model: string, messages: seq<Message>, temperature: real, maxTokens: nat)
    | GenerateContent(model: string, prompt: string, temperature: real, maxOutputTokens: nat)

  /** A `system_prompt` argument that Python treats as true. */
  predicate HasSystemPrompt(system: Option<string>) {
    system.Some? && system.value != ""
  }

  /**
   * `_call_openai` sends the system prompt (when given) and the user prompt as
   * chat messages; `_call_gemini` sends one text, the system prompt and the user
   * prompt separated by a blank line.
   */
  function BuildRequest(a: Adapter, prompt: string, system: Option<string>,
                        temperature: real, maxTokens: nat): (q: Request)
    requires a.provider != Mock
  {
    if a.provider == OpenAI then
      ChatCompletion(a.model,
        (if HasSystemPrompt(system) then [Message("system", system.value)] else [])
          + [Message("user", prompt)],
        temperature, maxTokens)
    else
      GenerateContent(a.model,
        if HasSystemPrompt(system) then system.value + "\n\n" + prompt else prompt,
        temperature, maxTokens)
  }

  /**
   * Both requests carry the adapter's model, the temperature and the token
   * limit, the user prompt last, and the system prompt only when given.
   */
  lemma RequestShape(a: Adapter, prompt: string, system: Option<string>, temperature: real, maxTokens: nat)
    requires a.provider != Mock
    ensures var q := BuildRequest(a, prompt, system, temperature, maxTokens);
      q.model == a.model && q.temperature == temperature &&
      (a.provider == OpenAI <==> q.ChatCompletion?) &&
      (q.ChatCompletion? ==> q.maxTokens == maxTokens) &&
      (q.GenerateContent? ==> q.maxOutputTokens == maxTokens) &&
      (q.ChatCompletion? ==>
         q.messages[|q.messages| - 1] == Message("user", prompt) &&
         (|q.messages| == 2 <==> HasSystemPrompt(system)) &&
         (HasSystemPrompt(system) ==> q.messages[0] == Message("system", system.value))) &&
      (q.GenerateContent? ==>
         EndsWith(q.prompt, prompt) &&
         (q.prompt == prompt <==> !HasSystemPrompt(system)))
  {
    var q := BuildRequest(a, prompt, system, temperature, maxTokens);
    if q.GenerateContent? && HasSystemPrompt(system) {
      assert q.prompt == system.value + "\n\n" + prompt;
      assert |q.prompt| > |prompt|;
    }
  }

  /** One ChaosEngine document of the mock answer, line by line. */
  function MockEngine(name: string, app: string, experiment: string,
                      env: seq<(string, string)>): seq<string>
  {
    ["apiVersion: litmuschaos.io/v1alpha1", "kind: ChaosEngine", "metadata:",
     "  name: " + name, "  namespace: demo", "spec:", "  appinfo:", "    appns: demo",
     "    applabel: \"app=" + app + "\"", "    appkind: deployment",
     "  chaosServiceAccount: litmus-admin", "  experiments:", "  - name: " + experiment,
     "    spec:", "      components:", "        env:"]
    + EnvLines(env)
  }

  function EnvLines(env: seq<(string, string)>): seq<string>
  {
    if |env| == 0 then []
    else ["        - name: " + env[0].0, "          value: \"" + env[0].1 + "\""] + EnvLines(env[1..])
  }

  /** `_generate_mock_response`: three ChaosEngine documents separated by `---`. */
  function MockResponse(): string
  {
    Join(MockEngine("frontend-pod-delete", "frontend", "pod-delete",
           [("TOTAL_CHAOS_DURATION", "30"), ("CHAOS_INTERVAL", "10"), ("FORCE", "false")])
         + ["---"]
         + MockEngine("api-cpu-stress", "api", "pod-cpu-hog",
             [("TOTAL_CHAOS_DURATION", "60"), ("CPU_CORES", "1")])
         + ["---"]
         + MockEngine("database-memory-stress", "database", "pod-memory-hog",
             [("TOTAL_CHAOS_DURATION", "45"), ("MEMORY_CONSUMPTION", "200")]),
         "\n") + "\n"
  }

  /** The mock answer is never blank. */
  lemma MockResponseNotBlank()
    ensures Strip(MockResponse()) != ""
  {
    var lines := MockEngine("frontend-pod-delete", "frontend", "pod-delete",
           [("TOTAL_CHAOS_DURATION", "30"), ("CHAOS_INTERVAL", "10"), ("FORCE", "false")]);
    assert lines[0] == "apiVersion: litmuschaos.io/v1alpha1";
    assert MockResponse()[0] == 'a';
    BlankIffAllSpace(MockResponse());
  }

  /**
   * `generate_response`: the mock answers without a call; a real provider's
   * answer is stripped, and a call that raises falls back to the mock answer.
   */
  function GenerateResponse(a: Adapter, prompt: string, system: Option<string>,
                            temperature: real, maxTokens: nat,
                            call: Request -> Option<string>): string
  {
    if a.provider == Mock then MockResponse()
    else match call(BuildRequest(a, prompt, system, temperature, maxTokens))
      case None => MockResponse()
      case Some(answer) => Strip(answer)
  }

  /**
   * `generate_response` never raises and never leaks the prompt into the
   * fallback: its result is the mock answer (for the mock, or when the call
   * raised, whatever the prompt) or the provider's answer with the
   * surrounding whitespace removed.
   */
  lemma GenerateResponseOutcome(a: Adapter, prompt: string, system: Option<string>,
                                temperature: real, maxTokens: nat,
                                call: Request -> Option<string>)
    ensures var r := GenerateResponse(a, prompt, system, temperature, maxTokens, call);
      (a.provider == Mock ==> r == MockResponse()) &&
      (a.provider != Mock && call(BuildRequest(a, prompt, system, temperature, maxTokens)).None? ==>
         r == MockResponse()) &&
      (a.provider != Mock && call(BuildRequest(a, prompt, system, temperature, maxTokens)).Some? ==>
         Strip(r) == r &&
         r == Strip(call(BuildRequest(a, prompt, system, temperature, maxTokens)).value))
  {
    var r := GenerateResponse(a, prompt, system, temperature, maxTokens, call);
    if a.provider != Mock {
      var outcome := call(BuildRequest(a, prompt, system, temperature, maxTokens));
      if outcome.Some? {
        StripIdempotent(outcome.value);
      }
    }
  }

  // ---------------------------------------------------------------------------
  // check_availability

  datatype Availability = Availability(
    provider: string, model: string, available: bool,
    error: Option<string>, message: Option<string>)

  /**
   * `check_availability`: the mock is available without a call; another
   * provider is sent "Hello" with a budget of 10 tokens and is available when
   * the answer is not blank. `generate_response` does not raise, so the
   * `except` branch is never taken.
   */
  function CheckAvailability(a: Adapter, call: Request -> Option<string>): (r: Availability)
    ensures r.provider == a.provider.Name() && r.model == a.model
    ensures r.available <==> r.error.None?
  {
    if a.provider == Mock then
      Availability("mock", a.model, true, None, Some("Mock mode - no API calls needed"))
    else
      var test := GenerateResponse(a, "Hello", None, 0.3, 10, call);
      if Strip(test) != "" then
        Availability(a.provider.Name(), a.model, true, None,
                     Some(a.provider.Name() + " is working correctly"))
      else
        Availability(a.provider.Name(), a.model, false, Some("Empty response received"), None)
  }

  /**
   * The mock is always available; another provider exactly when its answer to
   * "Hello" is not blank. A provider whose call raises is reported available,
   * because `generate_response` answers with the mock text instead.
   */
  lemma AvailabilityDecision(a: Adapter, call: Request -> Option<string>)
    ensures a.provider == Mock ==> CheckAvailability(a, call).available
    ensures a.provider != Mock ==>
      (CheckAvailability(a, call).available <==>
         Strip(GenerateResponse(a, "Hello", None, 0.3, 10, call)) != "")
    ensures a.provider != Mock && call(BuildRequest(a, "Hello", None, 0.3, 10)).None? ==>
      CheckAvailability(a, call).available
  {
    if a.provider != Mock && call(BuildRequest(a, "Hello", None, 0.3, 10)).None? {
      MockResponseNotBlank();
    }
  }

  // ---------------------------------------------------------------------------
  // detect_environment: fallback_reason

  /** `fallback_reason` as `detect_environment` decides it. */
  function FallbackReason(env: Environment): (r: Option<string>)
    ensures env.MockModeSet() ==> r == Some("Mock mode explicitly enabled")
  {
    if env.MockModeSet() then Some("Mock mode explicitly enabled")
    else if env.providerOverride.Some? && env.providerOverride.value != "" then
      if env.providerOverride.value == "gemini" then
        ForcedGeminiReason(env)
      else if env.providerOverride.value == "openai" then
        ForcedOpenAIReason(env)
      else
        None
    else if !env.HasOpenAIKey() && !env.HasGoogleKey() then Some("No API keys found")
    else if env.HasGoogleKey() && !env.geminiLibrary then
      Some("Google API key found but google-generativeai library not installed")
    else if env.HasOpenAIKey() && !env.openaiLibrary then
      Some("OpenAI API key found but openai library not installed")
    else
      None
  }

  function ForcedGeminiReason(env: Environment): Option<string> {
    if !env.HasGoogleKey() then Some("Gemini forced but GOOGLE_API_KEY not set")
    else if !env.geminiLibrary then Some("Gemini forced but google-generativeai library not installed")
    else None
  }

  function ForcedOpenAIReason(env: Environment): Option<string> {
    if !env.HasOpenAIKey() then Some("OpenAI forced but OPENAI_API_KEY not set")
    else if !env.openaiLibrary then Some("OpenAI forced but openai library not installed")
    else None
  }

  /**
   * Without an override the keys and libraries count, in this order: no key
   * at all, then a Google key without its library, then an OpenAI key without
   * its library.
   */
  lemma FallbackReasonKeyOrder(env: Environment)
    ensures !env.MockModeSet() && env.providerOverride.GetOr("") == ""
            && !env.HasOpenAIKey() && !env.HasGoogleKey()
            ==> FallbackReason(env) == Some("No API keys found")
    ensures !env.MockModeSet() && env.providerOverride.GetOr("") == ""
            && env.HasGoogleKey() && !env.geminiLibrary
            ==> FallbackReason(env) == Some("Google API key found but google-generativeai library not installed")
    ensures !env.MockModeSet() && env.providerOverride.GetOr("") == ""
            && !(env.HasGoogleKey() && !env.geminiLibrary) && env.HasOpenAIKey() && !env.openaiLibrary
            ==> FallbackReason(env) == Some("OpenAI API key found but openai library not installed")
    ensures !env.MockModeSet() && env.providerOverride.GetOr("") == ""
            && (env.HasOpenAIKey() || env.HasGoogleKey())
            && (env.HasGoogleKey() ==> env.geminiLibrary) && (env.HasOpenAIKey() ==> env.openaiLibrary)
            ==> FallbackReason(env).None?
  {
  }

  /**
   * The order of the checks: the mock flag first; a set override decides alone
   * (an unrecognised one, compared with its case kept, gives no reason).
   */
  lemma FallbackReasonPriority(env: Environment)
    ensures !env.MockModeSet() && env.providerOverride.Some? && env.providerOverride.value != ""
            && env.providerOverride.value != "gemini" && env.providerOverride.value != "openai"
            ==> FallbackReason(env).None?
    ensures !env.MockModeSet() && env.providerOverride.Some? && env.providerOverride.value == "gemini"
            ==> (FallbackReason(env).None? <==> DetectProvider(env) == Gemini)
    ensures !env.MockModeSet() && env.providerOverride.Some? && env.providerOverride.value == "openai"
            ==> (FallbackReason(env).None? <==> DetectProvider(env) == OpenAI)
  {
    if env.providerOverride.Some? && env.providerOverride.value == "gemini" {
      assert Forced(env) == "gemini";
    }
    if env.providerOverride.Some? && env.providerOverride.value == "openai" {
      assert Forced(env) == "openai";
    }
  }

  /**
   * The reason as written disagrees with the provider actually chosen: with a
   * working Gemini setup next to an OpenAI key whose library is missing it
   * blames OpenAI although Gemini is used, and with an override the detector
   * does not recognise and no keys it gives no reason although the mock is used.
   */
  lemma FallbackReasonDisagrees()
    ensures var env := Environment(None, Some("k1"), Some("k2"), None, None, false, true);
      DetectProvider(env) == Gemini &&
      FallbackReason(env) == Some("OpenAI API key found but openai library not installed")
    ensures var env := Environment(Some("anthropic"), None, None, None, None, true, true);
      DetectProvider(env) == Mock && FallbackReason(env).None?
  {
    var e1 := Environment(None, Some("k1"), Some("k2"), None, None, false, true);
    assert Lower("false") == "false";
    assert Forced(e1) == "";
    var e2 := Environment(Some("anthropic"), None, None, None, None, true, true);
    assert Lower("anthropic") == "anthropic";
  }

  /**
   * The reason mirroring `_detect_provider`: the override lower-cased, an
   * unrecognised override falling through to auto-detection, and only the key
   * auto-detection actually uses blamed.
   */
  function DetectedFallbackReason(env: Environment): (r: Option<string>)
    ensures env.MockModeSet() ==> r == Some("Mock mode explicitly enabled")
  {
    if env.MockModeSet() then Some("Mock mode explicitly enabled")
    else if Forced(env) == "gemini" then ForcedGeminiReason(env)
    else if Forced(env) == "openai" then ForcedOpenAIReason(env)
    else if !env.HasOpenAIKey() && !env.HasGoogleKey() then Some("No API keys found")
    else if env.HasGoogleKey() then
      if !env.geminiLibrary then
        Some("Google API key found but google-generativeai library not installed")
      else None
    else if !env.openaiLibrary then
      Some("OpenAI API key found but openai library not installed")
    else None
  }

  /** Without the mock flag, a reason is given exactly when the mock is in use. */
  lemma DetectedFallbackReasonExplainsMock(env: Environment)
    requires !env.MockModeSet()
    ensures DetectedFallbackReason(env).None? <==> DetectProvider(env) != Mock
  {
  }
}
