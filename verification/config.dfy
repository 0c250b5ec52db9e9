/** The agent's settings and `AgentConfig.from_env`: the environment is a map
    from names to strings; each setting falls back to a default string, is
    converted (`int`/`float`, host conversions here) and range-checked, and the
    first check that fails decides the error code. */
module Config {
  import opened Common

  datatype AgentConfig = AgentConfig(
    modelName: string,
    temperature: real,
    defaultTimeout: int,
    maxIterations: int,
    googleApiKey: string,
    llmMaxRetries: int,
    llmRetryDelay: real,
    llmRateLimitRequestsPerMinute: int,
    llmRequestTimeout: int,
    browserNavigationTimeout: int,
    browserActionTimeout: int,
    maxPageContentLength: int,
    maxTaskLength: int)

  /** The dataclass defaults. */
  const Defaults := AgentConfig("gemini-1.5-flash", 0.7, 120, 20, "", 3, 1.0, 60, 300, 30000, 30000, 1000000, 1000)

  /** The host's conversions: `int(s)` and `float(s)`, None where they raise
      ValueError (finite results only), and `str(f)` of a float, used in
      messages. */
  datatype Conversions = Conversions(
    parseInt: string -> Option<int>,
    parseFloat: string -> Option<real>,
    floatStr: real -> string)

  /** `os.getenv(name, default)`: a variable that is set wins, even when empty. */
  function Getenv(env: map<string, string>, name: string, default: string): (v: string)
    ensures name in env ==> v == env[name]
    ensures name !in env ==> v == default
  {
    if name in env then env[name] else default
  }

  function ConfigError(message: string, code: string): Error {
    Error(ConfigurationError, message, Some(code))
  }

  /** The rule every integer setting follows, for the text `raw` it reads:
      unparseable gives `formatCode`; a parsed value is accepted as is when it
      is in range (positive, or non-negative when `zeroAllowed`), and gives
      `code` otherwise. */
  predicate IntRule(r: Result<int, Error>, raw: string, zeroAllowed: bool, code: string, formatCode: string,
                    conv: Conversions) {
    && (r.Failure? ==> r.error.kind == ConfigurationError)
    && (conv.parseInt(raw).None? ==> r.Failure? && r.error.code == Some(formatCode))
    && (conv.parseInt(raw).Some? ==>
          var v := conv.parseInt(raw).value;
          && (r.Success? <==> (if zeroAllowed then v >= 0 else v > 0))
          && (r.Success? ==> r.value == v)
          && (r.Failure? ==> r.error.code == Some(code)))
  }

  /** An integer setting: unparseable gives `formatCode`, parseable but out of
      range (not positive, or negative when `zeroAllowed`) gives `code`. */
  function IntSetting(env: map<string, string>, name: string, default: string, zeroAllowed: bool,
                      code: string, formatCode: string, conv: Conversions): (r: Result<int, Error>)
    ensures IntRule(r, Getenv(env, name, default), zeroAllowed, code, formatCode, conv)
    ensures var raw := Getenv(env, name, default);
            conv.parseInt(raw).None? ==>
              r == Failure(ConfigError("Failed to parse " + name + " as int: " + raw, formatCode))
  {
    var raw := Getenv(env, name, default);
    match conv.parseInt(raw)
    case None => Failure(ConfigError("Failed to parse " + name + " as int: " + raw, formatCode))
    case Some(v) =>
      if zeroAllowed && v < 0 then
        Failure(ConfigError(name + " must be non-negative, got: " + IntToString(v), code))
      else if !zeroAllowed && v <= 0 then
        Failure(ConfigError(name + " must be positive, got: " + IntToString(v), code))
      else
        Success(v)
  }

  /** TEMPERATURE: a float in [0.0, 1.0]. */
  function TemperatureSetting(env: map<string, string>, conv: Conversions): (r: Result<real, Error>)
    ensures var raw := Getenv(env, "TEMPERATURE", "0.7");
            && (conv.parseFloat(raw).None? ==> r.Failure? && r.error.code == Some("INVALID_TEMPERATURE_FORMAT"))
            && (conv.parseFloat(raw).Some? ==>
                  var t := conv.parseFloat(raw).value;
                  (r.Success? <==> 0.0 <= t <= 1.0) && (r.Success? ==> r.value == t)
                  && (r.Failure? ==> r.error.code == Some("INVALID_TEMPERATURE")))
  {
    var raw := Getenv(env, "TEMPERATURE", "0.7");
    match conv.parseFloat(raw)
    case None => Failure(ConfigError("Failed to parse TEMPERATURE as float: " + raw, "INVALID_TEMPERATURE_FORMAT"))
    case Some(t) =>
      if !(0.0 <= t <= 1.0) then
        Failure(ConfigError("Temperature must be between 0.0 and 1.0, got: " + conv.floatStr(t), "INVALID_TEMPERATURE"))
      else
        Success(t)
  }

  /** LLM_RETRY_DELAY: a non-negative float. */
  function RetryDelaySetting(env: map<string, string>, conv: Conversions): (r: Result<real, Error>)
    ensures var raw := Getenv(env, "LLM_RETRY_DELAY", "1.0");
            && (conv.parseFloat(raw).None? ==> r.Failure? && r.error.code == Some("INVALID_LLM_RETRY_DELAY_FORMAT"))
            && (conv.parseFloat(raw).Some? ==>
                  var d := conv.parseFloat(raw).value;
                  (r.Success? <==> d >= 0.0) && (r.Success? ==> r.value == d)
                  && (r.Failure? ==> r.error.code == Some("INVALID_LLM_RETRY_DELAY")))
  {
    var raw := Getenv(env, "LLM_RETRY_DELAY", "1.0");
    match conv.parseFloat(raw)
    case None => Failure(ConfigError("Failed to parse LLM_RETRY_DELAY as float: " + raw, "INVALID_LLM_RETRY_DELAY_FORMAT"))
    case Some(d) =>
      if d < 0.0 then
        Failure(ConfigError("LLM_RETRY_DELAY must be non-negative, got: " + conv.floatStr(d), "INVALID_LLM_RETRY_DELAY"))
      else
        Success(d)
  }

  /** DEFAULT_TIMEOUT, default "120": a positive int. */
  function DefaultTimeout(env: map<string, string>, conv: Conversions): (r: Result<int, Error>)
  {
    IntSetting(env, "DEFAULT_TIMEOUT", "120", false, "INVALID_TIMEOUT", "INVALID_TIMEOUT_FORMAT", conv)
  }

  /** MAX_ITERATIONS, default "20": a positive int. */
  function MaxIterations(env: map<string, string>, conv: Conversions): (r: Result<int, Error>)
  {
    IntSetting(env, "MAX_ITERATIONS", "20", false, "INVALID_ITERATIONS", "INVALID_ITERATIONS_FORMAT", conv)
  }

  /** LLM_MAX_RETRIES, default "3": a non-negative int. */
  function LlmMaxRetries(env: map<string, string>, conv: Conversions): (r: Result<int, Error>)
  {
    IntSetting(env, "LLM_MAX_RETRIES", "3", true, "INVALID_LLM_MAX_RETRIES", "INVALID_LLM_MAX_RETRIES_FORMAT", conv)
  }

  /** LLM_RATE_LIMIT_REQUESTS_PER_MINUTE, default "60": a positive int. */
  function RateLimit(env: map<string, string>, conv: Conversions): (r: Result<int, Error>)
  {
    IntSetting(env, "LLM_RATE_LIMIT_REQUESTS_PER_MINUTE", "60", false, "INVALID_LLM_RATE_LIMIT", "INVALID_LLM_RATE_LIMIT_FORMAT", conv)
  }

  /** LLM_REQUEST_TIMEOUT, default "300": a positive int. */
  function RequestTimeout(env: map<string, string>, conv: Conversions): (r: Result<int, Error>)
  {
    IntSetting(env, "LLM_REQUEST_TIMEOUT", "300", false, "INVALID_LLM_REQUEST_TIMEOUT", "INVALID_LLM_REQUEST_TIMEOUT_FORMAT", conv)
  }

  /** BROWSER_NAVIGATION_TIMEOUT, default "30000": a positive int. */
  function NavigationTimeout(env: map<string, string>, conv: Conversions): (r: Result<int, Error>)
  {
    IntSetting(env, "BROWSER_NAVIGATION_TIMEOUT", "30000", false, "INVALID_BROWSER_NAVIGATION_TIMEOUT", "INVALID_BROWSER_NAVIGATION_TIMEOUT_FORMAT", conv)
  }

  /** BROWSER_ACTION_TIMEOUT, default "30000": a positive int. */
  function ActionTimeout(env: map<string, string>, conv: Conversions): (r: Result<int, Error>)
  {
    IntSetting(env, "BROWSER_ACTION_TIMEOUT", "30000", false, "INVALID_BROWSER_ACTION_TIMEOUT", "INVALID_BROWSER_ACTION_TIMEOUT_FORMAT", conv)
  }

  /** MAX_PAGE_CONTENT_LENGTH, default "1000000": a positive int. */
  function PageContentLimit(env: map<string, string>, conv: Conversions): (r: Result<int, Error>)
  {
    IntSetting(env, "MAX_PAGE_CONTENT_LENGTH", "1000000", false, "INVALID_MAX_PAGE_CONTENT_LENGTH", "INVALID_MAX_PAGE_CONTENT_LENGTH_FORMAT", conv)
  }

  /** MAX_TASK_LENGTH, default "1000": a positive int. */
  function TaskLengthLimit(env: map<string, string>, conv: Conversions): (r: Result<int, Error>)
  {
    IntSetting(env, "MAX_TASK_LENGTH", "1000", false, "INVALID_MAX_TASK_LENGTH", "INVALID_MAX_TASK_LENGTH_FORMAT", conv)
  }

  /** Each integer setting reads its own variable, with its own default,
      range and error codes. */
  lemma IntSettingRules(env: map<string, string>, conv: Conversions)
    ensures IntRule(DefaultTimeout(env, conv), Getenv(env, "DEFAULT_TIMEOUT", "120"), false, "INVALID_TIMEOUT", "INVALID_TIMEOUT_FORMAT", conv)
    ensures IntRule(MaxIterations(env, conv), Getenv(env, "MAX_ITERATIONS", "20"), false, "INVALID_ITERATIONS", "INVALID_ITERATIONS_FORMAT", conv)
    ensures IntRule(LlmMaxRetries(env, conv), Getenv(env, "LLM_MAX_RETRIES", "3"), true, "INVALID_LLM_MAX_RETRIES", "INVALID_LLM_MAX_RETRIES_FORMAT", conv)
    ensures IntRule(RateLimit(env, conv), Getenv(env, "LLM_RATE_LIMIT_REQUESTS_PER_MINUTE", "60"), false, "INVALID_LLM_RATE_LIMIT", "INVALID_LLM_RATE_LIMIT_FORMAT", conv)
    ensures IntRule(RequestTimeout(env, conv), Getenv(env, "LLM_REQUEST_TIMEOUT", "300"), false, "INVALID_LLM_REQUEST_TIMEOUT", "INVALID_LLM_REQUEST_TIMEOUT_FORMAT", conv)
    ensures IntRule(NavigationTimeout(env, conv), Getenv(env, "BROWSER_NAVIGATION_TIMEOUT", "30000"), false, "INVALID_BROWSER_NAVIGATION_TIMEOUT", "INVALID_BROWSER_NAVIGATION_TIMEOUT_FORMAT", conv)
    ensures IntRule(ActionTimeout(env, conv), Getenv(env, "BROWSER_ACTION_TIMEOUT", "30000"), false, "INVALID_BROWSER_ACTION_TIMEOUT", "INVALID_BROWSER_ACTION_TIMEOUT_FORMAT", conv)
    ensures IntRule(PageContentLimit(env, conv), Getenv(env, "MAX_PAGE_CONTENT_LENGTH", "1000000"), false, "INVALID_MAX_PAGE_CONTENT_LENGTH", "INVALID_MAX_PAGE_CONTENT_LENGTH_FORMAT", conv)
    ensures IntRule(TaskLengthLimit(env, conv), Getenv(env, "MAX_TASK_LENGTH", "1000"), false, "INVALID_MAX_TASK_LENGTH", "INVALID_MAX_TASK_LENGTH_FORMAT", conv)
  {
  }

  const MissingApiKey := ConfigError("Missing required environment variable: GOOGLE_API_KEY", "MISSING_API_KEY")

  /** Every range rule a loaded configuration satisfies. */
  predicate InRange(c: AgentConfig) {
    && c.googleApiKey != ""
    && 0.0 <= c.temperature <= 1.0
    && c.defaultTimeout > 0
    && c.maxIterations > 0
    && c.llmMaxRetries >= 0
    && c.llmRetryDelay >= 0.0
    && c.llmRateLimitRequestsPerMinute > 0
    && c.llmRequestTimeout > 0
    && c.browserNavigationTimeout > 0
    && c.browserActionTimeout > 0
    && c.maxPageContentLength > 0
    && c.maxTaskLength > 0
  }

  /** `AgentConfig.from_env`. */
  function FromEnv(env: map<string, string>, conv: Conversions): (r: Result<AgentConfig, Error>)
    ensures r.Failure? ==> r.error.kind == ConfigurationError
    ensures Getenv(env, "GOOGLE_API_KEY", "") == "" ==> r == Failure(MissingApiKey)
    ensures r.Success? ==> InRange(r.value)
    ensures r.Success? ==>
              && r.value.googleApiKey == env["GOOGLE_API_KEY"]
              && r.value.modelName == Getenv(env, "MODEL_NAME", "gemini-1.5-flash")
              && Some(r.value.temperature) == conv.parseFloat(Getenv(env, "TEMPERATURE", "0.7"))
              && Some(r.value.defaultTimeout) == conv.parseInt(Getenv(env, "DEFAULT_TIMEOUT", "120"))
              && Some(r.value.maxIterations) == conv.parseInt(Getenv(env, "MAX_ITERATIONS", "20"))
              && Some(r.value.llmMaxRetries) == conv.parseInt(Getenv(env, "LLM_MAX_RETRIES", "3"))
              && Some(r.value.llmRetryDelay) == conv.parseFloat(Getenv(env, "LLM_RETRY_DELAY", "1.0"))
              && Some(r.value.llmRateLimitRequestsPerMinute)
                   == conv.parseInt(Getenv(env, "LLM_RATE_LIMIT_REQUESTS_PER_MINUTE", "60"))
              && Some(r.value.llmRequestTimeout) == conv.parseInt(Getenv(env, "LLM_REQUEST_TIMEOUT", "300"))
              && Some(r.value.browserNavigationTimeout)
                   == conv.parseInt(Getenv(env, "BROWSER_NAVIGATION_TIMEOUT", "30000"))
              && Some(r.value.browserActionTimeout) == conv.parseInt(Getenv(env, "BROWSER_ACTION_TIMEOUT", "30000"))
              && Some(r.value.maxPageContentLength)
                   == conv.parseInt(Getenv(env, "MAX_PAGE_CONTENT_LENGTH", "1000000"))
              && Some(r.value.maxTaskLength) == conv.parseInt(Getenv(env, "MAX_TASK_LENGTH", "1000"))
  {
    var googleApiKey := Getenv(env, "GOOGLE_API_KEY", "");
    if googleApiKey == "" then
      Failure(MissingApiKey)
    else
      var modelName := Getenv(env, "MODEL_NAME", "gemini-1.5-flash");
      var temperature :- TemperatureSetting(env, conv);
      var defaultTimeout :- DefaultTimeout(env, conv);
      var maxIterations :- MaxIterations(env, conv);
      var llmMaxRetries :- LlmMaxRetries(env, conv);
      var llmRetryDelay :- RetryDelaySetting(env, conv);
      var rateLimit :- RateLimit(env, conv);
      var requestTimeout :- RequestTimeout(env, conv);
      var navigationTimeout :- NavigationTimeout(env, conv);
      var actionTimeout :- ActionTimeout(env, conv);
      var pageContentLimit :- PageContentLimit(env, conv);
      var taskLengthLimit :- TaskLengthLimit(env, conv);
      Success(AgentConfig(modelName, temperature, defaultTimeout, maxIterations, googleApiKey,
                          llmMaxRetries, llmRetryDelay, rateLimit, requestTimeout, navigationTimeout,
                          actionTimeout, pageContentLimit, taskLengthLimit))
  }

  // ---------------------------------------------------------------------------
  // The order of the checks
  // ---------------------------------------------------------------------------

  function FailureOf<T>(r: Result<T, Error>): Option<Error> {
    if r.Failure? then Some(r.error) else None
  }

  /** Each check of `from_env` on its own, in source order. */
  function Checks(env: map<string, string>, conv: Conversions): (cs: seq<Option<Error>>)
    ensures |cs| == 12
  {
    [ if Getenv(env, "GOOGLE_API_KEY", "") == "" then Some(MissingApiKey) else None,
      FailureOf(TemperatureSetting(env, conv)),
      FailureOf(DefaultTimeout(env, conv)),
      FailureOf(MaxIterations(env, conv)),
      FailureOf(LlmMaxRetries(env, conv)),
      FailureOf(RetryDelaySetting(env, conv)),
      FailureOf(RateLimit(env, conv)),
      FailureOf(RequestTimeout(env, conv)),
      FailureOf(NavigationTimeout(env, conv)),
      FailureOf(ActionTimeout(env, conv)),
      FailureOf(PageContentLimit(env, conv)),
      FailureOf(TaskLengthLimit(env, conv)) ]
  }

  /** The error of the first failing check, if any. */
  function FirstFailure(cs: seq<Option<Error>>): Option<Error> {
    if cs == [] then None
    else if cs[0].Some? then cs[0]
    else FirstFailure(cs[1..])
  }

  /** The scan finds nothing exactly when every check passes, and otherwise
      the error of a failing check that only passing checks precede. */
  lemma {:induction false} FirstFailureIsFirst(cs: seq<Option<Error>>)
    ensures FirstFailure(cs).None? <==> forall k :: 0 <= k < |cs| ==> cs[k].None?
    ensures FirstFailure(cs).Some? ==>
              exists k :: 0 <= k < |cs| && cs[k] == FirstFailure(cs) && forall m :: 0 <= m < k ==> cs[m].None?
  {
    if cs != [] && cs[0].None? {
      FirstFailureIsFirst(cs[1..]);
      assert forall k :: 1 <= k < |cs| ==> cs[k] == cs[1..][k - 1];
      if FirstFailure(cs[1..]).Some? {
        var k :| 0 <= k < |cs[1..]| && cs[1..][k] == FirstFailure(cs[1..])
                 && forall m :: 0 <= m < k ==> cs[1..][m].None?;
        assert cs[k + 1] == FirstFailure(cs);
      }
    } else if cs != [] {
      assert cs[0] == FirstFailure(cs);
    }
  }

  /** The checks run in source order and stop at the first that fails:
      `from_env` fails exactly when some check fails, with the error of the
      first one. */
  lemma FromEnvReportsFirstFailure(env: map<string, string>, conv: Conversions)
    ensures FailureOf(FromEnv(env, conv)) == FirstFailure(Checks(env, conv))
  {
    var cs := Checks(env, conv);
    FirstOfTwelve(cs);
    FromEnvFailsAtFirstCheck(env, conv);
  }

  /** `from_env` stops at its first failing check, in source order. */
  lemma FromEnvFailsAtFirstCheck(env: map<string, string>, conv: Conversions)
    ensures FailureOf(FromEnv(env, conv))
            == if Getenv(env, "GOOGLE_API_KEY", "") == "" then Some(MissingApiKey)
               else if TemperatureSetting(env, conv).Failure? then FailureOf(TemperatureSetting(env, conv))
               else if DefaultTimeout(env, conv).Failure? then FailureOf(DefaultTimeout(env, conv))
               else if MaxIterations(env, conv).Failure? then FailureOf(MaxIterations(env, conv))
               else if LlmMaxRetries(env, conv).Failure? then FailureOf(LlmMaxRetries(env, conv))
               else if RetryDelaySetting(env, conv).Failure? then FailureOf(RetryDelaySetting(env, conv))
               else if RateLimit(env, conv).Failure? then FailureOf(RateLimit(env, conv))
               else if RequestTimeout(env, conv).Failure? then FailureOf(RequestTimeout(env, conv))
               else if NavigationTimeout(env, conv).Failure? then FailureOf(NavigationTimeout(env, conv))
               else if ActionTimeout(env, conv).Failure? then FailureOf(ActionTimeout(env, conv))
               else if PageContentLimit(env, conv).Failure? then FailureOf(PageContentLimit(env, conv))
               else FailureOf(TaskLengthLimit(env, conv))
  {
  }

  /** On twelve checks the scan is a chain of twelve tests. */
  lemma FirstOfTwelve(cs: seq<Option<Error>>)
    requires |cs| == 12
    ensures FirstFailure(cs)
            == if cs[0].Some? then cs[0] else if cs[1].Some? then cs[1] else if cs[2].Some? then cs[2]
               else if cs[3].Some? then cs[3] else if cs[4].Some? then cs[4] else if cs[5].Some? then cs[5]
               else if cs[6].Some? then cs[6] else if cs[7].Some? then cs[7] else if cs[8].Some? then cs[8]
               else if cs[9].Some? then cs[9] else if cs[10].Some? then cs[10] else cs[11]
  {
    FirstFailureStep(cs, 0);
    FirstFailureStep(cs, 1);
    FirstFailureStep(cs, 2);
    FirstFailureStep(cs, 3);
    FirstFailureStep(cs, 4);
    FirstFailureStep(cs, 5);
    FirstFailureStep(cs, 6);
    FirstFailureStep(cs, 7);
    FirstFailureStep(cs, 8);
    FirstFailureStep(cs, 9);
    FirstFailureStep(cs, 10);
    FirstFailureStep(cs, 11);
    assert cs[12..] == [];
  }

  /** One step of the scan. */
  lemma FirstFailureStep(cs: seq<Option<Error>>, k: nat)
    requires k < |cs|
    ensures FirstFailure(cs[k..]) == if cs[k].Some? then cs[k] else FirstFailure(cs[k + 1..])
  {
    assert cs[k..][1..] == cs[k + 1..];
  }

  /** The conversions turn the default strings into the dataclass defaults. */
  predicate ReadsDefaults(conv: Conversions) {
    && conv.parseFloat("0.7") == Some(0.7)
    && conv.parseFloat("1.0") == Some(1.0)
    && conv.parseInt("120") == Some(120)
    && conv.parseInt("20") == Some(20)
    && conv.parseInt("3") == Some(3)
    && conv.parseInt("60") == Some(60)
    && conv.parseInt("300") == Some(300)
    && conv.parseInt("30000") == Some(30000)
    && conv.parseInt("1000000") == Some(1000000)
    && conv.parseInt("1000") == Some(1000)
  }

  /** The dataclass defaults, with any key, satisfy every range rule. */
  lemma DefaultsSatisfyRanges(key: string)
    requires key != ""
    ensures InRange(Defaults.(googleApiKey := key))
  {
  }

  /** With only the key set, every other setting is its default. */
  lemma OnlyApiKeyGivesDefaults(key: string, conv: Conversions)
    requires key != "" && ReadsDefaults(conv)
    ensures FromEnv(map["GOOGLE_API_KEY" := key], conv) == Success(Defaults.(googleApiKey := key))
  {
    DefaultSettingsRead(key, conv);
  }

  /** With only the key set, each setting reads its default text. */
  lemma DefaultSettingsRead(key: string, conv: Conversions)
    requires ReadsDefaults(conv)
    ensures var env := map["GOOGLE_API_KEY" := key];
            && TemperatureSetting(env, conv) == Success(0.7)
            && DefaultTimeout(env, conv) == Success(120)
            && MaxIterations(env, conv) == Success(20)
            && LlmMaxRetries(env, conv) == Success(3)
            && RetryDelaySetting(env, conv) == Success(1.0)
            && RateLimit(env, conv) == Success(60)
            && RequestTimeout(env, conv) == Success(300)
            && NavigationTimeout(env, conv) == Success(30000)
            && ActionTimeout(env, conv) == Success(30000)
            && PageContentLimit(env, conv) == Success(1000000)
            && TaskLengthLimit(env, conv) == Success(1000)
  {
    var env := map["GOOGLE_API_KEY" := key];
    assert TemperatureSetting(env, conv) == Success(0.7);
    assert DefaultTimeout(env, conv) == Success(120);
    assert MaxIterations(env, conv) == Success(20);
    assert LlmMaxRetries(env, conv) == Success(3);
    assert RetryDelaySetting(env, conv) == Success(1.0);
    assert RateLimit(env, conv) == Success(60);
    assert RequestTimeout(env, conv) == Success(300);
    assert NavigationTimeout(env, conv) == Success(30000);
    assert ActionTimeout(env, conv) == Success(30000);
    assert PageContentLimit(env, conv) == Success(1000000);
    assert TaskLengthLimit(env, conv) == Success(1000);
  }

  /** A missing or empty key is reported before anything else is looked at. */
  lemma ApiKeyCheckedFirst(env: map<string, string>, conv1: Conversions, conv2: Conversions)
    requires "GOOGLE_API_KEY" !in env || env["GOOGLE_API_KEY"] == ""
    ensures FromEnv(env, conv1) == FromEnv(env, conv2) == Failure(MissingApiKey)
  {
  }

  /** A parseable but negative DEFAULT_TIMEOUT, with valid settings before it,
      is INVALID_TIMEOUT; an unparseable one is INVALID_TIMEOUT_FORMAT. */
  lemma BadTimeoutCodes(key: string, raw: string, conv: Conversions)
    requires key != "" && ReadsDefaults(conv)
    ensures var r := FromEnv(map["GOOGLE_API_KEY" := key, "DEFAULT_TIMEOUT" := raw], conv);
            && (conv.parseInt(raw).None? ==> r.Failure? && r.error.code == Some("INVALID_TIMEOUT_FORMAT"))
            && (conv.parseInt(raw).Some? && conv.parseInt(raw).value <= 0 ==>
                  r.Failure? && r.error.code == Some("INVALID_TIMEOUT"))
  {
    var env := map["GOOGLE_API_KEY" := key, "DEFAULT_TIMEOUT" := raw];
    assert Getenv(env, "TEMPERATURE", "0.7") == "0.7";
  }
}
