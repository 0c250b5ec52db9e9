# BrowseMind core in Dafny

BrowseMind drives a web browser toward a goal by asking a language model for one action at a time. This project models four parts of it and proves properties about them.

- **Reliability primitives** (`reliability.dfy`, module `Reliability`):
  - the sliding-window `RateLimiter`;
  - the three-state `CircuitBreaker`;
  - `retry_with_backoff`.

  The two classes are Dafny classes whose methods update their fields. Each method is proved against a pure transition function on a snapshot of those fields, and the properties are lemmas about those functions. The clock is a parameter (`now`). A sleep is returned as its duration. `random.random()` is a function parameter with values in [0, 1).
- **Model-reply extraction** (`llm.dfy`, module `Llm`):
  - the fenced-block search performed by `re.search(r"```json\n(.*?)\n```", …, re.DOTALL)`;
  - the decode step;
  - the "must be a dict" check;
  - the error code each failing stage raises.
- **Configuration** (`config.dfy`, module `Config`):
  - the `AgentConfig` defaults;
  - `AgentConfig.from_env`: the environment is a `map<string, string>`, and `int()`/`float()` are partial conversion functions.
- **Agent loop** (`agent.dfy`, module `Agent`):
  - `Agent.run`: the action dispatch is a pure function `Decide`, one iteration is `Iteration`, and the whole run is `RunSpec`;
  - the imperative `Agent.Run` loop over a `Page` that records the commands it receives, proved equal to `RunSpec`.

  The browser and the model are collaborators passed in as a `Host`. A `Host` holds functions of the iteration number and the commands sent so far.

- `common.dfy` (module `Common`) holds the shared types:
  - `Result`;
  - the raised exception `Error(kind, message, code)`, whose code is the second constructor argument at each raise site;
  - decoded JSON values;
  - the few Python conversions the code applies to them: `str()`, truthiness, and `isinstance(x, int)`, which accepts `bool`.

Time, delays and float values are `real`. Python integers are unbounded, and so are Dafny's `int`.

The model follows the code as written; in particular:
- A half-open breaker admits every call, not a single probe.
- A model reply that is bare JSON without a fenced block is `MISSING_JSON_ERROR`.
- Mistyped arguments of navigate/type/click are skipped silently. They do not raise.
- An unknown action raises the base `BrowseMindError` with no code.
- `Agent.run` uses none of the reliability primitives.
- `max_task_length` and `max_page_content_length` are never enforced.
- The page is never closed.

## Model

| member | source | states |
|---|---|---|
| Reliability.ExpiredPrefix | src/browsemind/reliability.py:34-36 | eviction pops exactly the leading entries `<= now - time_window`; the first kept entry is `> now - time_window` |
| Reliability.Live | src/browsemind/reliability.py:34-36 | the queue after eviction is a suffix of it; every dropped entry is `<= now - time_window`, and the first kept entry is `> now - time_window` |
| Reliability.Acquired | src/browsemind/reliability.py:34-46 | after `acquire` the queue is the evicted queue followed by one new entry, `now` |
| Reliability.AcquireSleep | src/browsemind/reliability.py:38-43 | under the limit: no sleep. When full: sleeps `time_window - (now - requests[0])`, 0 if that is not positive, so it never returns before the oldest entry leaves the window. Never negative. IndexError exactly when `max_requests <= 0` and the deque is empty |
| Reliability.RateLimiter.constructor | src/browsemind/reliability.py:18-28 | keeps `max_requests` and `time_window`; empty deque |
| Reliability.RateLimiter.Acquire | src/browsemind/reliability.py:30-46 | the pop loop leaves the evicted queue. The returned sleep is `AcquireSleep` of that queue. Exactly one timestamp is appended: the entry time `now` |
| Reliability.EvictionKeepsOrder | src/browsemind/reliability.py:34-36 | eviction keeps an ordered queue ordered; every kept entry is strictly inside the window |
| Reliability.AcquireKeepsOrder | src/browsemind/reliability.py:30-46 | with a clock that does not run backwards, `acquire` keeps the queue ordered |
| Reliability.BurstKeepsAll | src/browsemind/reliability.py:30-46 | acquisitions that all fall inside one window record every one of their timestamps |
| Reliability.BurstThenWait | src/browsemind/reliability.py:30-46 | after `n` acquisitions in one window, the next acquisition with limit `n` sleeps until the first one leaves the window |
| Reliability.EntryTimeStampsAdmitTwoInOneWindow | src/browsemind/reliability.py:30-46 | recording the entry time lets more than `max_requests` calls return inside one window (calls at 0, 1, 10.5 return at 0, 10, 11 with limit 1 per 10 s) |
| Reliability.RecoveryDue | src/browsemind/reliability.py:72-75 | recovery is due iff the last failure time is truthy (set and not 0.0) and at least `recovery_timeout` old |
| Reliability.Admit | src/browsemind/reliability.py:66-81 | closed/half-open: admit with no change. Open: admit and go half-open iff a truthy last failure time is at least `recovery_timeout` old, otherwise refuse with no change. Keeps the breaker invariant |
| Reliability.RecordSuccess | src/browsemind/reliability.py:83-87 | from any state: closed, count 0, failure time untouched |
| Reliability.RecordFailure | src/browsemind/reliability.py:89-96 | count + 1; failure time `now`; open iff the count reaches the threshold, else state unchanged; keeps the invariant (open/half-open implies count >= threshold) |
| Reliability.HalfOpenFailureReopens | src/browsemind/reliability.py:89-96 | a failure in half-open re-opens the breaker |
| Reliability.FailuresTrip | src/browsemind/reliability.py:89-96 | from closed, `k` failures count `k`; the breaker is open iff the count reached the threshold; the last failure's time is recorded |
| Reliability.OpenStaysOpen | src/browsemind/reliability.py:89-96 | failures never close an open breaker |
| Reliability.TrippedBreakerRecovers | src/browsemind/reliability.py:66-96 | with `threshold >= 1`, a fresh breaker tripped by `threshold` failures, the last at a non-zero time, refuses calls until `recovery_timeout` has passed; then it admits and goes half-open, and admits every later call |
| Reliability.ZeroFailureTimeNeverRecovers | src/browsemind/reliability.py:72-78 | a failure time of 0.0 is falsy, so an open breaker stamped 0.0 never admits |
| Reliability.CircuitBreaker.constructor | src/browsemind/reliability.py:52-64 | closed, count 0, no failure time; the threshold defaults to 5 and the timeout to 60 seconds |
| Reliability.CircuitBreaker.CanExecute | src/browsemind/reliability.py:66-81 | answer and new fields are those of `Admit`; keeps the invariant |
| Reliability.CircuitBreaker.OnSuccess | src/browsemind/reliability.py:83-87 | new fields are those of `RecordSuccess` |
| Reliability.CircuitBreaker.OnFailure | src/browsemind/reliability.py:89-96 | new fields are those of `RecordFailure`; keeps the invariant |
| Reliability.CircuitBreaker.IsOpen | src/browsemind/reliability.py:98-100 | true iff the state is open |
| Reliability.BackoffDelay | src/browsemind/reliability.py:141-148 | for non-negative parameters the delay lies in [0, `max_delay`] and is at most the cap. With jitter it is at least half the cap; without jitter it equals the cap |
| Reliability.BackoffCap | src/browsemind/reliability.py:142 | the cap is the smaller of `base_delay * exponential_base ** attempt` and `max_delay`; it is never negative for non-negative parameters |
| Reliability.Jittered | src/browsemind/reliability.py:145-148 | scaling by `0.5 + u * 0.5` with `u` in [0, 1) keeps a non-negative delay between half of it and all of it |
| Reliability.BackoffCapMonotone | src/browsemind/reliability.py:142 | for a non-negative `base_delay` and `exponential_base >= 1` the capped delays never decrease from one retry to the next |
| Reliability.RetryExhausted | src/browsemind/reliability.py:137-139 | the exhausted-retries error is an `LLMError` with code `RETRY_EXHAUSTED` and the message `Operation failed after <max_retries> retries: <last error>` |
| Reliability.RetryWithBackoff | src/browsemind/reliability.py:103-157 | defaults: 3 retries, base delay 1.0, max delay 60.0, base 2.0, jitter on. Succeeds iff one of the first `max_retries + 1` attempts succeeds, returning the first success. After `max_retries + 1` failures: `RETRY_EXHAUSTED`, carrying the last error. One sleep per failed non-final attempt, each the backoff delay of its attempt. Negative `max_retries`: the plain "unknown reasons" exception |
| Llm.Find | src/browsemind/llm.py:121 | the first occurrence of a fence at or after a position, or none |
| Llm.Search | src/browsemind/llm.py:121 | the reported span is a match; it is the leftmost match and, among those, the one with the shortest group; none iff there is no match anywhere |
| Llm.ExtractPayload | src/browsemind/llm.py:118-141 | `group(1)`: the text between the opening fence and the first closing fence after it |
| Llm.PayloadHasNoCloseFence | src/browsemind/llm.py:121 | an extracted payload never contains the closing fence |
| Llm.FencedPayloadRoundTrip | src/browsemind/llm.py:121 | fencing a payload that holds no closing fence, then appending anything, extracts that payload again |
| Llm.GetNextAction | src/browsemind/llm.py:100-168 | invocation failure → `LLM_INVOKE_ERROR`; no match → `MISSING_JSON_ERROR`; `JSONDecodeError` → `JSON_DECODE_ERROR`; other decode exception → `JSON_PARSE_ERROR`; non-dict → `INVALID_RESPONSE_TYPE`; a dict is returned unchanged; every failure is an `LLMError` |
| Llm.NoDecodeWithoutPayload | src/browsemind/llm.py:129-134 | when invocation fails or nothing matches, the outcome does not depend on the decoder |
| Llm.FencedObjectAccepted | src/browsemind/llm.py:143-162 | a fenced payload that decodes to a dict yields that dict |
| Llm.NoBacktickNoPayload | src/browsemind/llm.py:121-134 | a reply without a backtick has no match |
| Llm.BareJsonIsMissingPayload | src/browsemind/llm.py:121-134 | a bare `{"action":"finish",…}` reply is `MISSING_JSON_ERROR` |
| Config.Getenv | src/browsemind/config.py:67 | `os.getenv(name, default)`: the variable's value when it is set, otherwise the default |
| Config.IntSetting | src/browsemind/config.py:88-103 | unparseable → the `*_FORMAT` code with the raw text. Otherwise it succeeds with the parsed value iff it is positive (or non-negative where zero is allowed), and fails with the plain code if not |
| Config.IntSettingRules | src/browsemind/config.py:88-279 | each of the nine integer settings (`DEFAULT_TIMEOUT` "120", `MAX_ITERATIONS` "20", `LLM_MAX_RETRIES` "3", `LLM_RATE_LIMIT_REQUESTS_PER_MINUTE` "60", `LLM_REQUEST_TIMEOUT` "300", `BROWSER_NAVIGATION_TIMEOUT` "30000", `BROWSER_ACTION_TIMEOUT` "30000", `MAX_PAGE_CONTENT_LENGTH` "1000000", `MAX_TASK_LENGTH` "1000") reads its own variable with its own default. Unparseable gives its `*_FORMAT` code. A parsed value is accepted as is iff it is positive (non-negative for `LLM_MAX_RETRIES`), and otherwise gives its plain code. Every failure is a `ConfigurationError` |
| Config.TemperatureSetting | src/browsemind/config.py:70-86 | unparseable → `INVALID_TEMPERATURE_FORMAT`; succeeds with the value iff it lies in [0.0, 1.0], else `INVALID_TEMPERATURE` |
| Config.RetryDelaySetting | src/browsemind/config.py:140-155 | unparseable → `INVALID_LLM_RETRY_DELAY_FORMAT`; succeeds iff non-negative, else `INVALID_LLM_RETRY_DELAY` |
| Config.FromEnv | src/browsemind/config.py:44-297 | every failure is a `ConfigurationError`. A missing or empty key gives `MISSING_API_KEY` whatever else is set. A loaded config satisfies every range rule, and each field equals its parsed variable (or its default). `MODEL_NAME` is taken as is |
| Config.FirstFailureIsFirst | src/browsemind/config.py:59-279 | the scan of the checks finds nothing iff every check passes; otherwise it returns the error of a failing check that only passing checks precede |
| Config.FromEnvFailsAtFirstCheck | src/browsemind/config.py:59-279 | `from_env` fails with the error of its first failing check, taken in source order, and succeeds only when none fails |
| Config.FromEnvReportsFirstFailure | src/browsemind/config.py:59-279 | `from_env` fails exactly when one of its twelve checks fails, with the error of the first failing check in source order |
| Config.DefaultsSatisfyRanges | src/browsemind/config.py:24-42 | the dataclass defaults, with any non-empty key, satisfy every range rule `from_env` enforces |
| Config.DefaultSettingsRead | src/browsemind/config.py:70-279 | with only the key set, each setting reads its default text and yields the dataclass default |
| Config.OnlyApiKeyGivesDefaults | src/browsemind/config.py:24-42 | with only the key set, the result is the dataclass defaults with that key |
| Config.ApiKeyCheckedFirst | src/browsemind/config.py:59-64 | a missing or empty key is reported before any conversion is looked at |
| Config.BadTimeoutCodes | src/browsemind/config.py:88-103 | with only the key and `DEFAULT_TIMEOUT` set, an unparseable `DEFAULT_TIMEOUT` gives `INVALID_TIMEOUT_FORMAT`; a non-positive one gives `INVALID_TIMEOUT` |
| Common.Truthy | src/browsemind/agent.py:51 | Python truthiness: false exactly for `None`, `False`, `0`, `0.0`, `""`, `[]` and `{}` |
| Common.IsPyInt | src/browsemind/agent.py:48 | `isinstance(x, int)` holds exactly for JSON integers and booleans |
| Common.IntToString | src/browsemind/agent.py:49 | `str()` of an int: a leading `-` iff negative, followed by the decimal digits of its magnitude, with no leading zero, which read back as the magnitude |
| Common.DigitsRoundTrip | src/browsemind/agent.py:49 | the decimal digits of a natural number read back as that number |
| Common.PyStr | src/browsemind/agent.py:63-70 | `str(v)`: a string is itself, `None` is `"None"`, a bool is `"True"` iff true, and an int is `IntToString` of it: a `-` iff negative, then its canonical digits |
| Common.ScalarStrIgnoresRepr | src/browsemind/agent.py:63-68 | `str()` of a string is the string itself; for `None`, `bool`, `int` and `str` it does not depend on the host's `str()` of floats, lists and dicts |
| Agent.ArgsOf | src/browsemind/agent.py:39 | `action.get("args", {})`: the args when present, otherwise an empty dict |
| Agent.NoGet | src/browsemind/agent.py:42 | calling `.get` on non-dict args raises `AttributeError: '<type>' object has no attribute 'get'`, with no code |
| Agent.UnknownAction | src/browsemind/agent.py:69-70 | a `BrowseMindError` with no code and the message `Unknown action: ` followed by `str()` of the name: `None` when missing, the name itself for a string |
| Agent.Selector | src/browsemind/agent.py:49 | `[browsemind-id="<id>"]`, with a `bool` id spelled `True`/`False` |
| Agent.Decide | src/browsemind/agent.py:38-70 | raises iff the action name is unknown (including missing), or is navigate/type/click/finish with args that are not a dict (`AttributeError`). An unknown name raises `BrowseMindError("Unknown action: <name>")`. Summarize iff the name is summarize. Finish iff the name is finish with dict args |
| Agent.CommandsOnlyWhenArgsTypeCheck | src/browsemind/agent.py:41-57 | navigate/type/click issue a command iff their args type-check (`url` str; `id` int and `text` str; `id` int); otherwise nothing is issued and nothing is raised |
| Agent.NavigateAndClickTargets | src/browsemind/agent.py:41-57 | navigate with a `str` url goes to that url; click with an `int` id clicks that id's selector |
| Agent.TypeTargetsSelector | src/browsemind/agent.py:45-52 | type sends the text to the element's selector, then presses Enter iff `press_enter_after` is present and truthy |
| Agent.ClickOnThree | src/browsemind/agent.py:53-57 | clicking id 3 targets `[browsemind-id="3"]` |
| Agent.BoolIdAccepted | src/browsemind/agent.py:53-57 | a JSON `true` id passes the int check and targets `[browsemind-id="True"]` |
| Agent.FinishResult | src/browsemind/agent.py:63-68 | finish returns `str(args["result"])` when present (a string as is), or `"Task finished."` when absent |
| Agent.Effects | src/browsemind/agent.py:41-62 | navigate sends `goto(url)`; type sends `type(selector, text)`, then `press(selector, "Enter")` iff asked; click sends `click(selector)`; summarize reads the body; skipped, finish and raising actions send nothing. At most two commands |
| Agent.Iteration | src/browsemind/agent.py:35-70 | an observation or model failure stops the run with that error and no command. Summarize stops with the body text, after reading it. Finish stops with its result. An unknown action or non-dict args stop with that error. Any other action sends its commands and continues |
| Agent.RunFrom | src/browsemind/agent.py:34-72 | never more iterations than the budget; the commands already sent stay a prefix of the page's trace |
| Agent.Budget | src/browsemind/agent.py:34 | `range(max_iterations)` runs `max_iterations` iterations, and none for a negative bound |
| Agent.RunSpec | src/browsemind/agent.py:31-72 | the page's first command is `goto("about:blank")`; at most `max_iterations` iterations |
| Agent.NonTerminalRunsExhaust | src/browsemind/agent.py:34-72 | when no iteration is terminal, the run uses its whole budget and returns `"Max iterations reached."` |
| Agent.EarlyEndIsTerminal | src/browsemind/agent.py:34-70 | a run that ends before its budget ended on a terminal iteration, whose outcome is the run's |
| Agent.DispatchContinues | src/browsemind/agent.py:41-57 | navigate, type or click with dict args sends its commands (none when its args do not type-check) and hands the page to the next iteration |
| Agent.SummarizeEndsRun | src/browsemind/agent.py:58-62 | summarize ends the run on that iteration with the body text, after one body read |
| Agent.StopEndsRun | src/browsemind/agent.py:58-70 | a terminal iteration ends the run at once, whatever budget remains |
| Agent.MissingFenceSendsNothing | src/browsemind/agent.py:35-36 | a reply without a fenced block ends the run with `MISSING_JSON_ERROR`, and that iteration sends the page nothing |
| Agent.FencedFinishEndsRun | src/browsemind/agent.py:36-66 | a fenced finish object ends the run on that iteration with its result |
| Agent.OneIterationOfNavigation | src/browsemind/agent.py:31-72 | with `max_iterations = 1` and a model that always navigates: one navigation, then `"Max iterations reached."` |
| Agent.Page.Goto | src/browsemind/agent.py:44 | the page records one navigation |
| Agent.Page.Type | src/browsemind/agent.py:50 | the page records one typing command |
| Agent.Page.Press | src/browsemind/agent.py:52 | the page records one key press |
| Agent.Page.Click | src/browsemind/agent.py:57 | the page records one click |
| Agent.Page.InnerText | src/browsemind/agent.py:61 | returns the body text shown after the commands so far and records the read |
| Agent.Page.constructor | src/browsemind/agent.py:31 | a new page has received no command |
| Agent.Perform | src/browsemind/agent.py:41-61 | the page receives exactly the commands of the decision; summarize returns the body text |
| Agent.Agent.constructor | src/browsemind/agent.py:16-18 | keeps the task and the configuration |
| Agent.Agent.Run | src/browsemind/agent.py:21-72 | the result and the page's commands are those of `RunSpec` for the configured `max_iterations` |

## Left out

- `timeout_wrapper` is not modelled. It is `asyncio.wait_for` cancellation: concurrency and timing.
- Sleeping, `time.time()` and `random.random()` are replaced:
  - the clock is a parameter;
  - sleeps are returned as durations;
  - the random draw is a function of the attempt.

  Floats are modelled as exact reals. NaN and infinities are not represented, so `float("nan")` or `float("inf")` settings are outside the model.
- The awaits, and any concurrent use of one limiter or breaker, are not modelled. Every operation runs to completion in isolation.
- `get_llm` and the `LLM_INIT_ERROR` it raises are not modelled, and neither is the `llm` that `Agent.__init__` builds. Building the prompt and the chain is left out too, with its `PROMPT_ERROR` and `CHAIN_ERROR`. These are foreign library calls. The model invocation is a function returning the reply text or the text of the exception it raised.
- The following paths of `get_next_action` are not modelled. They fire only when library code fails in ways the model cannot observe:
  - `CONTENT_EXTRACTION_ERROR`, `JSON_SEARCH_ERROR` and `JSON_EXTRACTION_ERROR`;
  - the `LLM_ACTION_ERROR` wrapping of foreign exceptions.
- These Python builtins are parameters, not definitions:
  - `json.loads`;
  - `int()` and `float()` on strings;
  - `str()` of floats, lists and dicts.

  `str()` of `None`, `bool`, `int` and `str` is defined in the model.
- `src/browsemind/browser.py` is not part of this model. `get_page_content` becomes the host's observation. Its failure may be any `Error`; the model does not restrict it to the `BrowserError` that `get_page_content` raises, and no contract depends on the kind. Page commands (`goto`, `type`, `press`, `click`, `inner_text`) are recorded and always succeed; a Playwright exception from them is not modelled.
- `src/browsemind/main.py`, `browser_agent.py`, `src/browsemind/__init__.py` and all logging are not part of this model.
- `src/browsemind/exceptions.py` is reduced to the exception class names. Error codes are carried exactly as each raise site passes them. Exception chaining (`from e`) is not modelled.
- Reliability.RetryWithBackoff: the final `raise last_exception` is unreachable in the code, because the loop always returns or raises first. Only the `Exception("Retry failed for unknown reasons")` path, taken for a negative `max_retries`, is modelled.
- Reliability.BackoffDelay: the bounds are stated only for non-negative `base_delay`, `max_delay` and `exponential_base`. The code accepts other values and promises nothing for them.
