/** `Agent.run`: open a page at about:blank, then up to `max_iterations`
    times observe the page, ask the model for an action and dispatch it.
    Navigate, type and click act on the page and the loop goes on; summarize
    and finish end the run with a result; anything else raises. The browser
    and the model are the host's: their answers are oracles indexed by the
    iteration, and the page is the trace of the commands sent to it. */
module Agent {
  import opened Common
  import opened Llm
  import opened Config

  /** A call made on the Playwright page. */
  datatype Command =
    | Goto(url: string)
    | TypeInto(selector: string, text: string)
    | Press(selector: string, key: string)
    | Click(selector: string)
    | ReadText(selector: string)   // `page.inner_text(selector)`

  /** What one action dict asks the loop to do. */
  datatype Decision =
    | Navigate(url: string)
    | TypeText(selector: string, text: string, pressEnter: bool)
    | ClickOn(selector: string)
    | Skip                          // a known action whose args do not type-check
    | Summarize
    | Finish(result: string)
    | Raise(error: Error)

  const MaxIterationsReached := "Max iterations reached."
  const DefaultFinishResult := "Task finished."

  /** `action.get("args", {})`. */
  function ArgsOf(action: map<string, Json>): (args: Json)
    ensures "args" in action ==> args == action["args"]
    ensures "args" !in action ==> args == JObject(map[])
  {
    if "args" in action then action["args"] else JObject(map[])
  }

  /** The AttributeError of `args.get(...)` on a value that is not a dict. */
  function NoGet(args: Json): (e: Error)
    ensures e.kind == AttributeError && e.code == None
    ensures e.message == "'" + TypeName(args) + "' object has no attribute 'get'"
  {
    Error(AttributeError, "'" + TypeName(args) + "' object has no attribute 'get'", None)
  }

  /** `f'[browsemind-id="{element_id}"]'` for an `int` (or `bool`) id. */
  function Selector(id: Json): (s: string)
    requires IsPyInt(id)
    ensures s == "[browsemind-id=\"" + (if id.JBool? then (if id.b then "True" else "False") else IntToString(id.i)) + "\"]"
  {
    "[browsemind-id=\"" + PyStr(id, _ => "") + "\"]"
  }

  /** `BrowseMindError(f"Unknown action: {action_name}")`. */
  function UnknownAction(name: Option<Json>, repr: Json -> string): (e: Error)
    ensures e.kind == BrowseMindError && e.code == None
    ensures name.None? ==> e.message == "Unknown action: None"
    ensures name.Some? && name.value.JString? ==> e.message == "Unknown action: " + name.value.s
    ensures name.Some? ==> e.message == "Unknown action: " + PyStr(name.value, repr)
  {
    Error(BrowseMindError, "Unknown action: " + (if name.None? then "None" else PyStr(name.value, repr)), None)
  }

  predicate Named(action: map<string, Json>, name: string) {
    Get(action, "action") == Some(JString(name))
  }

  predicate KnownAction(action: map<string, Json>) {
    Named(action, "navigate") || Named(action, "type") || Named(action, "click")
    || Named(action, "summarize") || Named(action, "finish")
  }

  /** The branch chain on `action_name` and `args`. */
  function Decide(action: map<string, Json>, repr: Json -> string): (d: Decision)
    ensures d.Raise? <==> !KnownAction(action) || (!Named(action, "summarize") && !ArgsOf(action).JObject?)
    ensures !KnownAction(action) ==> d == Raise(UnknownAction(Get(action, "action"), repr))
    ensures KnownAction(action) && d.Raise? ==> d == Raise(NoGet(ArgsOf(action)))
    ensures d.Summarize? <==> Named(action, "summarize")
    ensures d.Finish? <==> Named(action, "finish") && ArgsOf(action).JObject?
  {
    var args := ArgsOf(action);
    if Named(action, "navigate") then
      if !args.JObject? then Raise(NoGet(args))
      else match Get(args.fields, "url")
        case Some(JString(url)) => Navigate(url)
        case _ => Skip
    else if Named(action, "type") then
      if !args.JObject? then Raise(NoGet(args))
      else
        var id := Get(args.fields, "id");
        var text := Get(args.fields, "text");
        if id.Some? && IsPyInt(id.value) && text.Some? && text.value.JString? then
          var pressEnter := "press_enter_after" in args.fields && Truthy(args.fields["press_enter_after"]);
          TypeText(Selector(id.value), text.value.s, pressEnter)
        else Skip
    else if Named(action, "click") then
      if !args.JObject? then Raise(NoGet(args))
      else
        var id := Get(args.fields, "id");
        if id.Some? && IsPyInt(id.value) then ClickOn(Selector(id.value)) else Skip
    else if Named(action, "summarize") then
      Summarize
    else if Named(action, "finish") then
      if !args.JObject? then Raise(NoGet(args))
      else if "result" in args.fields then Finish(PyStr(args.fields["result"], repr))
      else Finish(DefaultFinishResult)
    else
      Raise(UnknownAction(Get(action, "action"), repr))
  }

  /** The page commands a decision issues. */
  function Effects(d: Decision): (cs: seq<Command>)
    ensures |cs| <= 2
    ensures cs == [] <==> d.Skip? || d.Finish? || d.Raise?
    ensures |cs| == 2 <==> d.TypeText? && d.pressEnter
    ensures d.Summarize? ==> cs == [ReadText("body")]
    ensures d.Navigate? ==> cs == [Goto(d.url)]
    ensures d.ClickOn? ==> cs == [Click(d.selector)]
    ensures d.TypeText? ==> cs[0] == TypeInto(d.selector, d.text) && (d.pressEnter ==> cs[1] == Press(d.selector, "Enter"))
  {
    match d
    case Navigate(url) => [Goto(url)]
    case TypeText(selector, text, pressEnter) =>
      [TypeInto(selector, text)] + (if pressEnter then [Press(selector, "Enter")] else [])
    case ClickOn(selector) => [Click(selector)]
    case Summarize => [ReadText("body")]
    case _ => []
  }

  /** The argument checks of navigate, type and click, stated on their own. */
  predicate ArgsTypeCheck(action: map<string, Json>) {
    var args := ArgsOf(action);
    args.JObject? &&
    var url := Get(args.fields, "url");
    var id := Get(args.fields, "id");
    var text := Get(args.fields, "text");
    || (Named(action, "navigate") && url.Some? && url.value.JString?)
    || (Named(action, "type") && id.Some? && IsPyInt(id.value) && text.Some? && text.value.JString?)
    || (Named(action, "click") && id.Some? && IsPyInt(id.value))
  }

  /** Navigate, type and click issue a command exactly when their args type-check;
      otherwise the iteration issues nothing and raises nothing. */
  lemma CommandsOnlyWhenArgsTypeCheck(action: map<string, Json>, repr: Json -> string)
    requires Named(action, "navigate") || Named(action, "type") || Named(action, "click")
    requires ArgsOf(action).JObject?
    ensures var d := Decide(action, repr);
            && (ArgsTypeCheck(action) <==> Effects(d) != [])
            && (!ArgsTypeCheck(action) ==> d == Skip)
  {
  }

  /** Navigate goes to the `url` string; click aims at the selector of an
      `int` (or `bool`) `id`. */
  lemma NavigateAndClickTargets(action: map<string, Json>, repr: Json -> string)
    requires ArgsOf(action).JObject?
    ensures var args := ArgsOf(action).fields;
            && (Named(action, "navigate") && "url" in args && args["url"].JString? ==>
                  Decide(action, repr) == Navigate(args["url"].s))
            && (Named(action, "click") && "id" in args && IsPyInt(args["id"]) ==>
                  Decide(action, repr) == ClickOn(Selector(args["id"])))
  {
  }

  /** Type and click aim at the element's selector; Enter follows the typing
      only when `press_enter_after` is present and truthy. */
  lemma TypeTargetsSelector(action: map<string, Json>, id: Json, text: string, repr: Json -> string)
    requires Named(action, "type") && ArgsOf(action).JObject?
    requires Get(ArgsOf(action).fields, "id") == Some(id) && IsPyInt(id)
    requires Get(ArgsOf(action).fields, "text") == Some(JString(text))
    ensures var args := ArgsOf(action).fields;
            var enter := "press_enter_after" in args && Truthy(args["press_enter_after"]);
            Effects(Decide(action, repr))
              == [TypeInto(Selector(id), text)] + (if enter then [Press(Selector(id), "Enter")] else [])
  {
  }

  /** Clicking element 3 targets `[browsemind-id="3"]`. */
  lemma ClickOnThree(repr: Json -> string)
    ensures Decide(map["action" := JString("click"), "args" := JObject(map["id" := JInt(3)])], repr)
            == ClickOn("[browsemind-id=\"3\"]")
  {
    assert Digits(3) == "3";
  }

  /** A JSON `true` id passes `isinstance(x, int)` and is spelled `True`. */
  lemma BoolIdAccepted(repr: Json -> string)
    ensures Decide(map["action" := JString("click"), "args" := JObject(map["id" := JBool(true)])], repr)
            == ClickOn("[browsemind-id=\"True\"]")
  {
  }

  /** Finish returns `str(args["result"])`, or the default when absent. */
  lemma FinishResult(action: map<string, Json>, repr: Json -> string)
    requires Named(action, "finish") && ArgsOf(action).JObject?
    ensures var args := ArgsOf(action).fields;
            && ("result" !in args ==> Decide(action, repr) == Finish("Task finished."))
            && ("result" in args ==> Decide(action, repr) == Finish(PyStr(args["result"], repr)))
            && ("result" in args && args["result"].JString? ==> Decide(action, repr) == Finish(args["result"].s))
  {
  }

  // ---------------------------------------------------------------------------
  // One iteration and the whole run
  // ---------------------------------------------------------------------------

  /** The collaborators, as functions of the iteration number and of the
      commands the page has received so far: `get_page_content` (a text or the
      error it raised), the model invocation (a reply or the text of the exception
      it raised), `json.loads`, `str()` of floats, lists and dicts, and the
      body's inner text. */
  datatype Host = Host(
    observe: (nat, seq<Command>) -> Result<string, Error>,
    invoke: (nat, string, string) -> Result<string, string>,
    loads: string -> LoadResult,
    repr: Json -> string,
    innerText: seq<Command> -> string)

  datatype Step = Continue(commands: seq<Command>) | Stop(outcome: Result<string, Error>, commands: seq<Command>)

  /** Iteration `i` on a page that has received `trace`: one observation, one
      action request, one dispatch. */
  function Iteration(task: string, host: Host, i: nat, trace: seq<Command>): (r: Step)
    ensures host.observe(i, trace).Failure? ==> r == Stop(Failure(host.observe(i, trace).error), [])
    ensures r.Stop? && r.outcome.Failure? ==> r.commands == []
    ensures r.Continue? ==> host.observe(i, trace).Success?
                            && GetNextAction(host.invoke(i, host.observe(i, trace).value, task), host.loads, host.repr).Success?
    ensures host.observe(i, trace).Success? ==>
              var next := GetNextAction(host.invoke(i, host.observe(i, trace).value, task), host.loads, host.repr);
              && (next.Failure? ==> r == Stop(Failure(next.error), []))
              && (next.Success? ==>
                    var d := Decide(next.value, host.repr);
                    && (d.Summarize? ==> r == Stop(Success(host.innerText(trace)), [ReadText("body")]))
                    && (d.Finish? ==> r == Stop(Success(d.result), []))
                    && (d.Raise? ==> r == Stop(Failure(d.error), []))
                    && (!d.Summarize? && !d.Finish? && !d.Raise? ==> r == Continue(Effects(d))))
  {
    match host.observe(i, trace)
    case Failure(e) => Stop(Failure(e), [])
    case Success(content) =>
      match GetNextAction(host.invoke(i, content, task), host.loads, host.repr)
      case Failure(e) => Stop(Failure(e), [])
      case Success(action) =>
        var d := Decide(action, host.repr);
        match d
        case Summarize => Stop(Success(host.innerText(trace)), Effects(d))
        case Finish(result) => Stop(Success(result), [])
        case Raise(e) => Stop(Failure(e), [])
        case _ => Continue(Effects(d))
  }

  /** The iterations of one run, as a function of the iteration number and
      the commands the page has received. */
  function Steps(task: string, host: Host): (nat, seq<Command>) -> Step {
    (j: nat, t: seq<Command>) => Iteration(task, host, j, t)
  }

  /** The result of the run, every command the page received, and the number
      of iterations begun. */
  datatype Run = Run(outcome: Result<string, Error>, trace: seq<Command>, iterations: nat)

  /** The loop from iteration `i` on, with `budget` iterations in all. */
  function RunFrom(step: (nat, seq<Command>) -> Step, budget: nat, i: nat, trace: seq<Command>): (r: Run)
    ensures i <= r.iterations
    ensures i <= budget ==> r.iterations <= budget
    ensures trace <= r.trace
    decreases budget - i
  {
    if i >= budget then Run(Success(MaxIterationsReached), trace, i)
    else match step(i, trace)
      case Stop(outcome, commands) => Run(outcome, trace + commands, i + 1)
      case Continue(commands) => RunFrom(step, budget, i + 1, trace + commands)
  }

  /** `range(max_iterations)` runs no iteration for a negative bound. */
  function Budget(maxIterations: int): (n: nat)
    ensures maxIterations >= 0 ==> n == maxIterations
    ensures maxIterations < 0 ==> n == 0
  {
    if maxIterations < 0 then 0 else maxIterations
  }

  /** `Agent.run`: the page first goes to about:blank. */
  function RunSpec(task: string, host: Host, maxIterations: int): (r: Run)
    ensures r.iterations <= Budget(maxIterations)
    ensures |r.trace| >= 1 && r.trace[0] == Goto("about:blank")
  {
    var r := RunFrom(Steps(task, host), Budget(maxIterations), 0, [Goto("about:blank")]);
    assert [Goto("about:blank")] <= r.trace;
    r
  }

  /** When no iteration ends the run, it begins every iteration of its budget
      and returns the sentinel. */
  lemma {:induction false} NonTerminalRunsExhaust(step: (nat, seq<Command>) -> Step, budget: nat, i: nat,
                                                  trace: seq<Command>)
    requires i <= budget
    requires forall j: nat, t: seq<Command> :: i <= j < budget ==> step(j, t).Continue?
    ensures RunFrom(step, budget, i, trace).outcome == Success(MaxIterationsReached)
    ensures RunFrom(step, budget, i, trace).iterations == budget
    decreases budget - i
  {
    if i < budget {
      assert step(i, trace).Continue?;
      NonTerminalRunsExhaust(step, budget, i + 1, trace + step(i, trace).commands);
    }
  }

  /** The `n`-th iteration, on a page that has received `t`, ends the run
      with `outcome`. */
  predicate EndsWith(step: (nat, seq<Command>) -> Step, n: nat, t: seq<Command>, outcome: Result<string, Error>) {
    n >= 1 && step(n - 1, t).Stop? && step(n - 1, t).outcome == outcome
  }

  /** A run that ends before its budget ended on a terminal iteration: the
      last one begun stopped the loop, and its outcome is the run's. */
  lemma {:induction false} EarlyEndIsTerminal(step: (nat, seq<Command>) -> Step, budget: nat, i: nat,
                                              trace: seq<Command>)
    requires i <= budget
    requires RunFrom(step, budget, i, trace).iterations < budget
    ensures var r := RunFrom(step, budget, i, trace);
            exists t: seq<Command> :: trace <= t && EndsWith(step, r.iterations, t, r.outcome)
    decreases budget - i
  {
    var s := step(i, trace);
    if s.Continue? {
      var next := trace + s.commands;
      EarlyEndIsTerminal(step, budget, i + 1, next);
      var r := RunFrom(step, budget, i + 1, next);
      assert RunFrom(step, budget, i, trace) == r;
      var t: seq<Command> :| next <= t && EndsWith(step, r.iterations, t, r.outcome);
      assert trace <= next;
      assert trace <= t;
    } else {
      assert EndsWith(step, i + 1, trace, s.outcome);
    }
  }

  /** A terminal iteration ends the run at once, whatever budget remains. */
  lemma StopEndsRun(step: (nat, seq<Command>) -> Step, budget: nat, i: nat, trace: seq<Command>)
    requires i < budget && step(i, trace).Stop?
    ensures RunFrom(step, budget, i, trace) == Run(step(i, trace).outcome, trace + step(i, trace).commands, i + 1)
  {
  }

  /** A reply without a fenced block fails the iteration with
      MISSING_JSON_ERROR and sends no command to the page. */
  lemma MissingFenceSendsNothing(task: string, host: Host, budget: nat, i: nat, trace: seq<Command>)
    requires i < budget
    requires host.observe(i, trace).Success?
    requires var reply := host.invoke(i, host.observe(i, trace).value, task);
             reply.Success? && ExtractPayload(reply.value).None?
    ensures var r := RunFrom(Steps(task, host), budget, i, trace);
            && r.trace == trace
            && r.outcome.Failure? && r.outcome.error.code == Some("MISSING_JSON_ERROR")
  {
  }

  /** Navigate, type or click with dict args (whether or not they type-check)
      sends its commands and hands the page on to the next iteration. */
  lemma DispatchContinues(task: string, host: Host, budget: nat, i: nat, trace: seq<Command>,
                          action: map<string, Json>)
    requires i < budget
    requires host.observe(i, trace).Success?
    requires GetNextAction(host.invoke(i, host.observe(i, trace).value, task), host.loads, host.repr) == Success(action)
    requires Named(action, "navigate") || Named(action, "type") || Named(action, "click")
    requires ArgsOf(action).JObject?
    ensures RunFrom(Steps(task, host), budget, i, trace)
            == RunFrom(Steps(task, host), budget, i + 1, trace + Effects(Decide(action, host.repr)))
  {
  }

  /** Summarize reads the body text and ends the run with it, on the
      iteration that received it. */
  lemma SummarizeEndsRun(task: string, host: Host, budget: nat, i: nat, trace: seq<Command>,
                         action: map<string, Json>)
    requires i < budget
    requires host.observe(i, trace).Success?
    requires GetNextAction(host.invoke(i, host.observe(i, trace).value, task), host.loads, host.repr) == Success(action)
    requires Named(action, "summarize")
    ensures RunFrom(Steps(task, host), budget, i, trace)
            == Run(Success(host.innerText(trace)), trace + [ReadText("body")], i + 1)
  {
  }

  /** A fenced finish object ends the run with its result, on the
      iteration that received it. */
  lemma FencedFinishEndsRun(task: string, host: Host, budget: nat, i: nat, trace: seq<Command>,
                            p: string, rest: string, result: string)
    requires i < budget
    requires host.observe(i, trace).Success?
    requires host.invoke(i, host.observe(i, trace).value, task) == Success(OpenFence + p + CloseFence + rest)
    requires forall k: nat :: !OccursAt(p, CloseFence, k)
    requires host.loads(p) == Loaded(JObject(map["action" := JString("finish"),
                                                 "args" := JObject(map["result" := JString(result)])]))
    ensures RunFrom(Steps(task, host), budget, i, trace) == Run(Success(result), trace, i + 1)
  {
    FencedObjectAccepted(p, rest, map["action" := JString("finish"), "args" := JObject(map["result" := JString(result)])],
                         host.loads, host.repr);
  }

  /** With one iteration and a model that always navigates, the
      run navigates once and returns the sentinel. */
  lemma OneIterationOfNavigation(task: string, host: Host, url: string)
    requires forall t: seq<Command> ::
               host.observe(0, t).Success?
               && GetNextAction(host.invoke(0, host.observe(0, t).value, task), host.loads, host.repr)
                  == Success(map["action" := JString("navigate"), "args" := JObject(map["url" := JString(url)])])
    ensures RunSpec(task, host, 1) == Run(Success(MaxIterationsReached), [Goto("about:blank"), Goto(url)], 1)
  {
    var t := [Goto("about:blank")];
    assert Iteration(task, host, 0, t) == Continue([Goto(url)]);
    assert t + [Goto(url)] == [Goto("about:blank"), Goto(url)];
  }

  // ---------------------------------------------------------------------------
  // The imperative loop
  // ---------------------------------------------------------------------------

  /** The browser page: it records every command it is sent. */
  class Page {
    var commands: seq<Command>

    constructor()
      ensures commands == []
    {
      commands := [];
    }

    method Goto(url: string)
      modifies this
      ensures commands == old(commands) + [Command.Goto(url)]
    {
      commands := commands + [Command.Goto(url)];
    }

    method Type(selector: string, text: string)
      modifies this
      ensures commands == old(commands) + [TypeInto(selector, text)]
    {
      commands := commands + [TypeInto(selector, text)];
    }

    method Press(selector: string, key: string)
      modifies this
      ensures commands == old(commands) + [Command.Press(selector, key)]
    {
      commands := commands + [Command.Press(selector, key)];
    }

    method Click(selector: string)
      modifies this
      ensures commands == old(commands) + [Command.Click(selector)]
    {
      commands := commands + [Command.Click(selector)];
    }

    /** `page.inner_text(selector)`: `innerText` is the host's view of the
        text the page shows after the commands received so far. */
    method InnerText(selector: string, innerText: seq<Command> -> string) returns (s: string)
      modifies this
      ensures s == innerText(old(commands))
      ensures commands == old(commands) + [ReadText(selector)]
    {
      s := innerText(commands);
      commands := commands + [ReadText(selector)];
    }
  }

  /** Sends the page the commands of a non-terminal decision, or reads its
      body text for summarize. */
  method Perform(page: Page, decision: Decision, innerText: seq<Command> -> string) returns (text: string)
    modifies page
    ensures page.commands == old(page.commands) + Effects(decision)
    ensures decision.Summarize? ==> text == innerText(old(page.commands))
  {
    text := "";
    match decision {
      case Navigate(url) =>
        page.Goto(url);
      case TypeText(selector, typed, pressEnter) =>
        page.Type(selector, typed);
        if pressEnter {
          page.Press(selector, "Enter");
        }
      case ClickOn(selector) =>
        page.Click(selector);
      case Summarize =>
        text := page.InnerText("body", innerText);
      case _ =>
    }
  }

  class Agent {
    const task: string
    const config: AgentConfig

    constructor(task: string, config: AgentConfig)
      ensures this.task == task && this.config == config
    {
      this.task := task;
      this.config := config;
    }

    /** Runs the task on a fresh page; the result and the commands the page
        received are those of `RunSpec`. */
    method Run(host: Host) returns (result: Result<string, Error>, page: Page)
      ensures fresh(page)
      ensures result == RunSpec(task, host, config.maxIterations).outcome
      ensures page.commands == RunSpec(task, host, config.maxIterations).trace
    {
      page := new Page();
      page.Goto("about:blank");
      assert page.commands == [Goto("about:blank")];
      var budget := Budget(config.maxIterations);
      var i := 0;
      while i < budget
        invariant 0 <= i <= budget
        invariant RunFrom(Steps(task, host), budget, i, page.commands) == RunSpec(task, host, config.maxIterations)
      {
        ghost var step := Iteration(task, host, i, page.commands);
        assert Steps(task, host)(i, page.commands) == step;
        var content := host.observe(i, page.commands);
        if content.Failure? {
          return Failure(content.error), page;
        }
        var action := GetNextAction(host.invoke(i, content.value, task), host.loads, host.repr);
        if action.Failure? {
          return Failure(action.error), page;
        }
        var decision := Decide(action.value, host.repr);
        if decision.Finish? {
          return Success(decision.result), page;
        } else if decision.Raise? {
          return Failure(decision.error), page;
        }
        var text := Perform(page, decision, host.innerText);
        if decision.Summarize? {
          return Success(text), page;
        }
        i := i + 1;
      }
      result := Success(MaxIterationsReached);
    }
  }
}
