/**
 * The agent executor (agents/initialize.go): a bounded plan/act/observe
 * loop. Each iteration asks the agent to plan; a plan either finishes the
 * call or proposes actions, which are dispatched in order to tools looked
 * up by upper-cased name; every executed action is appended to the step
 * history that the next plan sees.
 */
module Agents {
  import opened Wrappers
  import opened Schema

  /** The default iteration bound an executor copies at construction. */
  const DefaultMaxIterations := 5

  /** The reserved output key under which the step history is returned (declared beside the executor). */
  const IntermediateStepsOutputKey := "intermediateSteps"

  const ZeroShotReactDescription := "zeroShotReactDescription"
  const ConversationalReactDescription := "conversationalReactDescription"

  /** Which agent constructor Initialize picks. */
  datatype AgentKind = OneShotAgent | ConversationalAgent

  /** Initialize's dispatch on the agent type. */
  function Initialize(agentType: string): (r: Result<AgentKind, Error>)
    ensures r == Success(OneShotAgent) <==> agentType == ZeroShotReactDescription
    ensures r == Success(ConversationalAgent) <==> agentType == ConversationalReactDescription
    ensures r.Failure? ==> r.error == UnknownAgentType
  {
    if agentType == ZeroShotReactDescription then Success(OneShotAgent)
    else if agentType == ConversationalReactDescription then Success(ConversationalAgent)
    else Failure(UnknownAgentType)
  }

  /** Upper-casing of one character (ASCII letters only). */
  function UpperChar(ch: char): (r: char)
    ensures 'a' <= ch <= 'z' ==> r as int == ch as int - 32
    ensures !('a' <= ch <= 'z') ==> r == ch
  {
    if 'a' <= ch <= 'z' then (ch as int - 32) as char else ch
  }

  /** strings.ToUpper, restricted to ASCII letters. */
  function Upper(s: string): (r: string)
    ensures |r| == |s|
    ensures forall i :: 0 <= i < |s| ==> r[i] == UpperChar(s[i])
  {
    seq(|s|, i requires 0 <= i < |s| => UpperChar(s[i]))
  }

  /** The result of Agent.Plan: actions, or a finish, or an error. */
  datatype PlanResult = PlanResult(actions: seq<AgentAction>, finish: Option<AgentFinish>, err: Option<Error>)

  /**
   * An agent: its tools, and its planner as an oracle of the number of
   * earlier plans, the step history and the string inputs.
   */
  datatype Agent = Agent(tools: seq<Tool>, plan: (nat, seq<AgentStep>, map<string, string>) -> PlanResult)

  /** The executor's parser-error handler, with an optional formatter of the error text. */
  datatype ParserErrorHandler = ParserErrorHandler(formatter: Option<string -> string>)

  datatype ActionOutcome = ActionOutcome(steps: seq<AgentStep>, err: Option<Error>, events: seq<Event>)
  datatype IterationOutcome = IterationOutcome(steps: seq<AgentStep>, finish: Option<Values>, err: Option<Error>, events: seq<Event>)
  datatype ExecOutcome = ExecOutcome(values: Option<Values>, err: Option<Error>, trace: seq<Event>)

  /** The name-to-tool map built left to right, so a later tool replaces an earlier one with the same key. */
  function ToolIndex(tools: seq<Tool>): map<string, Tool>
    decreases |tools|
  {
    if tools == [] then map[]
    else
      var last := tools[|tools| - 1];
      ToolIndex(tools[..|tools| - 1])[Upper(last.name) := last]
  }

  /** getNameToTool's result: nil for no tools. */
  function NameToTool(tools: seq<Tool>): Option<map<string, Tool>> {
    if |tools| == 0 then None else Some(ToolIndex(tools))
  }

  /** `tool, ok := nameToTool[key]` on a map that may be nil. */
  function Lookup(nameToTool: Option<map<string, Tool>>, key: string): Option<Tool> {
    if nameToTool.Some? && key in nameToTool.value then Some(nameToTool.value[key]) else None
  }

  /** The keys of the tool map are exactly the upper-cased tool names. */
  lemma {:induction false} ToolIndexKeys(tools: seq<Tool>)
    ensures ToolIndex(tools).Keys == set t | t in tools :: Upper(t.name)
    decreases |tools|
  {
    if tools != [] {
      var init := tools[..|tools| - 1];
      ToolIndexKeys(init);
      assert tools == init + [tools[|tools| - 1]];
      assert forall t :: t in tools <==> t in init || t == tools[|tools| - 1];
    }
  }

  /**
   * Every entry of the tool map is the LAST tool whose upper-cased name
   * is its key; the lemma returns that tool's position.
   */
  lemma {:induction false} ToolIndexLaterWins(tools: seq<Tool>, k: string) returns (i: nat)
    requires k in ToolIndex(tools)
    ensures i < |tools| && ToolIndex(tools)[k] == tools[i] && Upper(tools[i].name) == k
    ensures forall j :: i < j < |tools| ==> Upper(tools[j].name) != k
    decreases |tools|
  {
    var n := |tools|;
    var init := tools[..n - 1];
    if Upper(tools[n - 1].name) != k {
      i := ToolIndexLaterWins(init, k);
      assert tools[i] == init[i];
      assert forall j :: i < j < n - 1 ==> tools[j] == init[j];
    } else {
      i := n - 1;
    }
  }

  /** Every tool is reachable under its upper-cased name unless a later tool takes that name. */
  lemma {:induction false} ToolIndexReachable(tools: seq<Tool>, i: nat)
    requires i < |tools|
    requires forall j :: i < j < |tools| ==> Upper(tools[j].name) != Upper(tools[i].name)
    ensures Lookup(NameToTool(tools), Upper(tools[i].name)) == Some(tools[i])
    decreases |tools|
  {
    var n := |tools|;
    if i < n - 1 {
      var init := tools[..n - 1];
      assert init[i] == tools[i];
      ToolIndexReachable(init, i);
    }
  }

  /** getNameToTool. */
  method GetNameToTool(tools: seq<Tool>) returns (nameToTool: Option<map<string, Tool>>)
    ensures nameToTool == NameToTool(tools)
  {
    if |tools| == 0 {
      return None;
    }
    var m: map<string, Tool> := map[];
    for i := 0 to |tools|
      invariant m == ToolIndex(tools[..i])
    {
      assert tools[..i + 1][..i] == tools[..i];
      m := m[Upper(tools[i].name) := tools[i]];
    }
    assert tools[..|tools|] == tools;
    return Some(m);
  }

  /** Every caller input is a string. */
  predicate AllStrings(inputValues: Values) {
    forall k :: k in inputValues ==> inputValues[k].Str?
  }

  /** The caller inputs as strings. */
  function StringInputs(inputValues: Values): (r: map<string, string>)
    requires AllStrings(inputValues)
    ensures r.Keys == inputValues.Keys
    ensures forall k :: k in r ==> inputValues[k] == Str(r[k])
  {
    map k | k in inputValues :: inputValues[k].s
  }

  /**
   * inputsToString: all or nothing. Keys are visited in map order, which Go
   * leaves unspecified; a non-string value stops the conversion with an
   * error naming its key.
   */
  method InputsToString(inputValues: Values) returns (inputs: Option<map<string, string>>, err: Option<Error>)
    ensures err.None? <==> AllStrings(inputValues)
    ensures err.None? ==> inputs == Some(StringInputs(inputValues))
    ensures err.Some? ==> && inputs.None? && err.value.ExecutorInputNotString?
                          && err.value.key in inputValues && !inputValues[err.value.key].Str?
  {
    var result: map<string, string> := map[];
    var todo := inputValues.Keys;
    while todo != {}
      invariant todo <= inputValues.Keys
      invariant result.Keys == inputValues.Keys - todo
      invariant forall k :: k in result ==> inputValues[k] == Str(result[k])
      decreases todo
    {
      var k :| k in todo;
      if !inputValues[k].Str? {
        return None, Some(ExecutorInputNotString(k));
      }
      result := result[k := inputValues[k].s];
      todo := todo - {k};
    }
    assert result == StringInputs(inputValues);
    return Some(result), None;
  }

  /** The observation of a recovered parse failure. */
  function ParseObservation(handler: ParserErrorHandler, text: string): string {
    match handler.formatter
    case None => text
    case Some(f) => f(text)
  }

  /** The observation for an action that names no known tool. */
  function InvalidToolObservation(tool: string): string {
    tool + " is not a valid tool, try another one"
  }

  /** The number of calls to the planner in a trace. */
  function PlanCalls(trace: seq<Event>): nat {
    if trace == [] then 0 else (if trace[0].PlanCall? then 1 else 0) + PlanCalls(trace[1..])
  }

  lemma {:induction false} PlanCallsAppend(a: seq<Event>, b: seq<Event>)
    ensures PlanCalls(a + b) == PlanCalls(a) + PlanCalls(b)
  {
    if a == [] {
      assert a + b == b;
    } else {
      assert (a + b)[0] == a[0];
      assert (a + b)[1..] == a[1..] + b;
      PlanCallsAppend(a[1..], b);
    }
  }

  lemma {:induction false} NoPlanCalls(t: seq<Event>)
    requires forall e :: e in t ==> !e.PlanCall?
    ensures PlanCalls(t) == 0
  {
    if t != [] {
      assert forall e :: e in t[1..] ==> e in t;
      NoPlanCalls(t[1..]);
    }
  }

  /** An executor: an agent, the tools' behaviour as an oracle, and its configuration. */
  datatype Executor = Executor(
    agent: Agent,
    invoke: (Tool, string) -> Result<string, Error>,   // Tool.Call(ctx, input)
    hasHandler: bool,
    errorHandler: Option<ParserErrorHandler>,
    maxIterations: int,
    returnIntermediateSteps: bool)
  {
    /** A callbacks-handler notification, or none without a handler. */
    function Notify(e: Event): seq<Event> {
      if hasHandler then [e] else []
    }

    /** getReturn: the finish's values, plus the step history under the reserved key when asked for. */
    function GetReturn(returnValues: Values, steps: seq<AgentStep>): (r: Values)
      ensures returnIntermediateSteps ==>
        r.Keys == returnValues.Keys + {IntermediateStepsOutputKey} && r[IntermediateStepsOutputKey] == Steps(steps)
      ensures !returnIntermediateSteps ==> r == returnValues
      ensures forall k :: k in returnValues && k != IntermediateStepsOutputKey ==> r[k] == returnValues[k]
    {
      if returnIntermediateSteps then returnValues[IntermediateStepsOutputKey := Steps(steps)] else returnValues
    }

    /** doAction: notify, look the tool up by upper-cased name, call it. */
    function DoAction(steps: seq<AgentStep>, nameToTool: Option<map<string, Tool>>, action: AgentAction): (r: ActionOutcome)
      ensures r.err.None? ==> |r.steps| == |steps| + 1 && r.steps[..|steps|] == steps && r.steps[|steps|].action == action
      ensures r.err.Some? ==> r.steps == []
      ensures hasHandler ==> |r.events| > 0 && r.events[0] == AgentActionEvent(action)
    {
      var t := Notify(AgentActionEvent(action));
      match Lookup(nameToTool, Upper(action.tool))
      case None =>
        ActionOutcome(steps + [AgentStep(action, InvalidToolObservation(action.tool))], None, t)
      case Some(tool) =>
        var t' := t + [ToolCall(tool, action.toolInput)];
        match invoke(tool, action.toolInput)
        case Failure(e) => ActionOutcome([], Some(e), t')
        case Success(observation) => ActionOutcome(steps + [AgentStep(action, observation)], None, t')
    }

    /** The actions of one plan, processed in order until a tool fails. */
    function ActionsResult(steps: seq<AgentStep>, nameToTool: Option<map<string, Tool>>, actions: seq<AgentAction>): ActionOutcome
      decreases |actions|
    {
      if actions == [] then ActionOutcome(steps, None, [])
      else
        var a := DoAction(steps, nameToTool, actions[0]);
        if a.err.Some? then a
        else
          var rest := ActionsResult(a.steps, nameToTool, actions[1..]);
          ActionOutcome(rest.steps, rest.err, a.events + rest.events)
    }

    /** One action of ActionsResult, with the events so far in front. */
    lemma ActionsUnfold(steps: seq<AgentStep>, nameToTool: Option<map<string, Tool>>, actions: seq<AgentAction>,
                        prefix: seq<Event>)
      requires actions != []
      ensures var a := DoAction(steps, nameToTool, actions[0]);
        var here := ActionsResult(steps, nameToTool, actions);
        var next := ActionsResult(a.steps, nameToTool, actions[1..]);
        && (a.err.Some? ==> ActionOutcome(here.steps, here.err, prefix + here.events) == ActionOutcome(a.steps, a.err, prefix + a.events))
        && (a.err.None? ==>
              ActionOutcome(here.steps, here.err, prefix + here.events) == ActionOutcome(next.steps, next.err, (prefix + a.events) + next.events))
    {
      var a := DoAction(steps, nameToTool, actions[0]);
      var next := ActionsResult(a.steps, nameToTool, actions[1..]);
      assert prefix + (a.events + next.events) == (prefix + a.events) + next.events;
    }

    /** What doIteration does: plan once, then recover, fail, finish or act. */
    function IterationResult(i: nat, steps: seq<AgentStep>, nameToTool: Option<map<string, Tool>>,
                             inputs: map<string, string>): IterationOutcome
    {
      var p := agent.plan(i, steps, inputs);
      var t := [PlanCall(steps)];
      if p.err.Some? && p.err.value.UnableToParseOutput? && errorHandler.Some? then
        var observation := ParseObservation(errorHandler.value, ErrorText(p.err.value));
        IterationOutcome(steps + [AgentStep(EmptyAction, observation)], None, None, t)
      else if p.err.Some? then IterationOutcome(steps, None, p.err, t)
      else if |p.actions| == 0 && p.finish.None? then IterationOutcome(steps, None, Some(AgentNoReturn), t)
      else if p.finish.Some? then
        IterationOutcome(steps, Some(GetReturn(p.finish.value.returnValues, steps)), None,
                         t + Notify(AgentFinishEvent(p.finish.value.returnValues)))
      else
        var a := ActionsResult(steps, nameToTool, p.actions);
        IterationOutcome(a.steps, None, a.err, t + a.events)
    }

    /** doIteration. */
    method DoIteration(i: nat, steps0: seq<AgentStep>, nameToTool: Option<map<string, Tool>>,
                       inputs: map<string, string>)
      returns (steps: seq<AgentStep>, finish: Option<Values>, err: Option<Error>, ghost events: seq<Event>)
      ensures steps == IterationResult(i, steps0, nameToTool, inputs).steps
      ensures finish == IterationResult(i, steps0, nameToTool, inputs).finish
      ensures err == IterationResult(i, steps0, nameToTool, inputs).err
      ensures events == IterationResult(i, steps0, nameToTool, inputs).events
    {
      var p := agent.plan(i, steps0, inputs);
      events := [PlanCall(steps0)];
      steps := steps0;
      if p.err.Some? && p.err.value.UnableToParseOutput? && errorHandler.Some? {
        var observation := ErrorText(p.err.value);
        if errorHandler.value.formatter.Some? {
          observation := errorHandler.value.formatter.value(observation);
        }
        steps := steps + [AgentStep(EmptyAction, observation)];
        return steps, None, None, events;
      }
      if p.err.Some? {
        return steps, None, p.err, events;
      }
      if |p.actions| == 0 && p.finish.None? {
        return steps, None, Some(AgentNoReturn), events;
      }
      if p.finish.Some? {
        events := events + Notify(AgentFinishEvent(p.finish.value.returnValues));
        return steps, Some(GetReturn(p.finish.value.returnValues, steps)), None, events;
      }
      assert IterationResult(i, steps0, nameToTool, inputs).events == events + ActionsResult(steps0, nameToTool, p.actions).events;
      ghost var acts: seq<Event> := [];
      for k := 0 to |p.actions|
        invariant var rest := ActionsResult(steps, nameToTool, p.actions[k..]);
          ActionsResult(steps0, nameToTool, p.actions) == ActionOutcome(rest.steps, rest.err, acts + rest.events)
      {
        var a := DoAction(steps, nameToTool, p.actions[k]);
        assert p.actions[k..][0] == p.actions[k] && p.actions[k..][1..] == p.actions[k + 1..];
        ActionsUnfold(steps, nameToTool, p.actions[k..], acts);
        steps := a.steps;
        acts := acts + a.events;
        if a.err.Some? {
          return steps, None, a.err, events + acts;
        }
      }
      return steps, None, None, events + acts;
    }

    /** The executor loop from iteration i on, with the step history so far. */
    function LoopResult(i: nat, steps: seq<AgentStep>, nameToTool: Option<map<string, Tool>>,
                        inputs: map<string, string>): ExecOutcome
      decreases maxIterations - i
    {
      if i < maxIterations then
        var it := IterationResult(i, steps, nameToTool, inputs);
        if it.finish.Some? || it.err.Some? then ExecOutcome(it.finish, it.err, it.events)
        else
          var rest := LoopResult(i + 1, it.steps, nameToTool, inputs);
          ExecOutcome(rest.values, rest.err, it.events + rest.trace)
      else
        ExecOutcome(Some(GetReturn(map[], steps)), Some(NotFinished),
                    Notify(AgentFinishEvent(map["output" := Str(NotFinishedText)])))
    }

    /** One round of LoopResult, with the trace so far in front. */
    lemma LoopUnfold(i: nat, steps: seq<AgentStep>, nameToTool: Option<map<string, Tool>>,
                     inputs: map<string, string>, prefix: seq<Event>)
      requires i < maxIterations
      ensures var it := IterationResult(i, steps, nameToTool, inputs);
        var here := LoopResult(i, steps, nameToTool, inputs);
        var next := LoopResult(i + 1, it.steps, nameToTool, inputs);
        && ((it.finish.Some? || it.err.Some?) ==>
              ExecOutcome(here.values, here.err, prefix + here.trace) == ExecOutcome(it.finish, it.err, prefix + it.events))
        && (!(it.finish.Some? || it.err.Some?) ==>
              ExecOutcome(here.values, here.err, prefix + here.trace) == ExecOutcome(next.values, next.err, (prefix + it.events) + next.trace))
    {
      var it := IterationResult(i, steps, nameToTool, inputs);
      var next := LoopResult(i + 1, it.steps, nameToTool, inputs);
      assert prefix + (it.events + next.trace) == (prefix + it.events) + next.trace;
    }

    /** What Call does once the inputs are strings. */
    function Execute(inputs: map<string, string>): ExecOutcome {
      LoopResult(0, [], NameToTool(agent.tools), inputs)
    }

    /** Executor.Call. */
    method Call(inputValues: Values) returns (out: Option<Values>, err: Option<Error>, ghost trace: seq<Event>)
      ensures AllStrings(inputValues) ==>
        out == Execute(StringInputs(inputValues)).values && err == Execute(StringInputs(inputValues)).err
      ensures !AllStrings(inputValues) ==>
        && out.None? && err.Some? && err.value.ExecutorInputNotString?
        && err.value.key in inputValues && !inputValues[err.value.key].Str?
      ensures trace == if AllStrings(inputValues) then Execute(StringInputs(inputValues)).trace else []
    {
      var inputs, e := InputsToString(inputValues);
      if e.Some? {
        return None, e, [];
      }
      var nameToTool := GetNameToTool(agent.tools);
      var steps: seq<AgentStep> := [];
      trace := [];
      var i: nat := 0;
      while i < maxIterations
        invariant var rest := LoopResult(i, steps, nameToTool, inputs.value);
          Execute(inputs.value) == ExecOutcome(rest.values, rest.err, trace + rest.trace)
        decreases maxIterations - i
      {
        var finish;
        ghost var events;
        LoopUnfold(i, steps, nameToTool, inputs.value, trace);
        steps, finish, err, events := DoIteration(i, steps, nameToTool, inputs.value);
        trace := trace + events;
        if finish.Some? || err.Some? {
          return finish, err, trace;
        }
        i := i + 1;
      }
      trace := trace + Notify(AgentFinishEvent(map["output" := Str(NotFinishedText)]));
      return Some(GetReturn(map[], steps)), Some(NotFinished), trace;
    }
  }
}
