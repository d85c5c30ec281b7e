/**
 * What the executor loop of agents/initialize.go promises, proved about the
 * functions that Executor.Call and Executor.DoIteration are verified against.
 */
module ExecutorProperties {
  import opened Wrappers
  import opened Schema
  import opened Agents

  /** The action names a known tool and that tool's call fails. */
  predicate ToolFails(e: Executor, nameToTool: Option<map<string, Tool>>, a: AgentAction) {
    Lookup(nameToTool, Upper(a.tool)).Some? && e.invoke(Lookup(nameToTool, Upper(a.tool)).value, a.toolInput).Failure?
  }

  /** The step an action that does not fail appends. */
  function ExpectedStep(e: Executor, nameToTool: Option<map<string, Tool>>, a: AgentAction): AgentStep
    requires !ToolFails(e, nameToTool, a)
  {
    match Lookup(nameToTool, Upper(a.tool))
    case None => AgentStep(a, InvalidToolObservation(a.tool))
    case Some(tool) => AgentStep(a, e.invoke(tool, a.toolInput).value)
  }

  /** Upper-casing is idempotent, so looking up an already upper-cased name finds the same tool. */
  lemma UpperIdempotent(s: string)
    ensures Upper(Upper(s)) == Upper(s)
  {
  }

  /** Dispatch is case-insensitive: names equal up to case reach the same tool. */
  lemma SearchIsCaseInsensitive(id: nat)
    ensures var nameToTool := NameToTool([Tool("Search", id)]);
      && Lookup(nameToTool, Upper("search")) == Some(Tool("Search", id))
      && Lookup(nameToTool, Upper("SEARCH")) == Some(Tool("Search", id))
      && Lookup(nameToTool, Upper("Search")) == Some(Tool("Search", id))
  {
    assert Upper("search") == "SEARCH";
    assert Upper("Search") == "SEARCH";
    assert Upper("SEARCH") == "SEARCH";
    assert [Tool("Search", id)][..0] == [];
  }

  /** An unknown tool does not fail the call: it appends one step saying so and calls no tool. */
  lemma UnknownToolIsObserved(e: Executor, steps: seq<AgentStep>, nameToTool: Option<map<string, Tool>>, action: AgentAction)
    requires Lookup(nameToTool, Upper(action.tool)).None?
    ensures var r := e.DoAction(steps, nameToTool, action);
      && r.err.None?
      && r.steps == steps + [AgentStep(action, action.tool + " is not a valid tool, try another one")]
      && forall ev :: ev in r.events ==> !ev.ToolCall?
  {
  }

  /**
   * A known tool is called with the action's input; on success one step
   * {action, observation} is appended, on failure the error is returned
   * with a nil step list.
   */
  lemma KnownToolIsCalled(e: Executor, steps: seq<AgentStep>, nameToTool: Option<map<string, Tool>>, action: AgentAction)
    requires Lookup(nameToTool, Upper(action.tool)).Some?
    ensures var tool := Lookup(nameToTool, Upper(action.tool)).value;
      var res := e.invoke(tool, action.toolInput);
      var r := e.DoAction(steps, nameToTool, action);
      && ToolCall(tool, action.toolInput) in r.events
      && (res.Success? ==> r.err.None? && r.steps == steps + [AgentStep(action, res.value)])
      && (res.Failure? ==> r.err == Some(res.error) && r.steps == [])
  {
  }

  /** doAction notifies about the action and calls at most a tool; it never plans. */
  lemma DoActionEvents(e: Executor, steps: seq<AgentStep>, nameToTool: Option<map<string, Tool>>, action: AgentAction)
    ensures forall ev :: ev in e.DoAction(steps, nameToTool, action).events ==> ev.AgentActionEvent? || ev.ToolCall?
  {
  }

  /** The actions of one plan notify and call tools, and never plan. */
  lemma {:induction false} ActionsEvents(e: Executor, steps: seq<AgentStep>, nameToTool: Option<map<string, Tool>>,
                                         actions: seq<AgentAction>)
    ensures forall ev :: ev in e.ActionsResult(steps, nameToTool, actions).events ==> ev.AgentActionEvent? || ev.ToolCall?
    decreases |actions|
  {
    if actions != [] {
      var a := e.DoAction(steps, nameToTool, actions[0]);
      DoActionEvents(e, steps, nameToTool, actions[0]);
      if a.err.None? {
        ActionsEvents(e, a.steps, nameToTool, actions[1..]);
      }
    }
  }

  /**
   * The actions of one plan are processed in order: when no tool fails,
   * each appends exactly its own step after the earlier history.
   */
  lemma {:induction false} ActionsInOrder(e: Executor, steps: seq<AgentStep>, nameToTool: Option<map<string, Tool>>,
                                          actions: seq<AgentAction>)
    ensures var r := e.ActionsResult(steps, nameToTool, actions);
      r.err.None? ==>
        && |r.steps| == |steps| + |actions| && r.steps[..|steps|] == steps
        && forall j :: 0 <= j < |actions| ==>
             !ToolFails(e, nameToTool, actions[j]) && r.steps[|steps| + j] == ExpectedStep(e, nameToTool, actions[j])
    decreases |actions|
  {
    if actions != [] {
      var a := e.DoAction(steps, nameToTool, actions[0]);
      if a.err.None? {
        var tail := actions[1..];
        ActionsInOrder(e, a.steps, nameToTool, tail);
        var r := e.ActionsResult(a.steps, nameToTool, tail);
        assert !ToolFails(e, nameToTool, actions[0]);
        assert a.steps == steps + [ExpectedStep(e, nameToTool, actions[0])];
        if r.err.None? {
          assert r.steps[..|steps|] == steps by {
            assert r.steps[..|a.steps|][..|steps|] == r.steps[..|steps|];
          }
          forall j | 0 <= j < |actions|
            ensures !ToolFails(e, nameToTool, actions[j]) && r.steps[|steps| + j] == ExpectedStep(e, nameToTool, actions[j])
          {
            if j == 0 {
              assert r.steps[|steps|] == r.steps[..|a.steps|][|steps|];
            } else {
              assert actions[j] == tail[j - 1];
            }
          }
        }
      }
    }
  }

  /** The first action whose tool fails aborts the plan with that error and a nil step list. */
  lemma {:induction false} ToolFailureAborts(e: Executor, steps: seq<AgentStep>, nameToTool: Option<map<string, Tool>>,
                                             actions: seq<AgentAction>)
    ensures var r := e.ActionsResult(steps, nameToTool, actions);
      r.err.Some? ==>
        && r.steps == []
        && exists j :: && 0 <= j < |actions| && ToolFails(e, nameToTool, actions[j])
                       && r.err == Some(e.invoke(Lookup(nameToTool, Upper(actions[j].tool)).value, actions[j].toolInput).error)
                       && forall l :: 0 <= l < j ==> !ToolFails(e, nameToTool, actions[l])
    decreases |actions|
  {
    if actions != [] {
      var a := e.DoAction(steps, nameToTool, actions[0]);
      if a.err.None? {
        var tail := actions[1..];
        ToolFailureAborts(e, a.steps, nameToTool, tail);
        var r := e.ActionsResult(a.steps, nameToTool, tail);
        if r.err.Some? {
          var j :| && 0 <= j < |tail| && ToolFails(e, nameToTool, tail[j])
                   && r.err == Some(e.invoke(Lookup(nameToTool, Upper(tail[j].tool)).value, tail[j].toolInput).error)
                   && forall l :: 0 <= l < j ==> !ToolFails(e, nameToTool, tail[l]);
          assert actions[j + 1] == tail[j];
          assert forall l :: 0 < l < j + 1 ==> actions[l] == tail[l - 1];
          assert !ToolFails(e, nameToTool, actions[0]);
        }
      } else {
        assert ToolFails(e, nameToTool, actions[0]);
      }
    }
  }

  /**
   * Nothing after the first failing action runs: the outcome is that of the
   * actions up to and including it, so later actions are neither announced
   * nor passed to a tool.
   */
  lemma {:induction false} ToolFailureStops(e: Executor, steps: seq<AgentStep>, nameToTool: Option<map<string, Tool>>,
                                            actions: seq<AgentAction>, j: nat)
    requires j < |actions| && ToolFails(e, nameToTool, actions[j])
    requires forall l :: 0 <= l < j ==> !ToolFails(e, nameToTool, actions[l])
    ensures e.ActionsResult(steps, nameToTool, actions) == e.ActionsResult(steps, nameToTool, actions[..j + 1])
    ensures e.ActionsResult(steps, nameToTool, actions).err.Some?
    decreases j
  {
    var a := e.DoAction(steps, nameToTool, actions[0]);
    assert actions[..j + 1][0] == actions[0];
    if j > 0 {
      assert !ToolFails(e, nameToTool, actions[0]);
      assert a.err.None?;
      var tail := actions[1..];
      assert forall l :: 0 <= l < j - 1 ==> tail[l] == actions[l + 1];
      ToolFailureStops(e, a.steps, nameToTool, tail, j - 1);
      assert actions[..j + 1][1..] == tail[..j];
    }
  }

  /**
   * An unparsable plan with an error handler set is recovered: exactly one
   * step with an empty action whose observation is the (formatted) error
   * text, and no error.
   */
  lemma ParseFailureRecovers(e: Executor, i: nat, steps: seq<AgentStep>, nameToTool: Option<map<string, Tool>>,
                             inputs: map<string, string>)
    requires e.agent.plan(i, steps, inputs).err.Some?
    requires e.agent.plan(i, steps, inputs).err.value.UnableToParseOutput?
    requires e.errorHandler.Some?
    ensures var text := e.agent.plan(i, steps, inputs).err.value.text;
      var observation := if e.errorHandler.value.formatter.Some? then e.errorHandler.value.formatter.value(text) else text;
      var it := e.IterationResult(i, steps, nameToTool, inputs);
      && it.steps == steps + [AgentStep(EmptyAction, observation)]
      && it.finish.None? && it.err.None?
  {
  }

  /**
   * Any other plan error is returned unchanged, and a plan with neither
   * actions nor a finish is ErrAgentNoReturn; neither calls a tool.
   */
  lemma PlanErrorsAreFatal(e: Executor, i: nat, steps: seq<AgentStep>, nameToTool: Option<map<string, Tool>>,
                           inputs: map<string, string>)
    requires var p := e.agent.plan(i, steps, inputs);
      !(p.err.Some? && p.err.value.UnableToParseOutput? && e.errorHandler.Some?)
    ensures var p := e.agent.plan(i, steps, inputs);
      var it := e.IterationResult(i, steps, nameToTool, inputs);
      && (p.err.Some? ==> it.err == p.err && it.finish.None? && it.events == [PlanCall(steps)])
      && (p.err.None? && |p.actions| == 0 && p.finish.None? ==>
            it.err == Some(AgentNoReturn) && it.finish.None? && it.events == [PlanCall(steps)])
  {
  }

  /**
   * A finish ends the iteration with its return values (plus the step
   * history under the reserved key when asked for) and no error; the
   * handler hears AgentFinish.
   */
  lemma FinishEndsIteration(e: Executor, i: nat, steps: seq<AgentStep>, nameToTool: Option<map<string, Tool>>,
                            inputs: map<string, string>)
    requires e.agent.plan(i, steps, inputs).err.None?
    requires e.agent.plan(i, steps, inputs).finish.Some?
    ensures var f := e.agent.plan(i, steps, inputs).finish.value;
      var it := e.IterationResult(i, steps, nameToTool, inputs);
      && it.err.None? && it.finish.Some?
      && (forall k :: k in f.returnValues && k != IntermediateStepsOutputKey ==> it.finish.value[k] == f.returnValues[k])
      && (e.returnIntermediateSteps ==>
            it.finish.value.Keys == f.returnValues.Keys + {IntermediateStepsOutputKey}
            && it.finish.value[IntermediateStepsOutputKey] == Steps(steps))
      && (!e.returnIntermediateSteps ==> it.finish.value == f.returnValues)
      && (e.hasHandler ==> it.events == [PlanCall(steps), AgentFinishEvent(f.returnValues)])
  {
  }

  /**
   * Each iteration plans exactly once, first; one that neither finishes nor
   * fails only appends to the step history, by at least one step.
   */
  lemma IterationPlansOnceAndAppends(e: Executor, i: nat, steps: seq<AgentStep>, nameToTool: Option<map<string, Tool>>,
                                     inputs: map<string, string>)
    ensures var it := e.IterationResult(i, steps, nameToTool, inputs);
      && it.events[0] == PlanCall(steps) && PlanCalls(it.events) == 1
      && (it.finish.None? && it.err.None? ==> |it.steps| > |steps| && it.steps[..|steps|] == steps)
  {
    var p := e.agent.plan(i, steps, inputs);
    var it := e.IterationResult(i, steps, nameToTool, inputs);
    var t := [PlanCall(steps)];
    assert PlanCalls(t) == 1 by { assert t[1..] == []; }
    var rest := it.events[1..];
    assert it.events == t + rest;
    if !(p.err.Some? && p.err.value.UnableToParseOutput? && e.errorHandler.Some?) && p.err.None?
       && !(|p.actions| == 0 && p.finish.None?) && p.finish.None? {
      ActionsInOrder(e, steps, nameToTool, p.actions);
      ActionsEvents(e, steps, nameToTool, p.actions);
    }
    assert forall ev :: ev in rest ==> !ev.PlanCall? by {
      if p.finish.Some? || p.err.Some? || |p.actions| == 0 {
        assert forall ev :: ev in rest ==> ev.AgentFinishEvent?;
      }
    }
    NoPlanCalls(rest);
    PlanCallsAppend(t, rest);
  }

  /** max(0, n) */
  function Budget(n: int): nat {
    if n > 0 then n else 0
  }

  /**
   * The loop plans at most the remaining budget of times; it returns a
   * non-nil map together with an error only when the budget is used up
   * without a finish: ErrNotFinished, a map holding nothing but (when asked
   * for) the step history, and a synthetic AgentFinish whose "output" is
   * ErrNotFinished's text. The other two outcomes, an error with a nil map
   * and the finish's map with no error, are FailureEndsLoop and
   * FinishEndsLoop.
   */
  lemma {:induction false} LoopOutcome(e: Executor, i: nat, steps: seq<AgentStep>, nameToTool: Option<map<string, Tool>>,
                                       inputs: map<string, string>)
    ensures var r := e.LoopResult(i, steps, nameToTool, inputs);
      && PlanCalls(r.trace) <= Budget(e.maxIterations - i)
      && (r.values.None? ==> r.err.Some?)
      && (r.values.Some? && r.err.Some? ==>
            && r.err == Some(NotFinished)
            && PlanCalls(r.trace) == Budget(e.maxIterations - i)
            && r.values.value.Keys == (if e.returnIntermediateSteps then {IntermediateStepsOutputKey} else {})
            && (e.hasHandler ==> r.trace[|r.trace| - 1] == AgentFinishEvent(map["output" := Str(NotFinishedText)])))
    decreases e.maxIterations - i
  {
    var r := e.LoopResult(i, steps, nameToTool, inputs);
    if i < e.maxIterations {
      var it := e.IterationResult(i, steps, nameToTool, inputs);
      IterationPlansOnceAndAppends(e, i, steps, nameToTool, inputs);
      if !(it.finish.Some? || it.err.Some?) {
        var rest := e.LoopResult(i + 1, it.steps, nameToTool, inputs);
        LoopOutcome(e, i + 1, it.steps, nameToTool, inputs);
        PlanCallsAppend(it.events, rest.trace);
        if e.hasHandler && r.values.Some? && r.err.Some? {
          assert r.trace[|r.trace| - 1] == rest.trace[|rest.trace| - 1];
        }
      }
    } else {
      NoPlanCalls(r.trace);
    }
  }

  /**
   * An iteration that fails ends the loop at once: the loop's outcome is
   * that iteration's, with a nil map and no further plan.
   */
  lemma FailureEndsLoop(e: Executor, i: nat, steps: seq<AgentStep>, nameToTool: Option<map<string, Tool>>,
                        inputs: map<string, string>)
    requires i < e.maxIterations
    requires e.IterationResult(i, steps, nameToTool, inputs).err.Some?
    ensures var it := e.IterationResult(i, steps, nameToTool, inputs);
      var r := e.LoopResult(i, steps, nameToTool, inputs);
      && r == ExecOutcome(None, it.err, it.events)
      && PlanCalls(r.trace) == 1
  {
    IterationPlansOnceAndAppends(e, i, steps, nameToTool, inputs);
  }

  /**
   * An iteration that finishes ends the loop at once with the finish's
   * map, no error and no further plan.
   */
  lemma FinishEndsLoop(e: Executor, i: nat, steps: seq<AgentStep>, nameToTool: Option<map<string, Tool>>,
                       inputs: map<string, string>)
    requires i < e.maxIterations
    requires e.IterationResult(i, steps, nameToTool, inputs).err.None?
    requires e.IterationResult(i, steps, nameToTool, inputs).finish.Some?
    ensures var it := e.IterationResult(i, steps, nameToTool, inputs);
      var r := e.LoopResult(i, steps, nameToTool, inputs);
      && r == ExecOutcome(it.finish, None, it.events)
      && PlanCalls(r.trace) == 1
  {
    IterationPlansOnceAndAppends(e, i, steps, nameToTool, inputs);
  }

  /** The executor calls Plan at most MaxIterations times. */
  lemma ExecuteAtMostMaxIterations(e: Executor, inputs: map<string, string>)
    ensures PlanCalls(e.Execute(inputs).trace) <= Budget(e.maxIterations)
  {
    LoopOutcome(e, 0, [], NameToTool(e.agent.tools), inputs);
  }

  /** Every plan proposes one action, always naming an unknown tool. */
  ghost predicate AlwaysUnknownTool(e: Executor, inputs: map<string, string>) {
    forall k: nat, s: seq<AgentStep> {:trigger e.agent.plan(k, s, inputs)} ::
      var p := e.agent.plan(k, s, inputs);
      p.err.None? && p.finish.None? && |p.actions| == 1 && Lookup(NameToTool(e.agent.tools), Upper(p.actions[0].tool)).None?
  }

  /**
   * A planner that always names an unknown tool never aborts the loop: it
   * runs out of iterations, each one having appended one "not a valid tool"
   * step.
   */
  lemma {:induction false} UnknownToolsExhaust(e: Executor, i: nat, steps: seq<AgentStep>, inputs: map<string, string>)
    requires AlwaysUnknownTool(e, inputs)
    ensures var r := e.LoopResult(i, steps, NameToTool(e.agent.tools), inputs);
      && r.err == Some(NotFinished) && r.values.Some?
      && (e.returnIntermediateSteps ==>
            && IntermediateStepsOutputKey in r.values.value
            && var history := r.values.value[IntermediateStepsOutputKey];
            && history.Steps?
            && |history.steps| == |steps| + Budget(e.maxIterations - i)
            && history.steps[..|steps|] == steps
            && forall j :: |steps| <= j < |history.steps| ==>
                 history.steps[j].observation == InvalidToolObservation(history.steps[j].action.tool))
    decreases e.maxIterations - i
  {
    var nameToTool := NameToTool(e.agent.tools);
    if i < e.maxIterations {
      var p := e.agent.plan(i, steps, inputs);
      var a := e.DoAction(steps, nameToTool, p.actions[0]);
      assert a.steps == steps + [AgentStep(p.actions[0], InvalidToolObservation(p.actions[0].tool))];
      assert p.actions[1..] == [];
      assert e.ActionsResult(a.steps, nameToTool, p.actions[1..]) == ActionOutcome(a.steps, None, []);
      var it := e.IterationResult(i, steps, nameToTool, inputs);
      assert it.steps == a.steps && it.finish.None? && it.err.None?;
      UnknownToolsExhaust(e, i + 1, it.steps, inputs);
      if e.returnIntermediateSteps {
        var r := e.LoopResult(i + 1, it.steps, nameToTool, inputs);
        var history := r.values.value[IntermediateStepsOutputKey].steps;
        assert history[..|steps|] == history[..|it.steps|][..|steps|];
        assert history[|steps|] == history[..|it.steps|][|steps|];
      }
    }
  }

  /**
   * The scenario of a planner that proposes one succeeding action for each
   * of the first MaxIterations-1 plans and finishes on the last: the call
   * returns the finish's values without error, after MaxIterations-1 steps.
   */
  lemma {:induction false} OneActionThenFinish(e: Executor, f: AgentFinish, inputs: map<string, string>,
                                               i: nat, steps: seq<AgentStep>)
    requires e.maxIterations >= 1 && i <= e.maxIterations - 1 && |steps| == i
    requires forall k: nat, s: seq<AgentStep> {:trigger e.agent.plan(k, s, inputs)} :: k < e.maxIterations - 1 ==>
      var p := e.agent.plan(k, s, inputs);
      p.err.None? && p.finish.None? && |p.actions| == 1 && !ToolFails(e, NameToTool(e.agent.tools), p.actions[0])
    requires forall s: seq<AgentStep> {:trigger e.agent.plan(e.maxIterations - 1, s, inputs)} ::
      e.agent.plan(e.maxIterations - 1, s, inputs) == PlanResult([], Some(f), None)
    ensures var r := e.LoopResult(i, steps, NameToTool(e.agent.tools), inputs);
      && r.err.None? && r.values.Some?
      && PlanCalls(r.trace) == e.maxIterations - i
      && (forall k :: k in f.returnValues && k != IntermediateStepsOutputKey ==>
            k in r.values.value && r.values.value[k] == f.returnValues[k])
      && (!e.returnIntermediateSteps ==> r.values.value == f.returnValues)
      && (e.returnIntermediateSteps ==>
            IntermediateStepsOutputKey in r.values.value
            && r.values.value[IntermediateStepsOutputKey].Steps?
            && |r.values.value[IntermediateStepsOutputKey].steps| == e.maxIterations - 1)
    decreases e.maxIterations - i
  {
    var nameToTool := NameToTool(e.agent.tools);
    var it := e.IterationResult(i, steps, nameToTool, inputs);
    IterationPlansOnceAndAppends(e, i, steps, nameToTool, inputs);
    if i < e.maxIterations - 1 {
      var p := e.agent.plan(i, steps, inputs);
      ActionsInOrder(e, steps, nameToTool, p.actions);
      OneActionThenFinish(e, f, inputs, i + 1, it.steps);
      PlanCallsAppend(it.events, e.LoopResult(i + 1, it.steps, nameToTool, inputs).trace);
    }
  }
}
