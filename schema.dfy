/**
 * The shared records of the orchestration core: agent actions and steps,
 * the dynamically typed values of chain input and output maps, the errors
 * the core raises, and the observable events of one invocation.
 */
module Schema {
  import opened Wrappers

  /** One decision of an agent to call a tool. */
  datatype AgentAction = AgentAction(tool: string, toolInput: string, log: string)

  /** The zero AgentAction, used for the step that records a recovered parse failure. */
  const EmptyAction := AgentAction("", "", "")

  /** One executed action and what it produced. */
  datatype AgentStep = AgentStep(action: AgentAction, observation: string)

  /** A Go `any` stored in a chain map: a string, a step history, or anything else. */
  datatype Value = Str(s: string) | Steps(steps: seq<AgentStep>) | Opaque(id: nat)

  type Values = map<string, Value>

  /** The terminal answer of a plan. */
  datatype AgentFinish = AgentFinish(returnValues: Values)

  /** A tool the agent may call; `id` stands for its identity (its behaviour is an oracle). */
  datatype Tool = Tool(name: string, id: nat)

  /** The errors of the core; `External` is any error a collaborator returns. */
  datatype Error =
    | MissingInputValues(key: string)      // ErrInvalidInputValues wrapping ErrMissingInputValues
    | InvalidOutputValues(key: string)     // ErrInvalidOutputValues
    | MultipleInputsInRun
    | MultipleOutputsInRun
    | WrongOutputTypeInRun
    | ExecutorInputNotString(key: string)
    | UnableToParseOutput(text: string)    // any error that wraps ErrUnableToParseOutput
    | AgentNoReturn
    | NotFinished
    | UnknownAgentType
    | EmptyResponse                        // a model response without choices
    | External(text: string)

  /** The text of ErrNotFinished (declared beside the executor, outside this model). */
  const NotFinishedText := "agent not finished before max iterations"

  /** err.Error() for the errors whose text the core uses. */
  function ErrorText(e: Error): (t: string)
    ensures e.UnableToParseOutput? ==> t == e.text
    ensures e.External? ==> t == e.text
  {
    match e
    case UnableToParseOutput(text) => text
    case External(text) => text
    case NotFinished => NotFinishedText
    case EmptyResponse => "empty response from model"
    case _ => ""
  }

  /**
   * What one invocation does that can be observed from outside: calls into
   * collaborators (memory, the chain body, the agent's planner, tools) and
   * callback-handler notifications.
   */
  datatype Event =
    | LoadMemory(inputs: Values)
    | ChainStart(inputs: Values)
    | ChainBody(inputs: Values)
    | ChainError(err: Error)
    | ChainEnd(outputs: Option<Values>)
    | SaveContext(inputs: Values, outputs: Option<Values>)
    | PlanCall(steps: seq<AgentStep>)
    | AgentActionEvent(action: AgentAction)
    | ToolCall(tool: Tool, input: string)
    | AgentFinishEvent(returnValues: Values)

  /** The events delivered to a callbacks handler. */
  predicate IsCallback(e: Event) {
    e.ChainStart? || e.ChainError? || e.ChainEnd? || e.AgentActionEvent? || e.AgentFinishEvent?
  }

  /** The callback notifications of a trace, in order. */
  function Callbacks(trace: seq<Event>): (r: seq<Event>)
    ensures |r| <= |trace|
    ensures forall e :: e in r ==> e in trace && IsCallback(e)
  {
    if trace == [] then []
    else (if IsCallback(trace[0]) then [trace[0]] else []) + Callbacks(trace[1..])
  }

  lemma {:induction false} CallbacksAppend(a: seq<Event>, b: seq<Event>)
    ensures Callbacks(a + b) == Callbacks(a) + Callbacks(b)
  {
    if a == [] {
      assert a + b == b;
    } else {
      assert (a + b)[1..] == a[1..] + b;
      CallbacksAppend(a[1..], b);
    }
  }
}
