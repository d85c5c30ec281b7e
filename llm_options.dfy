/**
 * Options for calling a language model (llms/options.go). A CallOption is a
 * closure that writes one field of a CallOptions record through a pointer,
 * except WithOptions, which overwrites the whole record.
 */
module LlmOptions {
  import opened Wrappers
  import opened Opaque

  /** A function the model may call. */
  datatype FunctionDefinition = FunctionDefinition(name: string, description: string, parameters: AnyRef, strict: bool)

  /** A tool the model may use. */
  datatype Tool = Tool(toolType: string, functionDef: Option<FunctionDefinition>)

  const FunctionCallBehaviorNone := "none"
  const FunctionCallBehaviorAuto := "auto"

  /** The value of a CallOptions record, field by field. */
  datatype CallOptionsValue = CallOptionsValue(
    model: string,
    candidateCount: int,
    maxTokens: int,
    temperature: Float64,
    stopWords: seq<string>,
    streamingFunc: FuncRef,
    streamingReasoningFunc: FuncRef,
    topK: int,
    topP: Float64,
    seed: int,
    minLength: int,
    maxLength: int,
    n: int,
    repetitionPenalty: Float64,
    frequencyPenalty: Float64,
    presencePenalty: Float64,
    jsonMode: bool,
    tools: seq<Tool>,
    toolChoice: AnyRef,
    functions: seq<FunctionDefinition>,
    functionCallBehavior: string,
    metadata: map<string, AnyRef>,
    responseMIMEType: string)

  /** The fields a single-field option writes. */
  datatype Field = ModelField | StreamingFuncField | ToolChoiceField | ToolsField

  /** The options this file defines, as the closures they return. */
  datatype CallOption =
    | WithModel(model: string)
    | WithOptions(options: CallOptionsValue)
    | WithStreamingFunc(streamingFunc: FuncRef)
    | WithToolChoice(choice: AnyRef)      // any value: the choice is not validated
    | WithTools(tools: seq<Tool>)
  {
    /** What the closure does to the record it is applied to. */
    function ApplyTo(v: CallOptionsValue): CallOptionsValue {
      match this
      case WithModel(m) => v.(model := m)
      case WithOptions(o) => o
      case WithStreamingFunc(f) => v.(streamingFunc := f)
      case WithToolChoice(c) => v.(toolChoice := c)
      case WithTools(t) => v.(tools := t)
    }

    /** The one field the option writes; none for WithOptions, which writes all of them. */
    function Writes(): Option<Field> {
      match this
      case WithModel(_) => Some(ModelField)
      case WithOptions(_) => None
      case WithStreamingFunc(_) => Some(StreamingFuncField)
      case WithToolChoice(_) => Some(ToolChoiceField)
      case WithTools(_) => Some(ToolsField)
    }
  }

  /** Options applied left to right. */
  function ApplyAll(v: CallOptionsValue, opts: seq<CallOption>): CallOptionsValue
    decreases |opts|
  {
    if opts == [] then v else ApplyAll(opts[0].ApplyTo(v), opts[1..])
  }

  /** The record with one field replaced by that field of another record. */
  function CopyField(v: CallOptionsValue, f: Field, from: CallOptionsValue): CallOptionsValue {
    match f
    case ModelField => v.(model := from.model)
    case StreamingFuncField => v.(streamingFunc := from.streamingFunc)
    case ToolChoiceField => v.(toolChoice := from.toolChoice)
    case ToolsField => v.(tools := from.tools)
  }

  /**
   * The struct a CallOption closure writes through its `*CallOptions`
   * pointer. The struct is held as one value, because WithOptions assigns
   * the whole struct at once.
   */
  class CallOptions {
    var value: CallOptionsValue

    /** A struct holding the given value. */
    constructor (v: CallOptionsValue)
      ensures value == v
    {
      value := v;
    }

    /** Calls the closure `opt` on this struct. */
    method Apply(opt: CallOption)
      modifies this
      ensures value == opt.ApplyTo(old(value))
    {
      match opt
      case WithModel(m) =>
        value := value.(model := m);
      case WithOptions(o) =>
        value := o;
      case WithStreamingFunc(f) =>
        value := value.(streamingFunc := f);
      case WithToolChoice(c) =>
        value := value.(toolChoice := c);
      case WithTools(t) =>
        value := value.(tools := t);
    }
  }

  /**
   * A single-field option changes only its field: putting back the old
   * value of that field gives back the old record.
   */
  lemma SingleFieldOnly(opt: CallOption, v: CallOptionsValue)
    requires opt.Writes().Some?
    ensures CopyField(opt.ApplyTo(v), opt.Writes().value, v) == v
  {
  }

  /** And it does write its field. */
  lemma SettersWrite(v: CallOptionsValue, m: string, f: FuncRef, c: AnyRef, t: seq<Tool>)
    ensures WithModel(m).ApplyTo(v).model == m
    ensures WithStreamingFunc(f).ApplyTo(v).streamingFunc == f
    ensures WithToolChoice(c).ApplyTo(v).toolChoice == c
    ensures WithTools(t).ApplyTo(v).tools == t
  {
  }

  /** WithOptions produces its argument, whatever came before. */
  lemma WithOptionsReplaces(o: CallOptionsValue, v: CallOptionsValue, w: CallOptionsValue)
    ensures WithOptions(o).ApplyTo(v) == WithOptions(o).ApplyTo(w) == o
  {
  }

  /** Setters of distinct fields commute. */
  lemma DistinctSettersCommute(a: CallOption, b: CallOption, v: CallOptionsValue)
    requires a.Writes().Some? && b.Writes().Some? && a.Writes() != b.Writes()
    ensures b.ApplyTo(a.ApplyTo(v)) == a.ApplyTo(b.ApplyTo(v))
  {
  }

  /** Of two setters of the same field, the later wins. */
  lemma SameFieldLastWins(a: CallOption, b: CallOption, v: CallOptionsValue)
    requires a.Writes().Some? && a.Writes() == b.Writes()
    ensures b.ApplyTo(a.ApplyTo(v)) == b.ApplyTo(v)
  {
  }

  /** Applying options left to right: a list is its prefix, then its suffix. */
  lemma {:induction false} ApplyAllAppend(v: CallOptionsValue, a: seq<CallOption>, b: seq<CallOption>)
    ensures ApplyAll(v, a + b) == ApplyAll(ApplyAll(v, a), b)
    decreases |a|
  {
    if a == [] {
      assert a + b == b;
    } else {
      assert (a + b)[1..] == a[1..] + b;
      ApplyAllAppend(a[0].ApplyTo(v), a[1..], b);
    }
  }

  /** A later WithOptions erases every earlier setting. */
  lemma WithOptionsErasesEarlier(v: CallOptionsValue, before: seq<CallOption>, o: CallOptionsValue, after: seq<CallOption>)
    ensures ApplyAll(v, before + [WithOptions(o)] + after) == ApplyAll(o, after)
  {
    ApplyAllAppend(v, before + [WithOptions(o)], after);
    ApplyAllAppend(v, before, [WithOptions(o)]);
    assert [WithOptions(o)][1..] == [];
  }

  /** The value of one single-writer field. */
  datatype FieldValue = ModelValue(m: string) | FuncValue(f: FuncRef) | ChoiceValue(c: AnyRef) | ToolsValue(t: seq<Tool>)

  function Get(v: CallOptionsValue, f: Field): FieldValue {
    match f
    case ModelField => ModelValue(v.model)
    case StreamingFuncField => FuncValue(v.streamingFunc)
    case ToolChoiceField => ChoiceValue(v.toolChoice)
    case ToolsField => ToolsValue(v.tools)
  }

  /** Options that write only other fields leave field f alone. */
  lemma {:induction false} UntouchedFieldKept(v: CallOptionsValue, opts: seq<CallOption>, f: Field)
    requires forall j :: 0 <= j < |opts| ==> opts[j].Writes().Some? && opts[j].Writes() != Some(f)
    ensures Get(ApplyAll(v, opts), f) == Get(v, f)
    decreases |opts|
  {
    if opts != [] {
      assert Get(opts[0].ApplyTo(v), f) == Get(v, f);
      UntouchedFieldKept(opts[0].ApplyTo(v), opts[1..], f);
    }
  }

  /**
   * Last write wins: when no later option writes the field opts[i] writes
   * (a WithOptions writes every field), that field ends holding what
   * opts[i] put there.
   */
  lemma LastWriteWins(v: CallOptionsValue, opts: seq<CallOption>, i: nat)
    requires i < |opts| && opts[i].Writes().Some?
    requires forall j :: i < j < |opts| ==> opts[j].Writes().Some? && opts[j].Writes() != opts[i].Writes()
    ensures Get(ApplyAll(v, opts), opts[i].Writes().value) == Get(opts[i].ApplyTo(v), opts[i].Writes().value)
  {
    var f := opts[i].Writes().value;
    assert opts == opts[..i] + [opts[i]] + opts[i+1..];
    WithOptionsOrSetter(v, opts[..i], opts[i], opts[i+1..]);
    var mid := opts[i].ApplyTo(ApplyAll(v, opts[..i]));
    UntouchedFieldKept(mid, opts[i+1..], f);
  }

  lemma WithOptionsOrSetter(v: CallOptionsValue, before: seq<CallOption>, o: CallOption, after: seq<CallOption>)
    ensures ApplyAll(v, before + [o] + after) == ApplyAll(o.ApplyTo(ApplyAll(v, before)), after)
  {
    ApplyAllAppend(v, before + [o], after);
    ApplyAllAppend(v, before, [o]);
    assert [o][1..] == [];
  }
}
