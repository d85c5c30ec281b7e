/**
 * Construction of a conversation buffer memory from its options
 * (memory/buffer_options.go): start from the defaults, apply every option
 * in order, then give the buffer a fresh chat history if no option set one.
 */
module MemoryBuffer {

  /** A chat message history. Its contents are not part of this model. */
  class ChatMessageHistory {
    constructor ()
    {
    }
  }

  /** The value of a ConversationBuffer, field by field. */
  datatype BufferValue = BufferValue(
    chatHistory: ChatMessageHistory?,
    returnMessages: bool,
    inputKey: string,
    outputKey: string,
    humanPrefix: string,
    aiPrefix: string,
    memoryKey: string)

  /** The buffer before any option runs; no chat history yet. */
  const Defaults := BufferValue(null, false, "", "", "Human", "AI", "history")

  /** An option: any change to the buffer's fields. */
  datatype ConversationBufferOption = ConversationBufferOption(apply: BufferValue -> BufferValue)

  /** Options applied left to right. */
  function ApplyAll(v: BufferValue, opts: seq<ConversationBufferOption>): BufferValue
    decreases |opts|
  {
    if opts == [] then v else ApplyAll(opts[0].apply(v), opts[1..])
  }

  /**
   * The buffer applyBufferOptions returns, given the history that
   * NewChatMessageHistory would create.
   */
  function Configured(opts: seq<ConversationBufferOption>, created: ChatMessageHistory): (r: BufferValue)
    ensures r.chatHistory != null
  {
    var v := ApplyAll(Defaults, opts);
    if v.chatHistory == null then v.(chatHistory := created) else v
  }

  /** The buffer memory; the options write its fields through a pointer. */
  class ConversationBuffer {
    var chatHistory: ChatMessageHistory?
    var returnMessages: bool
    var inputKey: string
    var outputKey: string
    var humanPrefix: string
    var aiPrefix: string
    var memoryKey: string

    function Value(): BufferValue
      reads this
    {
      BufferValue(chatHistory, returnMessages, inputKey, outputKey, humanPrefix, aiPrefix, memoryKey)
    }

    /** Overwrites every field with those of v. */
    method Set(v: BufferValue)
      modifies this
      ensures Value() == v
    {
      chatHistory, returnMessages, inputKey, outputKey := v.chatHistory, v.returnMessages, v.inputKey, v.outputKey;
      humanPrefix, aiPrefix, memoryKey := v.humanPrefix, v.aiPrefix, v.memoryKey;
    }

    /** A buffer holding the defaults. */
    constructor ()
      ensures Value() == Defaults
    {
      chatHistory, returnMessages, inputKey, outputKey := null, false, "", "";
      humanPrefix, aiPrefix, memoryKey := "Human", "AI", "history";
    }
  }

  /** applyBufferOptions: defaults, then the options, then a history if none was set. */
  method ApplyBufferOptions(opts: seq<ConversationBufferOption>) returns (m: ConversationBuffer)
    ensures fresh(m)
    ensures m.chatHistory != null
    ensures ApplyAll(Defaults, opts).chatHistory == null ==> fresh(m.chatHistory)
    ensures m.Value() == Configured(opts, m.chatHistory)
  {
    m := new ConversationBuffer();
    for i := 0 to |opts|
      invariant fresh(m)
      invariant ApplyAll(Defaults, opts) == ApplyAll(m.Value(), opts[i..])
    {
      assert opts[i..][1..] == opts[i+1..];
      m.Set(opts[i].apply(m.Value()));
    }
    if m.chatHistory == null {
      m.chatHistory := new ChatMessageHistory();
    }
  }

  /** The fields of a buffer. */
  datatype Field = ChatHistoryField | ReturnMessagesField | InputKeyField | OutputKeyField
                 | HumanPrefixField | AIPrefixField | MemoryKeyField

  datatype FieldValue = HistoryValue(h: ChatMessageHistory?) | BoolValue(b: bool) | StringValue(s: string)

  function Get(v: BufferValue, f: Field): FieldValue {
    match f
    case ChatHistoryField => HistoryValue(v.chatHistory)
    case ReturnMessagesField => BoolValue(v.returnMessages)
    case InputKeyField => StringValue(v.inputKey)
    case OutputKeyField => StringValue(v.outputKey)
    case HumanPrefixField => StringValue(v.humanPrefix)
    case AIPrefixField => StringValue(v.aiPrefix)
    case MemoryKeyField => StringValue(v.memoryKey)
  }

  /** With no options the buffer is the defaults plus the fresh history. */
  lemma NoOptionsGiveDefaults(h: ChatMessageHistory)
    ensures Configured([], h) == BufferValue(h, false, "", "", "Human", "AI", "history")
  {
  }

  /** Options that never change a field leave its value alone. */
  lemma {:induction false} PreservedThroughout(v: BufferValue, opts: seq<ConversationBufferOption>, f: Field)
    requires forall j, w :: 0 <= j < |opts| ==> Get(opts[j].apply(w), f) == Get(w, f)
    ensures Get(ApplyAll(v, opts), f) == Get(v, f)
    decreases |opts|
  {
    if opts != [] {
      PreservedThroughout(opts[0].apply(v), opts[1..], f);
    }
  }

  /** A field no option touches keeps its default (the history aside). */
  lemma UntouchedFieldKeepsDefault(opts: seq<ConversationBufferOption>, f: Field, h: ChatMessageHistory)
    requires f != ChatHistoryField
    requires forall j, w :: 0 <= j < |opts| ==> Get(opts[j].apply(w), f) == Get(w, f)
    ensures Get(Configured(opts, h), f) == Get(Defaults, f)
  {
    PreservedThroughout(Defaults, opts, f);
  }

  lemma {:induction false} ApplyAllSplit(v: BufferValue, opts: seq<ConversationBufferOption>, i: nat)
    requires i < |opts|
    ensures ApplyAll(v, opts) == ApplyAll(opts[i].apply(ApplyAll(v, opts[..i])), opts[i+1..])
    decreases i
  {
    if i > 0 {
      assert opts[1..][..i-1] == opts[1..i];
      assert opts[..i][1..] == opts[1..i];
      ApplyAllSplit(opts[0].apply(v), opts[1..], i - 1);
    }
  }

  /**
   * The last option to write a field decides it: when opts[i] always leaves
   * x in f and no later option changes f, the buffer ends with x in f.
   */
  lemma LastWriterWins(opts: seq<ConversationBufferOption>, i: nat, f: Field, x: FieldValue, h: ChatMessageHistory)
    requires i < |opts|
    requires forall w :: Get(opts[i].apply(w), f) == x
    requires forall j, w :: i < j < |opts| ==> Get(opts[j].apply(w), f) == Get(w, f)
    requires f == ChatHistoryField ==> x != HistoryValue(null)
    ensures Get(Configured(opts, h), f) == x
  {
    ApplyAllSplit(Defaults, opts, i);
    var mid := opts[i].apply(ApplyAll(Defaults, opts[..i]));
    assert Get(mid, f) == x;
    PreservedThroughout(mid, opts[i+1..], f);
  }

  /** A history an option supplies is kept; only a missing one is replaced. */
  lemma HistoryKeptOrCreated(opts: seq<ConversationBufferOption>, h: ChatMessageHistory)
    ensures ApplyAll(Defaults, opts).chatHistory != null ==> Configured(opts, h).chatHistory == ApplyAll(Defaults, opts).chatHistory
    ensures ApplyAll(Defaults, opts).chatHistory == null ==> Configured(opts, h).chatHistory == h
    ensures forall f :: f != ChatHistoryField ==> Get(Configured(opts, h), f) == Get(ApplyAll(Defaults, opts), f)
  {
  }
}
