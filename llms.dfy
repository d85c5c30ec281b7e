/**
 * Message content exchanged with a language model
 * (llms/generatecontent.go, llms/chat_messages.go) and the single-prompt
 * convenience call (llms/llms.go).
 */
module Llms {
  import opened Wrappers
  import opened Opaque
  import Schema
  import LlmOptions
  import Base64

  /** The role of a message's author; any string, with these named values. */
  type ChatMessageType = string

  const ChatMessageTypeAI: ChatMessageType := "ai"
  const ChatMessageTypeHuman: ChatMessageType := "human"
  const ChatMessageTypeSystem: ChatMessageType := "system"
  const ChatMessageTypeGeneric: ChatMessageType := "generic"
  const ChatMessageTypeFunction: ChatMessageType := "function"
  const ChatMessageTypeTool: ChatMessageType := "tool"

  datatype TextContent = TextContent(text: string) {
    /** The text, from which the content can be rebuilt. */
    function String(): (s: string)
      ensures TextContent(s) == this
    {
      text
    }
  }

  datatype ImageURLContent = ImageURLContent(url: string, detail: string) {
    /** The URL, from which (with the detail) the content can be rebuilt. */
    function String(): (s: string)
      ensures ImageURLContent(s, detail) == this
    {
      url
    }
  }

  datatype BinaryContent = BinaryContent(mimeType: string, data: seq<Base64.byte>) {
    /** The data as a base64 data URL, from which both fields can be read back. */
    function String(): (s: string)
      ensures Base64.ParseDataUrl(s) == Some((mimeType, data))
    {
      Base64.ParseDataUrlInverts(mimeType, data);
      Base64.DataUrl(mimeType, data)
    }
  }

  /** The name and JSON arguments of a function call. */
  datatype FunctionCall = FunctionCall(name: string, arguments: string)

  /** A tool call the model asks for. */
  datatype ToolCall = ToolCall(id: string, callType: string, functionCall: Option<FunctionCall>)

  /** The kinds of content that implement ContentPart. */
  datatype ContentPart =
    | TextContentPart(textContent: TextContent)
    | ImageURLContentPart(imageURL: ImageURLContent)
    | BinaryContentPart(binary: BinaryContent)
    | ToolCallPart(toolCall: ToolCall)

  datatype MessageContent = MessageContent(role: ChatMessageType, parts: seq<ContentPart>)

  function TextPart(s: string): (r: TextContent)
    ensures r.String() == s
  {
    TextContent(s)
  }

  function BinaryPart(mime: string, data: seq<Base64.byte>): (r: BinaryContent)
    ensures r.mimeType == mime && r.data == data
    ensures Base64.ParseDataUrl(r.String()) == Some((mime, data))
  {
    BinaryContent(mime, data)
  }

  /** The message TextParts builds: one text part per string, in order. */
  function TextMessage(role: ChatMessageType, parts: seq<string>): MessageContent {
    MessageContent(role, seq(|parts|, i requires 0 <= i < |parts| => TextContentPart(TextPart(parts[i]))))
  }

  /** A message with a role and a list of text parts. */
  method TextParts(role: ChatMessageType, parts: seq<string>) returns (result: MessageContent)
    ensures result == TextMessage(role, parts)
  {
    result := MessageContent(role, []);
    for i := 0 to |parts|
      invariant result.role == role
      invariant |result.parts| == i
      invariant forall j :: 0 <= j < i ==> result.parts[j] == TextContentPart(TextPart(parts[j]))
    {
      result := result.(parts := result.parts + [TextContentPart(TextPart(parts[i]))]);
    }
  }

  /** The message carries the role, and exactly the given strings as text parts. */
  lemma TextMessageHoldsParts(role: ChatMessageType, parts: seq<string>)
    ensures TextMessage(role, parts).role == role
    ensures |TextMessage(role, parts).parts| == |parts|
    ensures forall i :: 0 <= i < |parts| ==>
      TextMessage(role, parts).parts[i].TextContentPart? && TextMessage(role, parts).parts[i].textContent.String() == parts[i]
  {
  }

  datatype ContentChoice = ContentChoice(
    content: string,
    stopReason: string,
    generationInfo: map<string, AnyRef>,
    funcCall: Option<FunctionCall>,
    toolCalls: seq<ToolCall>,
    reasoningContent: string)

  datatype ContentResponse = ContentResponse(choices: seq<ContentChoice>)

  /** A model's GenerateContent: the response or the error for some messages and options. */
  type GenerateContent = (seq<MessageContent>, seq<LlmOptions.CallOption>) -> Result<ContentResponse, Schema.Error>

  /** The single human message GenerateFromSinglePrompt sends. */
  function SinglePrompt(prompt: string): seq<MessageContent> {
    [MessageContent(ChatMessageTypeHuman, [TextContentPart(TextContent(prompt))])]
  }

  /** Sends one human message and answers with the first choice's content. */
  function GenerateFromSinglePrompt(model: GenerateContent, prompt: string, options: seq<LlmOptions.CallOption>): (r: (string, Option<Schema.Error>))
    ensures r.1.Some? ==> r.0 == ""
    ensures r.1.None? ==> model(SinglePrompt(prompt), options).Success?
  {
    match model(SinglePrompt(prompt), options)
    case Failure(err) => ("", Some(err))
    case Success(resp) =>
      if |resp.choices| < 1 then ("", Some(Schema.EmptyResponse))
      else (resp.choices[0].content, None)
  }

  /** The request is TextParts' message with the human role and the prompt alone. */
  lemma SinglePromptIsTextMessage(prompt: string)
    ensures SinglePrompt(prompt) == [TextMessage(ChatMessageTypeHuman, [prompt])]
  {
    assert TextMessage(ChatMessageTypeHuman, [prompt]).parts == [TextContentPart(TextContent(prompt))];
  }

  /**
   * There is no error exactly when the model answers with at least one
   * choice; then the result is the first choice's content, otherwise it is
   * empty and the error is the model's own, or EmptyResponse.
   */
  lemma GenerateFromSinglePromptOutcome(model: GenerateContent, prompt: string, options: seq<LlmOptions.CallOption>)
    ensures var r := GenerateFromSinglePrompt(model, prompt, options);
      var answer := model(SinglePrompt(prompt), options);
      && (r.1.None? <==> answer.Success? && |answer.value.choices| > 0)
      && (r.1.None? ==> r.0 == answer.value.choices[0].content)
      && (r.1.Some? ==> r.0 == "")
      && (answer.Failure? ==> r.1 == Some(answer.error))
      && (answer.Success? && answer.value.choices == [] ==> r.1 == Some(Schema.EmptyResponse))
  {
  }

  /** Only the model's answer to the single prompt matters: later choices are ignored. */
  lemma OnlyFirstChoiceMatters(m1: GenerateContent, m2: GenerateContent, prompt: string, options: seq<LlmOptions.CallOption>)
    requires m1(SinglePrompt(prompt), options).Success? && m2(SinglePrompt(prompt), options).Success?
    requires var c1 := m1(SinglePrompt(prompt), options).value.choices;
      var c2 := m2(SinglePrompt(prompt), options).value.choices;
      |c1| > 0 && |c2| > 0 && c1[0].content == c2[0].content
    ensures GenerateFromSinglePrompt(m1, prompt, options) == GenerateFromSinglePrompt(m2, prompt, options)
  {
  }
}
