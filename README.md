# llmg orchestration core in Dafny

This project models the orchestration core of llmg, a Go library for building applications on language models. It has four parts.

- **The chain invocation pipeline** (`chains/chains.go`).
  - `Call` copies the caller's inputs into a fresh map and overlays the variables that the chain's memory loads.
  - It notifies the chain's callbacks handler (ChainStart, then ChainError or ChainEnd).
  - It checks the chain's declared input keys before the chain's own logic runs, and its declared output keys after.
  - It saves the turn to memory.
  - `Run` puts `Call` behind a single-input, single-string-output interface.
- **The agent executor** (`agents/initialize.go`).
  - It runs a bounded loop of at most `MaxIterations` rounds. Each round asks the agent to plan.
  - A plan either finishes the call or proposes actions.
  - Actions go in order to tools, which are looked up by their upper-cased name. Each executed action is appended to the step history.
  - There is one recoverable planning error, an unparsable plan when an error handler is set. An unknown tool is recoverable. A failing tool is fatal.
- **Message content** (`llms/generatecontent.go`, `llms/llms.go`).
  - Text, image-URL and binary parts.
  - The data URL of a binary part. It uses the standard base64 encoding of section 4 of RFC 4648, modelled in full.
  - `TextParts`.
  - `GenerateFromSinglePrompt`, which sends one human message to a model and picks the first choice.
- **Functional options** (`llms/options.go`, `chains/options.go`, `memory/buffer_options.go`). These are closures that write fields of a record through a pointer:
  - the model call options;
  - the chain call options with their explicit-set flags;
  - the conversation buffer that `applyBufferOptions` fills with defaults.

How Go constructs are modelled:

- **Go values.**
  - Maps are Dafny `map`s; a nil map is `None`.
  - A Go `any` stored in a chain map is `Schema.Value`: a string, a step history, or an opaque value.
  - Streaming functions, float fields and other `any` fields are opaque identities (module `Opaque`). These fields are only stored, never computed on.
- **Collaborators.** The chain's own logic, memory, the agent's planner, tools and the language model are function-typed parameters.
  - A ghost trace of `Schema.Event`s records every callbacks-handler notification. It also records these collaborator calls: the memory load and save, the chain's own logic, each plan and each tool call.
  - Two collaborator calls are not traced. `Chains.Run` reads the memory's variable names (`memory.variables`) as a plain field, and its two early errors return an empty trace. `Llms.GenerateFromSinglePrompt` is a pure function that applies the model once; its properties are stated on its result, not on a trace.
  - The properties about callbacks, plan counts and tool calls are stated on the trace.
- **Loops.** Each Go function that loops is a Dafny method with its loop. Its `ensures` ties the result to a pure function. The properties are proved as lemmas about those functions:
  - `Chains.Call` is tied to `Chains.Invoke`;
  - `Agents.Executor.Call` is tied to `Agents.Executor.Execute`;
  - `Agents.Executor.DoIteration` is tied to `IterationResult`;
  - `Agents.GetNameToTool` is tied to `NameToTool`;
  - `Chains.Run` is stated directly in terms of `Invoke` and `Needed`.
- **Options.** Each option closure of `LlmOptions` and `ChainOptions` is a datatype constructor with an `ApplyTo` function. A `MemoryBuffer.ConversationBufferOption` wraps the closure itself, as a function of the buffer's values. A record that a closure writes through its pointer is a class.
  - The `Apply` method of `ChainOptions.ChainCallOptions` updates the class's fields.
  - `LlmOptions.CallOptions` also has an `Apply` method, which performs the closure on the class.
  - `MemoryBuffer.ApplyBufferOptions` allocates the buffer and runs its options in a loop.
  - The source leaves option sequences to its callers, which apply them left to right. `ApplyAll` is that left-to-right application.

Two behaviours of the code differ from what a reader of the API might expect. The model follows the code in both:

- On a key that is both a caller input and a memory variable, the memory value wins, because it is written second (chains/chains.go:37-39).
- A failing tool makes `Executor.Call` return a nil map, not the steps gathered so far (agents/initialize.go:140-142, agents/initialize.go:62-64).

## Model

| member | source | states |
|---|---|---|
| Schema.ErrorText | agents/initialize.go:86-87 | Definition: the text of an error that wraps the unparsable-output error, or of a collaborator's error, is that error's own message. |
| Schema.Callbacks | chains/chains.go:41-56 | The handler notifications of a trace are events of that trace, each of them a callback, and no more of them than the trace has events. |
| ChainOptions.ChainCallOptions.constructor | chains/options.go:20-67 | The empty composite literal holds Go's zero value in every field and every set flag. |
| ChainOptions.ChainCallOptions.Apply | chains/options.go:70-75 | Running an option's closure on the record leaves the record equal to the option applied to its old value. |
| ChainOptions.ZeroHasNoFlagSet | chains/options.go:12-67 | In the zero record no set flag is true. |
| ChainOptions.WithModelSetsOnlyModel | chains/options.go:70-75 | WithModel(m) sets Model to m and modelSet to true. Restoring those two fields gives back the original record, so every other field and flag is unchanged. |
| ChainOptions.WithModelTwice | chains/options.go:70-75 | Two WithModel options act like the second alone: the last model wins and modelSet stays true. |
| ChainOptions.FlagMeansExplicit | chains/options.go:12-75 | From the zero record, modelSet is true exactly when some option was applied. Model is then the last option's model, every other flag stays false and every other field keeps its value. |
| Chains.Lookup | chains/chains.go:118 | Definition: a key yields a value exactly when the map is non-nil and holds the key. |
| Chains.FirstMissingIsFirst | chains/chains.go:125-141 | No key is reported missing exactly when every declared key is present. Otherwise the reported key is absent and every key declared before it is present. |
| Chains.ValidateInputs | chains/chains.go:125-132 | validateInputs returns no error when every input key is present. Otherwise it returns the missing-input-values error naming the first absent key in declared order. |
| Chains.ValidateOutputs | chains/chains.go:134-141 | validateOutputs returns no error when every output key is in the (possibly nil) result. Otherwise it returns the invalid-output-values error naming the first absent key. |
| Chains.CallChain | chains/chains.go:65-79 | callChain's result and trace are CallChainResult. A failed input check gives a nil map and the body does not run. The body's values come back with its error, or with the output check's error. |
| Chains.Call | chains/chains.go:26-63 | Call, with its copy and merge loops, callbacks and save, returns exactly what Invoke describes, values, error and trace alike. |
| Chains.InvokeLoadFailure | chains/chains.go:32-35 | A failing memory load returns a nil map and the load's error. No callback, no chain logic and no save follow. |
| Chains.InvokeMergesMemory | chains/chains.go:27-39 | The map the chain's logic receives holds the caller's keys and the memory's keys. The memory value wins on a shared key, and every other key keeps the caller's value. |
| Chains.InvokeValidatesInputs | chains/chains.go:67-69 | After a successful load, the chain's logic runs if and only if every declared input key is in the merged map. Otherwise the call returns a nil map and the error naming the first missing key. |
| Chains.InvokeOutputsPresent | chains/chains.go:75-78 | A call that returns no error has every declared output key in its result. |
| Chains.InvokeBodyFailure | chains/chains.go:46-52 | When the chain's logic fails, its values and error are returned, nothing is saved, and a handler hears ChainError last. |
| Chains.InvokeSavesOnSuccess | chains/chains.go:58-62 | The turn is saved exactly when callChain succeeded. The save gets the caller's original inputs and the outputs, and the call returns those outputs with the save's error. |
| Chains.CallChainIsSilent | chains/chains.go:65-79 | callChain delivers no callback. |
| Chains.InvokeCallbackOrder | chains/chains.go:32-56 | There are no callbacks without a handler or when the load fails. Otherwise the callbacks are exactly ChainStart with the unmerged caller inputs, then ChainEnd with the outputs if callChain succeeded, or else ChainError with its error. |
| Chains.CallbacksOnChainError | chains/chains.go:46-52 | When callChain fails, the handler's notifications are ChainStart and then ChainError. |
| Chains.CallbacksOnChainEnd | chains/chains.go:54-62 | When callChain succeeds, the handler's notifications are ChainStart and then ChainEnd. Saving the turn adds no notification. |
| Chains.Needed | chains/chains.go:85-102 | The needed keys are exactly the declared input keys that are not memory variables, and there are no more of them than input keys. |
| Chains.NeededAppend | chains/chains.go:90-102 | The needed keys keep declared order. The keys needed from a list are those needed from its first part, followed by those needed from the rest. A single key is needed exactly when memory lacks it. |
| Chains.Run | chains/chains.go:83-123 | Not exactly one needed key gives ErrMultipleInputsInRun. Checked next, not exactly one output key gives ErrMultipleOutputsInRun. Neither error calls the chain. Otherwise Call runs on the single needed key. The result is the string at the single output key, with no error, if and only if Call succeeded and that value is a string. Otherwise the result is empty and the error is Call's, or ErrWrongOutputTypeInRun. |
| Agents.Initialize | agents/initialize.go:34-50 | Each of the two agent types selects its own constructor, if and only if the type is that constant. Any other type fails with ErrUnknownAgentType. |
| Agents.UpperChar | agents/initialize.go:131 | Definition: a lower-case ASCII letter maps to its upper-case letter. Every other character is unchanged. |
| Agents.Upper | agents/initialize.go:131 | Upper-casing keeps the length and upper-cases every character. |
| Agents.ToolIndexKeys | agents/initialize.go:196-199 | The keys of the name-to-tool map are exactly the upper-cased tool names. |
| Agents.ToolIndexLaterWins | agents/initialize.go:196-199 | Each key maps to a tool with that upper-cased name, and no later tool has that name. On a collision the later tool wins. |
| Agents.ToolIndexReachable | agents/initialize.go:191-202 | A tool whose upper-cased name no later tool shares is found under that name. |
| Agents.GetNameToTool | agents/initialize.go:191-202 | getNameToTool's loop returns NameToTool: nil for no tools, and otherwise the map built left to right. |
| Agents.StringInputs | agents/initialize.go:177-189 | The string inputs have the caller's keys, and each one holds that key's string. |
| Agents.InputsToString | agents/initialize.go:177-189 | The conversion succeeds if and only if every value is a string, and then it keeps exactly the keys and strings. Otherwise it returns no map and ErrExecutorInputNotString naming a key whose value is not a string. |
| Agents.Executor.GetReturn | agents/initialize.go:150-156 | With ReturnIntermediateSteps, the result adds the step history under the reserved key. Without it, the result is the finish's values. Every other key keeps its value either way. |
| Agents.Executor.DoIteration | agents/initialize.go:79-119 | doIteration, with its loop over the plan's actions, returns exactly IterationResult's steps, finish, error and events. |
| Agents.Executor.Call | agents/initialize.go:52-77 | Non-string inputs fail at once, with no map, no planning and ErrExecutorInputNotString naming a non-string key. Otherwise the loop's result and trace are Execute's. |
| ExecutorProperties.UpperIdempotent | agents/initialize.go:131 | Upper-casing an upper-cased name changes nothing, so a tool whose name is already upper case is found under that name. |
| ExecutorProperties.SearchIsCaseInsensitive | agents/initialize.go:131 | A tool named "Search" is found for "search", "SEARCH" and "Search". |
| ExecutorProperties.UnknownToolIsObserved | agents/initialize.go:132-137 | An action naming no known tool appends one step with the "is not a valid tool, try another one" observation. It calls no tool and returns no error. |
| ExecutorProperties.KnownToolIsCalled | agents/initialize.go:139-147 | A known tool is called with the action's input. If it succeeds, one step holding its observation is appended. If it fails, its error comes back with a nil step list. |
| ExecutorProperties.DoActionEvents | agents/initialize.go:121-148 | doAction does nothing observable except announce the action and call a tool. |
| ExecutorProperties.ActionsEvents | agents/initialize.go:111-116 | Processing a plan's actions does nothing observable except announce actions and call tools. |
| ExecutorProperties.ActionsInOrder | agents/initialize.go:111-116 | If no tool fails, every action ran in order and appended exactly one step, the one it produces. The earlier history is kept as a prefix. |
| Agents.Executor.DoAction | agents/initialize.go:121-148 | An action that returns no error appends exactly one step for that action and keeps the earlier history as a prefix. An error comes with a nil step list. A handler hears the action first. Properties: ExecutorProperties.DoActionEvents, UnknownToolIsObserved and KnownToolIsCalled. |
| ExecutorProperties.ToolFailureAborts | agents/initialize.go:111-116 | An error from the actions is the error of the first failing tool call, and the step list is nil. |
| ExecutorProperties.ToolFailureStops | agents/initialize.go:111-116 | The outcome for a list with a failing action is the outcome for the actions up to and including the first failing one. Later actions are neither announced nor passed to a tool, and the result is an error. |
| ExecutorProperties.ParseFailureRecovers | agents/initialize.go:86-95 | An unparsable plan, with an error handler set, appends exactly one step with an empty action. That step's observation is the formatted error text, or the raw text without a formatter. The iteration continues with no error. |
| ExecutorProperties.PlanErrorsAreFatal | agents/initialize.go:96-102 | Any other plan error is returned unchanged. A plan with no actions and no finish gives ErrAgentNoReturn. Neither case acts. |
| ExecutorProperties.FinishEndsIteration | agents/initialize.go:104-109 | A finish ends the iteration without error. The returned map holds the finish's values, plus the steps under the reserved key when asked for. A handler hears AgentFinish. |
| ExecutorProperties.IterationPlansOnceAndAppends | agents/initialize.go:79-119 | Each iteration calls the planner exactly once and first. An iteration that neither finishes nor fails has grown the step history, keeping the earlier history as a prefix. |
| ExecutorProperties.LoopOutcome | agents/initialize.go:60-76 | The loop plans at most as many times as it has iterations left. A map comes back with an error only when every iteration ran without a finish. That error is ErrNotFinished, the map holds at most the step history, and a handler hears the synthetic finish last. |
| ExecutorProperties.FailureEndsLoop | agents/initialize.go:60-65 | An iteration that returns an error ends the loop at once. The loop's outcome is that iteration's error and events with a nil map, and it holds exactly one plan. |
| ExecutorProperties.FinishEndsLoop | agents/initialize.go:60-66 | An iteration that finishes without error ends the loop at once. The loop's outcome is the finish's map with no error and that iteration's events, and it holds exactly one plan. |
| ExecutorProperties.ExecuteAtMostMaxIterations | agents/initialize.go:57-66 | Call asks the agent to plan at most MaxIterations times. |
| ExecutorProperties.UnknownToolsExhaust | agents/initialize.go:60-76 | A planner that always names an unknown tool runs out of iterations with ErrNotFinished. Each iteration appended one "not a valid tool" step. |
| ExecutorProperties.OneActionThenFinish | agents/initialize.go:60-66 | Successful single actions followed by a finish in the last iteration return the finish's values with no error, after exactly the remaining number of plans. |
| LlmOptions.CallOptions.constructor | llms/options.go:10-72 | The record holds exactly the given field values. |
| LlmOptions.CallOptions.Apply | llms/options.go:105-139 | Running an option closure through the pointer leaves the record equal to the option applied to its old value. |
| LlmOptions.SingleFieldOnly | llms/options.go:105-139 | WithModel, WithStreamingFunc, WithToolChoice and WithTools each change only their own field: restoring it gives back the old record. |
| LlmOptions.SettersWrite | llms/options.go:105-139 | Each setter stores its argument in its field. A tool choice is stored without validation. |
| LlmOptions.WithOptionsReplaces | llms/options.go:112-116 | WithOptions(o) yields o, whatever record it is applied to. |
| LlmOptions.DistinctSettersCommute | llms/options.go:105-139 | Setters of two different fields give the same record in either order. |
| LlmOptions.SameFieldLastWins | llms/options.go:105-139 | Two setters of one field act like the later one alone. |
| LlmOptions.ApplyAllAppend | llms/options.go:105-139 | Applying a list of options is applying its first part, then the rest. |
| LlmOptions.WithOptionsErasesEarlier | llms/options.go:112-116 | Everything applied before a WithOptions(o) is erased: the result is o with the later options applied. |
| LlmOptions.UntouchedFieldKept | llms/options.go:105-139 | Setters of other fields leave a field unchanged. |
| LlmOptions.LastWriteWins | llms/options.go:105-139 | If no later option writes the field a setter wrote, that field ends with the setter's value. A later WithOptions counts as writing every field. |
| MemoryBuffer.Configured | memory/buffer_options.go:7-27 | The configured buffer always has a chat history. |
| MemoryBuffer.ConversationBuffer.constructor | memory/buffer_options.go:8-15 | A new buffer holds the defaults: no history, ReturnMessages false, empty input and output keys, "Human", "AI" and "history". |
| MemoryBuffer.ApplyBufferOptions | memory/buffer_options.go:7-27 | applyBufferOptions returns a fresh buffer that is the defaults with the options applied in order. Its history is the one an option set, or else a fresh one, so it is never nil. |
| MemoryBuffer.NoOptionsGiveDefaults | memory/buffer_options.go:8-23 | Without options the buffer holds exactly the default values and the new history. |
| MemoryBuffer.PreservedThroughout | memory/buffer_options.go:17-19 | Options that never change a field leave its value as it was. |
| MemoryBuffer.UntouchedFieldKeepsDefault | memory/buffer_options.go:8-19 | A field other than the history that no option touches keeps its default. |
| MemoryBuffer.LastWriterWins | memory/buffer_options.go:17-19 | When an option writes x into a field and no later option changes that field, the buffer ends with x in it. |
| MemoryBuffer.HistoryKeptOrCreated | memory/buffer_options.go:21-23 | A history set by an option is kept. Only a missing one is replaced by the new history, and no other field changes. |
| Base64.Digit | llms/generatecontent.go:122 | Every 6-bit value has a digit of the standard alphabet. |
| Base64.DigitValue | llms/generatecontent.go:122 | Every digit of the alphabet has a 6-bit value whose digit it is. |
| Base64.DigitValueInverts | llms/generatecontent.go:122 | A digit's value gives back the 6-bit value it encodes. |
| Base64.GroupBytes | llms/generatecontent.go:122 | A 24-bit group splits back into the three bytes it was built from. |
| Base64.SextetsAssemble | llms/generatecontent.go:122 | The four 6-bit values of a group assemble back into the group. |
| Base64.DecodeFullGroup | llms/generatecontent.go:122 | Four digits decode back to the three bytes they encode. |
| Base64.DecodeTwoByteGroup | llms/generatecontent.go:122 | A final group of three digits and one pad decodes back to its two bytes. |
| Base64.DecodeOneByteGroup | llms/generatecontent.go:122 | A final group of two digits and two pads decodes back to its byte. |
| Base64.Encode | llms/generatecontent.go:122 | StdEncoding.EncodeToString: four characters per group of three bytes that is started, full or final. Properties: Base64.EncodeLength (4 * ceil(n/3)), EncodeAlphabet (alphabet, then padding), DecodeEncode (round trip). |
| Base64.EncodeVectorF | llms/generatecontent.go:122 | The test vector "f" of section 10 of RFC 4648 encodes as "Zg==". |
| Base64.EncodeVectorFo | llms/generatecontent.go:122 | The test vector "fo" of section 10 of RFC 4648 encodes as "Zm8=". |
| Base64.EncodeVectorFoo | llms/generatecontent.go:122 | The test vector "foo" of section 10 of RFC 4648 encodes as "Zm9v". |
| Base64.EncodeVectorFoob | llms/generatecontent.go:122 | The test vector "foob" of section 10 of RFC 4648 encodes as "Zm9vYg==". |
| Base64.EncodeVectorFooba | llms/generatecontent.go:122 | The test vector "fooba" of section 10 of RFC 4648 encodes as "Zm9vYmE=". |
| Base64.EncodeVectorFoobar | llms/generatecontent.go:122 | The test vector "foobar" of section 10 of RFC 4648 encodes as "Zm9vYmFy". |
| Base64.DecodeEncode | llms/generatecontent.go:122 | Decoding the standard padded encoding gives back the data. |
| Base64.EncodeLength | llms/generatecontent.go:122 | The encoding has 4 * ceil(n/3) characters for n bytes. |
| Base64.EncodeAlphabet | llms/generatecontent.go:122 | The encoding is characters of the standard alphabet followed by exactly as many '=' as the final group needs (0, 2 or 1). |
| Base64.NoCommaInEncoding | llms/generatecontent.go:121-124 | The encoded data holds no comma, so it cannot be confused with the data URL's separator. |
| Base64.LastIndex | llms/generatecontent.go:121-124 | The index found is that of the last occurrence of the character, or there is none. |
| Base64.ParseDataUrlInverts | llms/generatecontent.go:121-124 | The MIME type and the bytes can both be read back from every data URL, whatever the MIME type holds. |
| Llms.BinaryContent.String | llms/generatecontent.go:121-124 | The data URL "data:" + MIME type + ";base64," + encoding, read back, gives the part's MIME type and data. |
| Llms.TextContent.String | llms/generatecontent.go:34-36 | String() returns the text, so the content can be rebuilt from it. |
| Llms.ImageURLContent.String | llms/generatecontent.go:109-111 | String() returns the URL unchanged, so the content can be rebuilt from it and its detail. |
| Llms.TextPart | llms/generatecontent.go:11-36 | The text part's String() is the given string. |
| Llms.BinaryPart | llms/generatecontent.go:17-22 | The binary part stores the MIME type and the data unchanged, and its data URL reads back to both. |
| Llms.TextParts | llms/generatecontent.go:92-101 | TextParts' append loop returns TextMessage(role, parts). |
| Llms.TextMessageHoldsParts | llms/generatecontent.go:92-101 | The message keeps the role and has exactly one part per string. The i-th part is a text part whose String() is the i-th string, so order is kept. |
| Llms.SinglePromptIsTextMessage | llms/llms.go:20-23 | The request is exactly one message: the human role with one text part holding the prompt. It is what TextParts builds for that role and prompt. |
| Llms.GenerateFromSinglePrompt | llms/llms.go:19-36 | An error comes with an empty result, and no error means the model answered. The full case split is Llms.GenerateFromSinglePromptOutcome, and the request is Llms.SinglePromptIsTextMessage. |
| Llms.GenerateFromSinglePromptOutcome | llms/llms.go:19-36 | The model gets that message and the caller's options unchanged. There is no error if and only if the model answers with at least one choice, and then the result is the first choice's content. Otherwise the result is empty and the error is the model's own, or EmptyResponse when there are no choices. |
| Llms.OnlyFirstChoiceMatters | llms/llms.go:34-35 | Two answers whose first choices have the same content give the same result, whatever their other choices. |

## Left out

- I/O, `context.Context` cancellation and deadlines, and concurrency. These belong to the collaborators, and the core's loops are sequential.
- The ollama client files (`llms/ollama/...`): HTTP, environment and streaming I/O.
- The concrete `Agent.Plan`, `Tool.Call`, `Model.GenerateContent` and memory backends. They are deterministic and stateless function parameters: a tool or a memory backend answers the same call the same way every time, so a tool that fails only on its second call cannot be expressed. Only the planner gets an index: it also receives the number of plans made so far, which stands for an agent's own state, so that scripted planners can be expressed.
- The agent constructors `NewOneShotAgent`, `NewConversationalAgent` and `NewExecutor`, which are not part of this model. `NewExecutor` is where an executor gets its default budget of 5 iterations, kept as `Agents.DefaultMaxIterations`. In the model the budget is the executor's `maxIterations` parameter.
- Agents.Initialize: models only the dispatch on the agent type. It does not model the non-nil zero `&Executor{}` that Go returns beside ErrUnknownAgentType (agents/initialize.go:47).
- The strings of `ErrNotFinished` and `_intermediateStepsOutputKey`, which are declared in agents/errors.go and agents/executor.go. Those files are not part of this model. The values used are "agent not finished before max iterations" and "intermediateSteps".
- Agents.InputsToString: Go visits map keys in an unspecified order, so the contract names some non-string key, not a particular one.
- Agents.Upper: upper-cases ASCII letters only. The Unicode case mapping of `strings.ToUpper` is not modelled.
- Agents.Executor.GetReturn: returns a new map value. The in-place write into the finish's `ReturnValues`, and aliasing through Go map references between the caller, memory and the chain's logic, are not modelled.
- A finish whose `ReturnValues` map is nil. Two Go behaviours follow from it:
  - With ReturnIntermediateSteps set, getReturn panics writing into the map.
  - Without it, getReturn returns nil. Then `finish != nil` is false at agents/initialize.go:63, so Go goes on planning after the handler has already heard AgentFinish (agents/initialize.go:106).
  The model's finish always carries a map and so always ends the loop.
- A nil `*ContentChoice` in `Choices`, and a model that returns a nil response with a nil error. Go would panic on either.
- The streaming functions, the float fields and the other `any` fields of the option records. They are opaque identities, only stored and compared.
- The JSON struct tags and serialisation of `CallOptions`.
- The chat message history's contents. `MemoryBuffer.ChatMessageHistory` only has identity.
- `ErrUnexpectedChatMessageType` from llms/chat_messages.go, which the core never raises. The chat message types are named string constants of `Llms`.
- The Executor's getters `GetInputKeys`, `GetOutputKeys`, `GetMemory` and `GetCallbackHandler`. The executor as a `Chain` passed to `Chains.Call` is not composed in the model.
- Base64: only the encoder is the source's (`base64.StdEncoding.EncodeToString`). `Decode` and `ParseDataUrl` are this model's own inverses, used to state the round trip, and not Go's decoder.
- LlmOptions.CallOptions: the struct is one value rather than 23 separate fields, because `WithOptions` assigns it whole. The single-field setters are stated on that value.
- MemoryBuffer.ConversationBufferOption: an option is any function on the buffer's fields. Options that are held in other files (`WithChatHistory`, `WithReturnMessages` and others) are not part of this model.
