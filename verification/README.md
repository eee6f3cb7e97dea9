# A model of the SDK's streaming and tool-loop logic

This project models the parts of the GoAI SDK that are incremental algorithms or state
machines and proves that they agree with simple descriptions of what they are for. One
module follows one component:

- `Sse.dfy`: the SSE scanner refines sections 9.2.5 and 9.2.6 of the WHATWG HTML Living
  Standard, however the bytes are split into reads.
- `PartialJson.dfy`: repairing truncated JSON gives balanced text, and where it does not.
- `Serializable.dfy`: the two-state depth-first search over provider options.
- `Provider.dfy`: the values that the other modules exchange.
- `Reasoning.dfy`: reasoning chunks cut into reasoning parts.
- `StreamCodec.dfy`: the streaming tool loop encodes its steps as chunks, and the text stream
  decodes them.
- `AnthropicAssembly.dfy`: a message document rebuilt from a stream of events.
- `AnthropicTransports.dfy`, `AnthropicOrder.dfy`: when the events read directly give the parts
  that the rebuilt document gives, and exactly when they do not.
- `OpenAIToolCalls.dfy`: the fragments of parallel tool calls put together by index.
- `ReasoningDetails.dfy`: streamed reasoning details in canonical form.
- `Normalize.dfy`: a history with every tool call answered and alternating roles.
- `AgentState.dfy`, `Transcript.dfy`: the tool loop of `GenerateText`, the transcript it returns
  and the lifecycle word it announces.
- `RefInline.dfy`: `$ref` inlining for Gemini.
- `NativeSchema.dfy`: the native structured-output schema of Anthropic.
- `Realtime.dfy`: the goroutines of a realtime session as atomic steps.

Code that updates variables is a method or a class proved against a specification function;
what the code promises is then proved of that function. Models, tools, hooks, providers and
users are arbitrary: a run is given by their answers, and every theorem is about all of them.
JSON is an algebraic datatype. Byte lengths are lengths of strings, one character a byte. Go's
`int` is unbounded here, but for the 32-bit halves of the agent state.

Where the code does not do what its documentation or its shape suggests, the code is modelled,
an input shows it, and the exact condition is proved where there is one:

- `repairJSON` balances an input exactly if two cuts that search backwards stay where they
  belong (`PartialJson.RepairBalances`); a second pass changes the result exactly if the first
  one left white space at an end, or nothing at all (`PartialJson.RepairAgain`).
- Two values at one address, such as a struct and its first field, look like a cycle to
  `checkJSONSerializable` (`Serializable.SharedAddressLooksCyclic`), and can hide a value it must
  refuse or not, as the order of the walk has it (`Serializable.SharedAddressHidesAValue`).
- The two readers of an Anthropic message disagree, for one, on a tool block whose start event
  brings the input and that has no fragments, and on a thinking block that is sent two
  signatures; `AnthropicOrder.OneBlockAgrees` is exact. Blocks whose indexes are distinct but do not ascend are read
  in the order they were sent from the events and by index from the document, so the two agree
  exactly if the blocks that show ascend (`AnthropicOrder.AgreeIffAscending`).
- `GenerateText` repeats its last assistant message exactly when the loop is stopped after a step
  that called no client tool (`Transcript.TranscriptIsStory`); a provider's own tools with a step
  limit do that (`Transcript.ServerToolRepeats`).
- A streaming run whose first answer is empty but for reasoning has no step, and its result one
  (`StreamCodec.StreamAndCollect`).
- A second native-schema transformation changes a schema exactly if a composition stands next to
  keywords of an object, array or string type (`NativeSchema.TransformAgain`). The comment on the
  function does not say so.
- `SetTerminal` is documented as sticky; a terminal state is kept by every scheduling exactly if
  the loop has nothing else left to write (`AgentState.TerminalSticks`), and a six-step run
  overwrites one (`AgentState.LoopOverwritesTerminal`).
- The first pass of the Gemini sanitizer keeps a schema that is a reference to something else
  than an object, with its references (`RefInline.PreprocessIsClean`,
  `RefInline.ReferenceToTrueIsKept`).
- A realtime tool call that is canceled is answered all the same exactly if it has passed its
  check already (`Realtime.CancelledIsSentIfChecked`), and a cancellation that comes before the
  call has registered is lost (`Realtime.CancellationMarks`).
- Inlining for Gemini loses names exactly if an object it gets to has one that is blocked, be it a
  keyword or the name of a property (`RefInline.NamesKept`).

## Model

| member | source | states |
|---|---|---|
| Sse.WholeStream | internal/sse/sse.go:89-136 | Within the size limits the scanner's events are exactly those of section 9.2.6; over them it stops with a size error after a prefix of them |
| Sse.RunIsWhatwg | internal/sse/sse.go:89-136 | From any state the events are a prefix of the standard's, and all of them unless a limit is hit |
| Sse.RunLimits | internal/sse/sse.go:179-235 | A limit error happens if and only if some line or some event's data is over its limit |
| Sse.RunError | internal/sse/sse.go:129-136 | Without a limit error the final error is the reader's own, and none at a clean end |
| Sse.DrainOfPartition | internal/sse/sse.go:196-233 | Only the concatenation of the reads and their final error matter, not how the bytes are divided |
| Sse.BomIsInFirstLine | internal/sse/sse.go:252-258 | Dropping the byte order mark from the stream is dropping it from its first line |
| Sse.NextIsPayloads | internal/sse/sse.go:141-170 | Next returns the data payloads of the standard's lines in order up to the end mark if no line before it is over the limit, else a prefix of them and the limit error |
| Sse.ScanEvents | internal/sse/sse.go:52-136 | A new scanner over any script of reads gives the standard's events and the right error |
| Sse.Scanner.ReadLine | internal/sse/sse.go:179-235 | One call takes the first line of what is left, whatever is buffered, and the buffer stays under the line limit plus one read |
| Sse.Scanner.NextEvent | internal/sse/sse.go:89-136 | One call returns the first remaining event and leaves exactly the remaining ones |
| PartialJson.RepairBalances | partial_json.go:31-152 | The repaired text rescans, never deeper than 512 brackets, to no open string and no open bracket if and only if both backward cuts are safe |
| PartialJson.WellEscapedBalances | partial_json.go:31-152 | Every text whose escapes are valid or cut short, with no backslash in a key, is repaired to balanced text |
| PartialJson.RepairAgain | partial_json.go:31-152 | When the cuts are safe, repairing a repaired text changes nothing if and only if nothing was given, or what the scan keeps is some text with no white space in front and, with no bracket open, none behind unless it ends in a keyword or number cut short |
| PartialJson.CompletingTwice | partial_json.go:155-193 | Completing a trailing keyword or number a second time changes nothing |
| PartialJson.TruncatedIsCompleted | partial_json.go:155-193 | Completing changes exactly the texts that end in a part of a keyword at a word boundary, or in a sign, point or exponent of a number and not in a keyword |
| PartialJson.KeptIsClean | partial_json.go:42-97 | What the scan keeps is kept whole by another scan, in the same state |
| PartialJson.UnicodeCutGoesAstray | partial_json.go:104-129 | An input for which the cut of a truncated unicode escape leaves the text unbalanced |
| PartialJson.KeyCutGoesAstray | partial_json.go:201-248 | An input for which the removal of a trailing key leaves the text unbalanced |
| PartialJson.RepairAgainTrims | partial_json.go:31-152 | An input that a second repair changes |
| PartialJson.RepairJson | partial_json.go:31-152 | The program computes the repair function |
| Serializable.CheckIsExact | options.go:380-476 | The walk accepts only values without a reachable cycle or bad leaf if objects at one address are alike, and accepts all of those within the depth bound if no object is inside another at its address |
| Serializable.DistinctIsEnough | options.go:395-424 | Distinct addresses meet both conditions |
| Serializable.CheckSound | options.go:380-476 | After an accepting walk every done mark means that the whole reachable part is clean, and no mark is lost |
| Serializable.CheckComplete | options.go:380-476 | A clean part within the depth bound is accepted whatever is done already, shared parts included |
| Serializable.SerializesIsHeight | options.go:380-476 | No reachable cycle and no bad leaf is the same as having a finite height |
| Serializable.SharedAddressLooksCyclic | options.go:395-424 | A value graph with a shared address, no cycle and no bad leaf that is refused |
| Serializable.SharedAddressHidesAValue | options.go:395-424 | A pointer to a struct that holds a channel, and one to its first field: accepted if the field is walked first, refused in the other order |
| Serializable.ValidateProviderOptions | options.go:352-366 | Validation passes exactly when every option's walk does, which is when every option serializes, under the conditions of the walk |
| Reasoning.RunKeepsText | generate.go:163-221 | For any chunks and flushes the parts' texts concatenate to the chunks' texts |
| Reasoning.BlocksAreParts | generate.go:163-221 | Keyed blocks of text and an optional signature, with differing neighbours, come out as one part each |
| Reasoning.OwnSignature | generate.go:163-233 | A part has its own block's signature and no other |
| Reasoning.ReasoningAccumulator.AddChunk | generate.go:163-181 | A chunk adds its text and no other to what is held, the parts so far stay, and at most one is added |
| StreamCodec.StreamAndCollect | generate.go:369-618 | The loop's chunks read back give exactly the loop's steps and their total usage; the result counts as many steps if and only if the first answer is not one that is empty but for shown reasoning |
| StreamCodec.StreamWithToolLoop | generate.go:899-1164 | The run takes the course that its answers determine, with its number of steps and its cause of ending, and its chunks decode to its steps |
| StreamCodec.CourseIsUnique | generate.go:899-1164 | The answers determine one number of steps and one ending |
| StreamCodec.OnlyReasoningIsShown | generate.go:460-618 | One reasoning chunk and nothing else is such a first answer |
| StreamCodec.ReaderStepIsLoopStep | generate.go:1034-1072 | A decoded step equals the loop's but for the normalized finish reason, and its sources are equal if and only if none came on the provider's finish chunk |
| StreamCodec.PassedOn | generate.go:2241-2362 | The reader accumulates from the passed-on chunks what the loop accumulates from all of them |
| StreamCodec.DecodeStep | generate.go:460-618 | Decoding the chunks of one more step yields one more step and keeps the total |
| StreamCodec.SourcesRebuilt | generate.go:2259-2285 | Exactly the sources of the unforwarded finish chunks are missing |
| AnthropicAssembly.AcceptedIffWellFormed | provider/anthropic/anthropic.go:2000-2214 | A document is returned if and only if the stream has one message_start before all other message and block events, blocks opened, continued and closed in turn with valid input, and a message_stop |
| AnthropicAssembly.ReassemblyInvertsSerialization | provider/anthropic/anthropic.go:2000-2255 | From any framed stream that sends a message's fields, and its blocks in any interleaving, each cut in any way, that message is returned with exactly those blocks |
| AnthropicAssembly.SentIsWellFormed | provider/anthropic/anthropic.go:2000-2214 | Every such stream is accepted |
| AnthropicAssembly.MessageComesBack | provider/anthropic/anthropic.go:2149-2180 | The fields of a message, cut into a start event and deltas in any way, come back |
| AnthropicAssembly.OnlyOwnEvents | provider/anthropic/anthropic.go:2080-2190 | A block depends on its own events only |
| AnthropicAssembly.SentBlockIsRebuilt | provider/anthropic/anthropic.go:2080-2190 | The events of one block rebuild it however its fields are cut |
| AnthropicAssembly.AccumulateStreamedMessage | provider/anthropic/anthropic.go:2000-2214 | The program computes the rebuilt document or the refusal |
| AnthropicTransports.TwoTransportsAgree | provider/anthropic/anthropic.go:1551-1903 | For every sequential stream with ascending indexes of blocks that the readers agree on, the ordered parts from the events equal those read from the rebuilt document, tool inputs compared as JSON values |
| AnthropicTransports.AgreeAsDocuments | provider/anthropic/anthropic.go:1414-1470 | Whatever the indexes, the two agree exactly if a document with the blocks in the order sent has the same parts as one with the blocks by index |
| AnthropicTransports.BlockKeepsInStep | provider/anthropic/anthropic.go:2365-2481 | After every block the two readers have the same parts and await the same results |
| AnthropicTransports.DocumentOfStream | provider/anthropic/anthropic.go:2000-2214 | A sequential stream is accepted, and its document reads as its blocks sorted by index |
| AnthropicTransports.UnreadableDisagrees | provider/anthropic/anthropic.go:2257-2322 | With a block that has something else than a string in a string's place the document is refused while the events are read |
| AnthropicTransports.ParseSse | provider/anthropic/anthropic.go:1472-1921 | The event loop with its block variables computes the ordered parts of the finishing chunk, or none after an error event |
| AnthropicTransports.ReadContent | provider/anthropic/anthropic.go:2365-2481 | The content loop computes the document's parts |
| AnthropicTransports.OrderedContent.Finish | provider/anthropic/anthropic.go:1458-1470 | Texts and thinking get their accumulated text, other parts stay |
| AnthropicOrder.OneBlockAgrees | provider/anthropic/anthropic.go:1414-1470 | A stream of one block is read alike if and only if its strings are strings, its text or redacted payload is not empty, its tool input comes in fragments or is an empty object at the start, and it has at most one signature |
| AnthropicOrder.StartInputDisagrees | provider/anthropic/anthropic.go:1551-1903 | A tool block that is sent its input with its start event is read differently |
| AnthropicOrder.TwoSignaturesDisagree | provider/anthropic/anthropic.go:1432-1447 | A thinking block that is sent two signatures is read differently |
| AnthropicOrder.AgreeIffAscending | provider/anthropic/anthropic.go:1414-1470 | For distinct indexes and blocks that show as different parts, the readers agree if and only if the blocks that show are sent in ascending order |
| AnthropicOrder.DocTells | provider/anthropic/anthropic.go:2365-2481 | The parts of a document are its blocks that show, in their order, each server call with the result that follows it |
| AnthropicOrder.FallingIndexesDisagree | provider/anthropic/anthropic.go:1414-1430 | Two different text blocks with falling indexes are read differently |
| OpenAIToolCalls.EveryCallIsFinished | internal/openaicompat/openaicompat.go:767-847 | On a stream read to its end each started call gets one final chunk that repeats its deltas and is what its input fragments say; the end is an error if and only if some fragments never got a name |
| OpenAIToolCalls.OneTerminalChunk | internal/openaicompat/openaicompat.go:646-847 | The last chunk is the only finish or error, and calls sent together ascend by index |
| OpenAIToolCalls.NeverConfused | internal/openaicompat/openaicompat.go:646-750 | On every stream, failed ones included, the chunks of one call never contradict each other |
| OpenAIToolCalls.RunStops | internal/openaicompat/openaicompat.go:690-698 | The parser stops early if and only if the input has a bad event or a call's arguments go over the limit |
| OpenAIToolCalls.SameCall | internal/openaicompat/openaicompat.go:646-720 | One more fragment keeps id, name and arguments of its call as the input defines them |
| OpenAIToolCalls.SortedIndices | internal/openaicompat/openaicompat.go:718-724 | The keys of the map in ascending order |
| OpenAIToolCalls.ParseStream | internal/openaicompat/openaicompat.go:492-848 | The program sends exactly the specified chunks |
| ReasoningDetails.AccumulatedIsCanonical | internal/openaicompat/reasoning_details.go:20-63 | The visible text is the deltas' visible text, and no two neighbours are mergeable |
| ReasoningDetails.CanonicalIsKept | internal/openaicompat/reasoning_details.go:20-63 | Accumulating a list gives it back if and only if no two neighbours are mergeable |
| ReasoningDetails.AccumulatingTwice | internal/openaicompat/reasoning_details.go:20-63 | Accumulating an accumulated list changes nothing |
| ReasoningDetails.JoinKeeps | internal/openaicompat/reasoning_details.go:45-56 | Joining adds up the text, keeps the type and keeps every identifying field |
| ReasoningDetails.Accumulator.Add | internal/openaicompat/reasoning_details.go:20-63 | Details are joined up to the first one over the size cap, where it fails |
| Normalize.NormalizedIsPaired | provider/normalize.go:10-14 | No two neighbours share an effective role, and every call that expects a result is answered in the very next message |
| Normalize.NormalizedConserves | provider/normalize.go:24-137 | All parts stay in order and in their role's turns; results are the original ones with one aborted result for each call nothing answers |
| Normalize.NormalizedIsNormal | provider/normalize.go:10-14 | Normalizing twice is normalizing once |
| Normalize.NormalIsKept | provider/normalize.go:10-14 | Exactly the paired and alternating histories are left as they are |
| Normalize.PairedAdds | provider/normalize.go:24-79 | Pairing adds the synthetic results and drops and moves nothing |
| Normalize.MergedKeeps | provider/normalize.go:100-137 | Merging moves no part to another role and reorders neither results nor other parts |
| Normalize.EnsureToolResultPairing | provider/normalize.go:24-79 | The loop over the growing list ends and computes the pairing |
| Normalize.MergeConsecutiveRoles | provider/normalize.go:100-137 | The loop computes the merged history |
| Normalize.NormalizeToolMessages | provider/normalize.go:10-14 | The program computes the normalized history |
| AgentState.PackIsExact | agent_state.go:123-149 | Kind and step are read back, the step if and only if it is below 2^32 |
| AgentState.ExactlyOneWins | agent_state.go:168-190 | Once the loop has stopped writing, exactly one of the concurrent calls under way succeeds, with its kind and the old step |
| AgentState.RunDecides | agent_state.go:168-190 | Along every interleaving at most one call has won, and the word is unchanged until then |
| AgentState.TerminalSticks | agent_state.go:151-190 | From a sound state with a terminal word, every interleaving keeps the word if and only if the loop has no other word left to write |
| AgentState.LoopOverwritesTerminal | agent_state.go:136-149 | While the loop still writes, a terminal state is overwritten and two calls can succeed |
| AgentState.RunFollows | agent_state.go:136-190 | Along every interleaving of the loop's writes with calls, the word has the step of the last word the loop wrote, in the order it wrote them, and its kind or a terminal one |
| AgentState.State.SetTerminal | agent_state.go:168-190 | The compare-and-swap loop ends and decides on the last word it read, whatever others store meanwhile |
| Transcript.TranscriptIsPaired | generate.go:1372-1548 | In every completed run each client call of the response messages is answered once, in order, by the one tool message right after its assistant message |
| Transcript.TranscriptIsStory | generate.go:2147-2165 | The response messages are the story of the steps; the last assistant message is repeated if and only if the loop was stopped after a step without client calls |
| Transcript.ServerToolRepeats | generate.go:2147-2165 | A run with a provider's tool and a step limit of one that repeats its message |
| Transcript.UsageIsTotal | generate.go:1455-1470 | The usage is the sum over the steps, which are numbered from 1 |
| Transcript.EndsIdleAtHighest | generate.go:1333-1342 | In every run, errors and panics included, the step written never goes down and the last state is idle at the highest announced step |
| Transcript.ObservedStepNeverFalls | agent_state.go:123-149 | Below the 32-bit limit, so it is for the step and kind that Observe reads from the stored words |
| Transcript.NobodySeesAStepFall | agent_state.go:123-190 | In every interleaving of a run with calls of SetTerminal the step read never goes down, and ends at the highest one announced, idle or terminal |
| Transcript.RoundAdds | generate.go:2051-2088 | After merging, a step adds its assistant message and one message with all its answers |
| Transcript.ExecuteToolsParallel | generate.go:1733-1987 | In any order of the goroutines, messages and results are those of the calls in call order |
| Transcript.MergeToolMessages | generate.go:2170-2185 | The loop computes the merged messages |
| Transcript.BuildToolMessages | generate.go:2024-2045 | One tool message for each client call, with the result or the shortened error |
| Transcript.GenerateText | generate.go:1313-1581 | The program returns the result of the run and stores exactly the announced states |
| RefInline.NothingBlocked | internal/gemini/schema.go:46-87 | No blocked keyword is left anywhere, whatever the schema and its definitions |
| RefInline.NoRefLeft | internal/gemini/schema.go:46-87 | No reference is left if and only if every one the walk gets to is a string |
| RefInline.PreprocessIsClean | internal/gemini/schema.go:23-36 | The first pass leaves neither references nor blocked keywords if and only if the schema is not a reference whose row ends in something else than an object, and every reference the walk gets to is a string; such a schema is kept as it is |
| RefInline.PreprocessTwice | internal/gemini/schema.go:23-36 | With string references, cyclic or not, it is the first condition alone, and a second pass changes nothing |
| RefInline.ReferenceToTrueIsKept | internal/gemini/schema.go:31-33 | A reference to a definition that is true is kept with its definitions |
| RefInline.InlineIsExpansion | internal/gemini/schema.go:46-87 | Up to chains of ten references the result is the full expansion, which is unique |
| RefInline.ExpansionExists | internal/gemini/schema.go:46-87 | A full expansion exists if and only if the chains are bounded |
| RefInline.RowIsFollowed | internal/gemini/schema.go:51-61 | A row of references is followed to its end up to the limit and given up beyond it |
| RefInline.CycleEnds | internal/gemini/schema.go:51-61 | A self-reference has no expansion and is inlined as the generic object |
| RefInline.NamesKept | internal/gemini/schema.go:64-72 | Every name of every object the walk gets to is kept if and only if none of them is blocked |
| RefInline.PropertyNamedIfIsLost | internal/gemini/schema.go:64-72 | For one, a property named like a blocked keyword is dropped |
| NativeSchema.TransformCloses | provider/anthropic/anthropic.go:1166-1310 | Whatever is accepted becomes a schema with supported keywords only, no oneOf, and closed objects, throughout |
| NativeSchema.TransformAgain | provider/anthropic/anthropic.go:1166-1310 | A second transformation changes nothing if and only if no visited schema mixes a composition with object, array or string keywords |
| NativeSchema.LevelAgain | provider/anthropic/anthropic.go:1166-1278 | An unmixed schema's output is stable if and only if its nested outputs are |
| Realtime.EveryReachableStateIsSafe | realtime.go:385-503 | Under every scheduling: running tools within the slots, the queue within its size, the wait count equal to the live goroutines, published events a prefix of the provider's, no send on a closed channel, each result sent at most once |
| Realtime.NothingIsUndone | realtime.go:291-297 | The first error and the end of the context stay, the wait count does not rise from zero, and nothing is published after closing |
| Realtime.ClosedIsQuiet | realtime.go:291-297 | When the events are closed all goroutines have ended, all slots are free and no tool is registered |
| Realtime.SentExactlyIf | realtime.go:451-503 | Some scheduling sends a call's result if and only if its context is not canceled, or it has passed the check already; a queued call waits for a slot first |
| Realtime.CancelledIsSentIfChecked | realtime.go:479-503 | A call that is marked as canceled can still be answered if and only if it is between the check and the send |
| Realtime.CancelledWhileSending | realtime.go:483-496 | A schedule in which a call canceled between the check and the send is answered |
| Realtime.CancellationMarks | realtime.go:438-478 | In every run a cancellation with an id marks the last call that registered under it, if that has not unregistered, and no other |
| Realtime.CancelledBeforeRegistration | realtime.go:465-471 | A schedule in which a cancellation handled before the call registers is lost |
| Realtime.RealtimeSession.Schedule | realtime.go:385-541 | The goroutines, run in any order from any safe session, keep it safe and undo nothing final; with closed events all have ended |
| Realtime.RealtimeSession.CancelAllTools | realtime.go:531-541 | Exactly the registered tools are cancelled |

## Left out

- NextLine, and the deprecated line-wise use of the scanner: it shares the line reader that is modelled.
- Sse: the reader is given by its reads; a reader that never makes progress is stopped as the standard library's own reader loop does.
- StreamCodec.StreamAndCollect: errors, panics and cancellation during a stream, whose partial results the code does not call reliable, and the text channel.
- StreamCodec.ReaderStepIsLoopStep: sources carried only on the provider's finish chunk are not forwarded and so not rebuilt.
- AnthropicTransports.TwoTransportsAgree: blocks sent one after the other, with ascending indexes and each read alike by itself, because the two readers disagree otherwise; tool ids that are not empty and distinct; a result directly after the run of calls it belongs to; tool inputs are equal as JSON values, not as text, because the document prints them again, and every input that occurs must be read back from its printed form; blocks without fragments for types that have none; of the decoding of the document only that its blocks' strings are strings; no response-format mode and no code-execution blocks whose input is rewritten; the chunks other than the final ordered parts.
- AnthropicOrder.AgreeIffAscending: parts that differ, since equal ones can be exchanged unnoticed, and one result at most for each call, after it both as sent and by index.
- AnthropicAssembly.ReassemblyInvertsSerialization: a delta that puts a whole usage object among the message's fields, beside the usage it adds up.
- AnthropicAssembly: encoding of the rebuilt document as bytes; JSON decoding of the events is a parameter.
- OpenAIToolCalls.EveryCallIsFinished: cancellation by the consumer; usage, citations and provider metadata; the id that a provider omits is an arbitrary non-empty one.
- OpenAIToolCalls.SameCall: the name of a call may change after its start chunk, in the code as in the model; only the id is fixed then.
- ReasoningDetails.Accumulator.Add: a detail that cannot be encoded as JSON; the size of a detail is a parameter.
- Normalize.NormalizedIsPaired: calls in messages of other roles than assistant are not looked at by the code and not answered; message-level provider options.
- Transcript.TranscriptIsPaired: hooks that inject tool messages, or assistant messages that make client calls; providers whose ordered content makes other calls than their list of calls; the case of no executable tool.
- Transcript.GenerateText: retries, timeouts, request building and the observability hooks, which only read; a hook that panics appears as a panic at its place.
- Transcript.EndsIdleAtHighest: the streaming loop writes the same states and is not modelled a second time.
- AgentState.ExactlyOneWins: memory-model details; loads, stores and swaps are atomic steps.
- RefInline: the compatibility pass after the inlining.
- NativeSchema: object keys are the keywords the code names or other names; the text of the description is a parameter.
- Realtime.EveryReachableStateIsSafe: waiting times, audio and the provider's connection; canceling all tools is one step where the code releases a lock between collecting and calling; liveness.
- Realtime.SentExactlyIf: a result counts as sent when it is handed to the connection, whether or not that fails.
- Realtime.RealtimeSession.Schedule: the session's variables are one value, and of the goroutines' steps only the loop over the registered tools is written out statement by statement.
- Serializable.CheckIsExact: its two conditions on shared addresses are not necessary; whether a shared address does harm depends on the order of the walk, so no condition that ignores that order is exact (Serializable.SharedAddressHidesAValue).
- PartialJson: parsing the repaired text, and Unicode beyond the white space that trimming removes.
- Serializable: reflection; a value is a node with an address and its parts.
- HTTP, authentication, MCP, observability, embeddings and the other providers: plumbing or easy members.
