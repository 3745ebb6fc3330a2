# Verification model of the Anthropic-to-OpenAI gateway

The gateway takes requests in the Anthropic Messages format, sends them to OpenAI-style Chat
Completions providers, and translates the answers back, streamed or whole. This project models the
parts of it whose correctness spans several functions, and proves what they promise together:

- **Streaming.** Bytes become lines, lines become chunks, chunks become provider events
  (`SseParser`), and events become the events an Anthropic client reads (`Encoder`,
  `StreamServer`). `Reading` spells out what is read from a line and from a chunk, and `Outcomes` the
  words in which either kind of answer ends. `Conservation` says what a finished stream contains in terms of what the provider
  sent, in terms that `Projections` spells out; `Refinement` compares it, as a client reassembles it, with the non-streaming answer
  (`Response`). `Sending` is the provider's side: it shows that every slicing of an answer can be
  sent. `Serving` puts reader, relay and body loop together and compares what the client and the
  provider's circuit breaker learn.
- **Requests.** `Adaptation` fits a request to a provider's capabilities, `History` decides which
  conversations pair tool calls with results, `Translation` turns a conversation into Chat
  Completions messages, `Places` says where each block ends up in them and how it reads there,
  `Rearrangement` in what order things arrive, `NormalForm` which
  conversations are sent alike, and `Traffic` what a target without tools is sent all the same.
- **Routing.** `Ordering` is the weighted random order of the targets and `Proportion` counts its
  draws; `Breaker` is the circuit breaker, `Routing` the candidates, the retry loop and the relayed
  stream over all the breakers, while other requests act on them between any two steps; `Reports`
  spells out what a request answers and what it tells each breaker; `Config`
  gives the facts the router takes for granted.
- **Admission.** `Admission` is the sliding-window limiter with its permit, `Racing` the limiter under
  calls that enter in another order than that of their clock readings, `Permits` the client and
  global permits of interleaved requests.

Code that works step by step is written as methods with loops, or as a class where the source keeps
an object (`StreamEncoder`, `CircuitBreaker`, `Router`, `ClientIdentity`). Each is proved equal to a
specification function, or against a history kept in ghost fields, and the properties are proved
about those. UTF-8 decoding and JSON parsing and printing are parameters (`Codec`, `show`), random
draws and clock readings are inputs, and so is what the network answers. Errors are compared by kind
and by whether they may be retried.

Six places where the code does less than one might expect, each at a concrete input:

- An id or name that goes on growing after both first became known reaches a streaming client cut
  short (`Sending.SplitIdHappens`). The contents of the two paths agree if and only if no fragment
  after a call's introduction carries any more id or name (`Refinement.StreamingRefines`,
  `Refinement.SettledMeans`).
- A target without parallel tools is not told so when a request has tools and no `tool_choice`
  (`Adaptation.ParallelUnguardedHappens`); it is told exactly when the client sent a tool choice other
  than none (`Adaptation.ParallelGuard`).
- A target without tools is sent tool calls or tool messages (`Traffic.ToolsUntoldHappens`) exactly when
  the conversation holds a call or a result (`Traffic.ToolsUntold`).
- A failed tool result and a successful one can be sent alike (`NormalForm.ErrorFlagIsText`): exactly
  when the successful one's text is the failed one's with `Error: ` before it
  (`NormalForm.ResultReplaced`).
- The breaker's failure counter is a `u32` that wraps in a release build, so that a provider which has
  failed 2^32 times in a row can be let through (`Breaker.WrapForgets`): exactly while the counter
  has not reached the threshold again, the cooldown after the last failure before the wrap has
  passed, and that after the latest has not (`Breaker.BreakerAgreesWithHistory`).
- Calls that race between reading the clock and taking the lock can exceed the rate limit
  (`Racing.RaceExceedsLimit`). They cannot as long as they enter in the order of their readings
  (`Racing.InOrderIsLimited`).

## Model

| member | source | states |
|---|---|---|
| JsonModel.ChunkReadsBack | src/provider.rs:604-638 | every field of a chunk is read from where the provider puts it: any usage, choices, call deltas and finish reasons can be sent and are read back unchanged |
| Lines.SplitCovers | src/provider.rs:589-594 | the drained lines and the rest left in the buffer, rejoined with newlines, are the input; no line holds a newline |
| Lines.SplitUnique | src/provider.rs:589-594 | that is the only way to split the input into newline-free lines and a newline-free rest |
| Lines.SplitAppend | src/provider.rs:589-594 | reading more bytes keeps the lines already complete and resumes from the rest |
| SseParser.PaddingIgnored | src/provider.rs:595-603 | white space around the data of a line does not matter to what the line says |
| SseParser.CrLfIsLf | src/provider.rs:592-594 | a carriage return before the newline does not matter |
| Reading.LineDecoded | src/provider.rs:592-594 | at most one carriage return is dropped from the end of a line, and what is left is the line's text or, if it is not UTF-8, an error |
| Reading.OtherLines | src/provider.rs:595-596 | a line that does not start with `data:`, or has only white space after it, is passed over |
| Reading.DataLines | src/provider.rs:595-603 | with any of the Unicode white space characters around it, `[DONE]` is the end mark, data that parses is a chunk and any other data is an error |
| Reading.LineSaysExactly | src/provider.rs:594-639 | a line says nothing, the end, an error, or what its chunk says |
| Reading.ReceivedUntilFailure | src/provider.rs:587-589 | the bytes before the first transport failure are what is read, whatever comes later, and that failure is how the input ended |
| Reading.ChunkSaysExactly | src/provider.rs:604-639 | a chunk says exactly its usage if there is any, then choice by choice the content if it is not empty, every one of the calls in order, and the finish reason if there is one |
| Reading.ChunkRead | src/provider.rs:604-611 | usage is read only if both token counts are there as unsigned 64-bit numbers, and every item of a `choices` list is a choice |
| Reading.ChoiceRead | src/provider.rs:611-639 | content, calls and finish reason of a choice come from `delta.content`, every item of `delta.tool_calls`, and `finish_reason`, where these have the right type |
| Reading.CallRead | src/provider.rs:616-629 | index, id, name and arguments of a call come from `index`, `id`, `function.name` and `function.arguments`, where these have the right type |
| SseParser.ReadCall | src/provider.rs:618-633 | one call fragment updates the half-built tool and emits its introduction, the flushed arguments and its own arguments, in that order and only when due |
| SseParser.ReadCalls | src/provider.rs:615-635 | the loop over the call deltas of a choice does what the fold over its actions does, stopping at a call without an index |
| SseParser.ReadOne | src/provider.rs:611-639 | one choice: its text if not empty, then its calls, then its finish reason |
| SseParser.ReadChoices | src/provider.rs:611-639 | the loop over the choices, stopping at the first error with the events before it |
| SseParser.HandleChunk | src/provider.rs:604-639 | one chunk: its usage, then its choices |
| SseParser.HandleLine | src/provider.rs:594-639 | one line: ignored, the end of the stream, an error, or a chunk |
| SseParser.ValidateStreamedTools | src/provider.rs:656-672 | accepts exactly the tables in which every tool was announced and has JSON arguments, in whatever order the table is walked |
| SseParser.Conclude | src/provider.rs:597-602 | the end of a stream yields one `Finished` with the last reason and usage, or an error |
| SseParser.DrainLines | src/provider.rs:590-640 | the inner loop empties the buffer of complete lines without losing what is still to come, or stops with the outcome of the whole stream |
| SseParser.ParseSse | src/provider.rs:577-646 | the reader's events and error depend on the bytes received before the first failure and on how the input ended, and on nothing else: the blocks they came in do not matter |
| SseParser.ReceivedBlocks | src/provider.rs:587-589 | any partition of the same bytes into blocks is the same input to the reader |
| SseParser.RunAppend | src/provider.rs:587-640 | reading two stretches of input is reading the first and, if it did not stop, the second from the state it left |
| SseParser.ParsingIsOnline | src/provider.rs:587-640 | the events after any bytes are a prefix of those after more bytes, and equal to them once the reader has stopped |
| SseParser.NothingAfterDone | src/provider.rs:597-602 | after a complete `[DONE]` line neither further bytes nor the way the input ends change the output |
| SseParser.FinishedComesLast | src/provider.rs:597-602 | `Finished` ends exactly the streams without an error and appears nowhere else |
| Ascending.KeysUnique | src/anthropic.rs:566 | there is one increasing enumeration of the buffered tools' keys, the one the encoder follows |
| Encoder.StreamEncoder.constructor | src/anthropic.rs:469-489 | a new encoder has no block, no tool and the given input tokens |
| Encoder.StreamEncoder.EncodeEvent | src/anthropic.rs:491-581 | one event changes the encoder's whole state and sends events as the specification says |
| Encoder.StreamEncoder.Finish | src/anthropic.rs:545-579 | at the end: token counts replaced if given, every block closed, then the message's end |
| Encoder.StreamEncoder.Close | src/anthropic.rs:550-575 | the text block is closed, or an empty one sent when there is nothing else, then one block for each tool |
| Encoder.SendTools | src/anthropic.rs:566-575 | the loop sends start, input and stop of each tool under consecutive block indices |
| Encoder.EncoderReflects | src/anthropic.rs:491-544 | before the end, what the encoder has sent and kept is determined by the texts, each tool's own events and the last usage of its input |
| Encoder.Confluence | src/anthropic.rs:491-581 | two inputs with the same texts, the same events for each tool, the same last usage and the same end give the same state and output, however they are interleaved |
| StreamServer.ServeBody | src/server.rs:129-152 | the body loop sends the message start and what each polled item encodes to, and stops after an error or an idle timeout |
| StreamServer.BodyOfEvents | src/server.rs:135-139 | events polled before the end are sent as the encoder encodes them all |
| StreamServer.FinishRead | src/anthropic.rs:545-579 | from any encoder state that has not finished, the final events close the open block, frame the tools contiguously and complete the message |
| StreamServer.OutputGrammar | src/server.rs:129-152 | every stream read to its end starts with `message_start`, has contiguous blocks with at most one open and every delta aimed at it, text only at index 0, and is a complete message exactly when the provider's stream neither failed nor stalled; otherwise it ends with exactly one error event |
| Conservation.Introduction | src/provider.rs:621-627 | the shortest prefix of a tool's fragments in which both id and name are known |
| Conservation.HeldStep | src/provider.rs:618-633 | one fragment keeps parser and encoder in step: what the encoder holds for the index is the call delivered by all its fragments so far |
| Conservation.RunSummary | src/provider.rs:604-639 | the reader goes on exactly while nothing it reads is an error; its table then sums up each index's fragments, and its events, encoded, hold the same texts, usage and calls as the provider sent |
| Conservation.StreamSucceeds | src/provider.rs:656-672 | a stream ends without an error exactly when it ended properly, no action was an error, a finish reason came, and each call seen has an id, a name and JSON arguments |
| Conservation.FinishedStream | src/provider.rs:615-634 | a stream that finishes tells the client exactly what the provider sent: its text, then one block for each tool index in ascending order with all its argument fragments in order of arrival and the id and name known at its introduction, then stop reason and output tokens |
| Projections.Stretches | src/provider.rs:604-639 | of two stretches of a stream, texts and each index's fragments follow one another, and the later usage and finish reason count |
| Projections.OneThing | src/provider.rs:604-639 | one action is a text, a usage, a finish reason, or a fragment of its own index and of no other |
| Projections.Fragments | src/provider.rs:619-629 | ids, names and arguments of two stretches of fragments follow one another |
| Projections.OneFragment | src/provider.rs:619-629 | one fragment brings its id, its name and its arguments, each if there |
| Response.CallsConvert | src/provider.rs:527-540 | the calls convert exactly when all their arguments are JSON, each to the block with its id, its name and its parsed arguments, in order |
| Outcomes.DirectReason | src/provider.rs:564-575 | a non-streaming answer says "end_turn" for `stop` or no reason, "max_tokens" for `length`, "tool_use" for `tool_calls` or `function_call`, "refusal" for `content_filter`, and any other reason is an upstream error |
| Outcomes.DirectFails | src/provider.rs:519-540 | an answer without a choice, or with a call whose arguments are not JSON, is an upstream error |
| Outcomes.DirectAnswer | src/provider.rs:519-562 | the other fields of a non-streaming answer: id, model, token counts (zero if not given), the content or else the refusal as text, present unless it is empty and there are calls, and then every call in order |
| Outcomes.StreamReason | src/provider.rs:636-639 | a stream without an error says, in the same words, the reason of the last finish reason sent |
| Outcomes.StreamFails | src/provider.rs:597-646 | anything wrong in what is read is an upstream error; read without one, a stream fails only with the failure its input ended with, or with an upstream error where the message is not whole |
| Outcomes.Unsound | src/provider.rs:617-637 | what is wrong: data that is not JSON or not UTF-8, a call without an index, and an unknown finish reason |
| Outcomes.FirstWords | src/anthropic.rs:469-478 | a stream opens with the id, model and token estimate of its message |
| Outcomes.LastWords | src/error.rs:64-73 | an error in the provider's stream ends the body with the name of its kind, and a stalled stream with `api_error` |
| Refinement.ReceiveMessage | src/anthropic.rs:491-581 | what a client reassembles from a whole message: the text joined, the tools in order, stop reason and output tokens |
| Refinement.StreamingRefines | src/provider.rs:519-562 | for every comparable answer, every slicing of it and every byte stream that carries the slicing, the reassembled stream has the stop reason and output tokens of the non-streaming answer, and its content if and only if no id or name grew after its call was announced |
| Refinement.WholeIsSettled | src/provider.rs:619-624 | ids and names delivered whole are complete when announced, in whatever order id, name and arguments come |
| Refinement.WholeStreamingEqualsDirect | src/provider.rs:577-646 | so with ids and names delivered whole the reassembled answer equals the non-streaming one |
| Refinement.SettledMeans | src/provider.rs:619-627 | id and name are complete when announced exactly when no later fragment carries any more of either |
| Refinement.SplitIdIsCut | src/provider.rs:619-624 | a concrete pair of fragments whose streamed id lacks its second half |
| Refinement.SlicingExists | src/provider.rs:604-639 | every comparable answer has a slicing into fragments with whole ids and names |
| Sending.ChunkSays | src/provider.rs:604-639 | each thing a slicing says can be said by one chunk, which says nothing else |
| Sending.BytesSay | src/provider.rs:587-602 | given a printer of chunks on single lines, the bytes made of any chunks, each with any number of choices, calls and other fields, are read as exactly what the chunks say, one after the other |
| Sending.EverySlicingStreams | src/provider.rs:577-646 | so every slicing of every comparable answer, grouped into chunks in any way, can be sent, and the refinement holds of the bytes sent |
| Sending.OneEachSays | src/provider.rs:604-639 | every slicing can be said in chunks of one thing each |
| Sending.WholeChunkSays | src/provider.rs:604-639 | and a whole answer, with its usage, text, all calls and finish reason, in a single chunk |
| Sending.PlainStreams | src/provider.rs:577-646 | however ids and names delivered whole are grouped into chunks, the client hears exactly the non-streaming answer |
| Sending.EveryAnswerStreams | src/provider.rs:577-646 | every comparable answer can be streamed, in the finest chunks or in a single one, so that the client hears exactly the non-streaming answer |
| Sending.SplitIdStream | src/provider.rs:619-627 | however it is printed, a concrete chunk lets the client hear a call id cut short where the non-streaming answer has the whole |
| Sending.SplitIdHappens | src/provider.rs:619-627 | and there is a decoder, a parser and bytes for which this happens |
| Adaptation.AdaptParameters | src/provider.rs:118-175 | tokens, temperature, top_p and stop sequences are clamped or dropped exactly as far as the provider allows, or refused |
| Adaptation.AdaptEachBlock | src/provider.rs:220-247 | the loop over blocks refuses an unsupported image or structured result and turns the structured results it accepts into text, leaving all else alone |
| Adaptation.AdaptEachMessage | src/provider.rs:219-248 | the same for every message |
| Adaptation.AdaptRequest | src/provider.rs:115-250 | the whole adaptation: refused exactly when something can neither be supported nor given up |
| Adaptation.AdaptRefuses | src/provider.rs:115-250 | a request is refused exactly when some parameter, the tools, the tool choice, an image or a structured result is not supported and its own fallback flag is off, where there is one |
| Adaptation.AdaptFields | src/provider.rs:115-218 | what each field of an accepted request becomes: the lesser token limit, the parameters kept or dropped, and the same tool choice with parallel calls disabled where the target has none |
| Adaptation.AdaptBlocksSay | src/provider.rs:219-248 | in an accepted request a structured result becomes its print at the same place with the same id and flag; every other block, and every role, is unchanged |
| Adaptation.AdaptIsSound | src/provider.rs:115-250 | a successful result keeps within the declared capabilities: its token limit, temperature, top_p, stop sequences, tool definitions, parallel tool choice, images, and no structured results; the tools capability is a matter of definitions only |
| Adaptation.FittingUnchanged | src/provider.rs:115-250 | a request within every capability is accepted unchanged |
| Adaptation.AdaptTwice | src/provider.rs:256-280 | adapting again for the same provider succeeds and changes nothing |
| Adaptation.AdaptIsStrongest | src/provider.rs:115-250 | adaptation only gives things up, and no more than it must: of all weaker requests within the provider's capabilities its result is the strongest |
| Adaptation.NoFallbackNoChange | src/provider.rs:115-250 | with every fallback off a request passes unchanged if it fits, and is refused otherwise |
| Adaptation.ParallelFieldSays | src/provider.rs:371-390 | `parallel_tool_calls` is the opposite of the choice's disabling flag, and left out without a choice or for none |
| Adaptation.ParallelGuard | src/provider.rs:371-390 | a target without parallel tools is told so exactly when the client sent a tool choice other than none |
| Adaptation.ParallelUnguarded | src/provider.rs:179-218 | every fitting request with tools and no tool choice is accepted unchanged for a target without parallel tools, and the body sent leaves the field out |
| Adaptation.ParallelUnguardedHappens | src/provider.rs:371-390 | a concrete such request and target |
| History.CheckBlocks | src/anthropic.rs:359-381 | the inner loop accepts exactly when the conversation so far and this message are paired, and then holds exactly the ids called and answered |
| History.ValidateToolHistory | src/anthropic.rs:355-384 | accepts exactly the conversations whose call ids are non-empty, unique and the assistant's, and whose results are the user's and each answer one earlier call not yet answered |
| History.PairedExactly | src/anthropic.rs:355-384 | the accepted conversations, pair by pair: only assistants call, with ids that are not empty and not used twice; only users answer, no call twice, and only calls made before |
| History.FlatExactly | src/anthropic.rs:355-384 | a conversation is judged as the sequence of all its blocks in order, each with the role of its message |
| Translation.ReadChat | src/provider.rs:416-446 | the loop over a user or system message separates results from parts, and fails on a call or a structured result |
| Translation.ConvertChat | src/provider.rs:410-457 | results come first, each as its own message, then the rest as one message if there is any |
| Translation.ConvertAssistant | src/provider.rs:458-473 | texts are joined and calls collected, and an image or a result is refused |
| Translation.ConvertMessages | src/provider.rs:406-477 | the whole conversation is translated message by message, or refused when some message cannot be |
| Places.TotalSent | src/provider.rs:406-477 | as many messages are sent as there are results, assistant messages, and system or user messages with a text or image |
| Places.ResultSentAt | src/provider.rs:430-447 | each result is sent at its place among the results, as a tool message with its id and its text, after `Error: ` if it is an error |
| Places.PartSentAt | src/provider.rs:420-456 | each text or image of a system or user message is sent at its place after the message's results: a text alone as it is, else in a list, where an image's URL is the given one or `data:`, media type, `;base64,` and the data |
| Places.CallSentAt | src/provider.rs:458-471 | each call is sent at its place among the calls of its message, with its id, its name and its input printed, and no other calls are |
| Places.WordsSentAt | src/provider.rs:458-471 | an assistant's message has its texts joined as content, or none where there is no text |
| Places.WordsExactly | src/provider.rs:463 | each text stands in the joined text where it stood in the message |
| Places.ConvertRefuses | src/provider.rs:406-477 | a conversation is refused as invalid exactly when an assistant has an image or a result, or another has a call or a structured result |
| Translation.LosesNothing | src/provider.rs:416-473 | the results, the calls, the assistant's words, and the texts and images of the others are the same sequences before and after, said by the same roles |
| Rearrangement.OrderIsKept | src/provider.rs:416-473 | the outgoing sequence of results, texts, images and calls taken together is that of the conversation after moving results to the front of their message and merging an assistant's text before its calls |
| Rearrangement.RearrangedSentAlike | src/provider.rs:416-473 | a conversation and its rearrangement are translated to the same messages |
| Rearrangement.SplitKeepsBlocks | src/provider.rs:416-447 | rearranging a user or system message keeps every block as often as it was there |
| Translation.PairingSurvives | src/provider.rs:406-477 | in the translation of an accepted conversation every tool message names a call of a strictly earlier assistant message, and no call is answered twice |
| Translation.AdaptKeepsPairing | src/provider.rs:219-248 | adaptation does not disturb the pairing of calls and results |
| Translation.ConvertFails | src/provider.rs:430-465 | for a validated and adapted request translation fails exactly when some assistant message holds an image; the other error branches are unreachable |
| Traffic.ToolsUntold | src/provider.rs:176-178 | a target without tools gets no tool definitions, but gets tool calls or tool messages exactly when the conversation holds a call or a result |
| Traffic.ToolsUntoldHappens | src/provider.rs:176-178 | a concrete conversation with a call that such a target is sent |
| NormalForm.NormalSentAlike | src/provider.rs:406-477 | a conversation is sent like its normal form, a conversation in which each result stands in a message of its own before the rest, texts are merged before calls, nothing is empty, and the origin of images, the error flag and equal prints are made the same |
| NormalForm.SentAlike | src/provider.rs:406-477 | two conversations are translated alike if and only if neither can be translated or their normal forms are equal |
| NormalForm.NormalTwice | src/provider.rs:406-477 | the normal form of a normal form is itself |
| NormalForm.CallsToldApart | src/provider.rs:464 | if printing tells all JSON values apart, conversations translated alike make the same calls with the same inputs |
| NormalForm.ResultsSentAlike | src/provider.rs:430-439 | two results are sent as the same tool message exactly when they answer the same call and have the same flag and text, or one is an error and the other has its text with `Error: ` before it |
| NormalForm.ResultReplaced | src/provider.rs:416-456 | replacing one result anywhere in a conversation by another leaves what is sent unchanged under exactly that condition |
| NormalForm.ErrorFlagIsText | src/provider.rs:438 | a concrete family of different conversations that are sent alike |
| Ordering.SortIsStable | src/routing.rs:250 | the sort leaves the candidates of each priority in their order |
| Ordering.SelectIndex | src/routing.rs:262-270 | the selection loop never takes more from the draw than is left and always stops at the selected index |
| Ordering.PickInterval | src/routing.rs:264-270 | a draw selects an index exactly when it lies in that index's interval of accumulated weights |
| Ordering.DrawsAreProportional | src/routing.rs:258-270 | of all possible draws exactly as many as its weight select a candidate |
| Ordering.WeightedPriorityOrder | src/routing.rs:247-274 | the outer loop, which removes one candidate of the best tier at a time, gives the order its draws determine |
| Ordering.OrderIsPermutation | src/routing.rs:247-274 | every sequence of draws gives a permutation with priorities not decreasing |
| Ordering.EveryOrderPossible | src/routing.rs:247-274 | every permutation with priorities not decreasing is given by some draws |
| Proportion.OrdersAreProportional | src/routing.rs:247-274 | for candidates without repetition, the number of draw sequences that give an order is the product of the weights of its candidates |
| Ordering.NeverEmptyRange | src/routing.rs:258-262 | without zero weights no selection, after whatever draws before it, draws from an empty range |
| Breaker.HistoryExplains | src/provider.rs:84-113 | counter and deadline in terms of the failures since the last success, after any sequence of checks, successes and failures, wrapped or not |
| Breaker.RefusalExplained | src/provider.rs:84-113 | a provider is refused exactly while the cooldown after the latest failure at which the wrapping counter reached the threshold has not passed |
| Breaker.BreakerAgreesWithHistory | src/provider.rs:84-113 | the verdict is the expected one (refused exactly while at least max(threshold, 1) counted failures have come since the last success and the cooldown after the latest has not passed) if and only if the counter has not wrapped and forgotten the failures |
| Breaker.WrapForgets | src/provider.rs:109-112 | a concrete history of 2^32 failures after which a provider that should be refused is let through |
| Breaker.FailuresWrap | src/provider.rs:109 | the counter is the number of failures since the last success modulo 2^32, whatever the clock does |
| Breaker.StepExactly | src/provider.rs:84-113 | what a check, a success and a failure of each kind do to counter and deadline, number by number |
| Breaker.StreakExactly | src/provider.rs:95-108 | the failures since the last success: upstream errors, timeouts and overloads count, the other five kinds do not |
| Breaker.CircuitBreaker.Available | src/provider.rs:84-93 | the answer is the verdict of the history, and the state keeps agreeing with it |
| Breaker.CircuitBreaker.RecordSuccess | src/provider.rs:95-99 | closes the circuit and forgets the failures |
| Breaker.CircuitBreaker.RecordFailure | src/provider.rs:101-113 | adds one failure to the history, ignored unless it is upstream, timeout or overloaded |
| Routing.CompatibleOnce | src/routing.rs:193-209 | the compatible candidates use each target entry of the route at most once |
| Routing.Router.constructor | src/routing.rs:188-219 | a new router has one closed breaker of its own for each provider |
| Routing.Router.Available | src/provider.rs:84-93 | the availability of one provider, with no effect on the breakers of the others |
| Routing.Router.Interfere | src/provider.rs:84-113 | any checks, successes and failures of other requests, in order of time, leave every breaker agreeing with its history |
| Routing.Router.Consider | src/routing.rs:195-208 | one target is a candidate exactly when the request fits and its circuit is closed; its breaker is checked only if the request fits |
| Routing.Router.FindCompatible | src/routing.rs:193-209 | the loop, each check reading the clock anew and other requests acting on the breakers between any two checks, finds exactly the targets that fit and whose circuit is closed by the whole history at their check, and notes whether any did not fit |
| Routing.Router.FindCandidates | src/routing.rs:188-219 | the candidates in drawn order; without any, a capability error if some target did not fit and an overload otherwise |
| Routing.TrySendsWhatWasChosen | src/provider.rs:261-284 | the second adaptation never refuses a candidate, so what is sent is what was chosen |
| Routing.AttemptsAreSafe | src/routing.rs:78-113 | for every network: the attempts are the first candidates, at most `max_attempts`; all but the last failed retryably; they stop early only at an answer that is not a retryable error; the result is the last attempt's |
| Routing.AttemptOrder | src/routing.rs:188-219 | no target entry is tried twice, only fitting targets whose circuit was closed when checked are tried, and each only after every such target of better priority |
| Routing.StreamOfLast | src/routing.rs:130-148 | an established stream is what the network answered to the last candidate tried |
| Routing.Router.RetryLoop | src/routing.rs:78-109 | the loop stops at the first answer that is not a retryable error or runs out, and each attempt told its own provider's breaker its outcome, once, whatever other requests did in between |
| Routing.Router.Execute | src/routing.rs:76-113 | the whole request equals candidates followed by attempts, and the histories of all the breakers are its own reports and what other requests did, in the order of time |
| Reports.AttemptsTell | src/routing.rs:90-108 | whatever the network answers, each attempt tells the breaker of its own provider exactly one thing at its time: a success if answered, the error's kind if refused, a timeout if nothing came, and nothing yet for a stream that is established |
| Reports.UntriedTold | src/routing.rs:78-109 | a provider that is not tried is told nothing by the request |
| Reports.ChecksTell | src/routing.rs:195-208 | the breaker of each target that the request fits is checked once, and no other |
| Reports.AnsweredRequestTells | src/routing.rs:92-95 | when a request is answered, the last thing it did to a breaker is to tell the last tried provider's of a success, which leaves it no failures in a row |
| Reports.RequestAnswers | src/routing.rs:76-113 | a request comes to the reply, the error or the timeout of its last attempt, to the error of having no candidates, or to an overload if nothing was tried; every attempt but the last was a retryable error |
| Reports.NoCandidates | src/routing.rs:188-219 | there is no candidate exactly when each target either does not fit or has an open circuit; the error says invalid if some target did not fit and overloaded if all did |
| Reports.CandidateAsked | src/provider.rs:261-284 | the network is asked unless the conversation cannot be translated, which is an invalid request |
| Routing.Router.Stream | src/routing.rs:115-170 | the same for a streamed request, with the tokens counted on the first candidate before any attempt |
| Reports.StreamCounts | src/routing.rs:115-121 | the tokens are those of the first candidate's request, and a failure to count them ends the request before any attempt |
| Routing.Router.CountTokens | src/provider.rs:256-259 | counting adapts a candidate's request again, which neither fails nor changes what is counted |
| Routing.ReadItems | src/routing.rs:135-146 | the relaying loop passes on the items up to the first error, or up to where the server gives up, and knows which |
| Routing.Router.Relay | src/routing.rs:133-149 | a stream read to its end tells its provider's breaker once how it went, and one given up tells it nothing |
| Serving.RelayIsFaithful | src/routing.rs:135-146 | the relay passes on exactly what the reader yields |
| Serving.ClientAndBreakerAgree | src/server.rs:135-151 | for every stream the client's message is complete exactly when the breaker is told of a success; it ends with the reader's error exactly when the breaker is told of that failure; and when it ends with an idle timeout the breaker is told nothing |
| Serving.ServeStream | src/server.rs:129-152 | reader, relay and body loop composed give the transcript the refinement is about, for every way the bytes arrive and wherever the stream stalls |
| Serving.ServeRequest | src/server.rs:125-152 | a streamed request: the client gets the stream of the last candidate tried and nothing else, and after the attempts, and whatever other requests did meanwhile, only the breaker of that candidate's provider is told how the stream went |
| Config.CheckIds | src/config.rs:399-407 | accepts exactly the lists of non-empty ids without repetition |
| Config.CheckTargets | src/config.rs:344-354 | accepts exactly the targets with a configured provider and a non-zero weight |
| Config.CheckRoutes | src/config.rs:335-355 | accepts exactly the routes with models, targets, and valid targets only |
| Config.CheckClients | src/config.rs:358-380 | accepts exactly the clients with a good key, non-zero limits and known routes |
| Config.Validate | src/config.rs:283-382 | accepts exactly the configurations that meet all the conditions |
| Config.SaneExactly | src/config.rs:283-382 | the accepted configurations, condition by condition: nothing empty, no limit or weight of zero, no id twice, no reference to a provider or route that is not there |
| Config.RouterIsSafe | src/config.rs:290-355 | under an accepted configuration every target's provider exists, every selection, after whatever draws before it, draws from a non-empty range, and at least one attempt is allowed |
| Admission.Evict | src/auth.rs:80-85 | popping expired times off the front leaves exactly the times of the last sixty seconds |
| Admission.RecentExactly | src/auth.rs:76-85 | a time is within the window for less than sixty seconds |
| Admission.ClientIdentity.Acquire | src/auth.rs:75-103 | a call is over the rate exactly when the last sixty seconds of the whole history hold `requests_per_minute` accepted calls, over the concurrency exactly when it is not and no permit is free; the deque stays exactly that part of the history |
| Admission.NoWindowOverLimit | src/auth.rs:75-93 | no window `(t - 60s, t]`, wherever it lies, holds more accepted calls than the limit |
| Racing.InOrderIsLimited | src/auth.rs:75-93 | with clock reading and entry as two steps, no window `(t - 60s, t]` holds more accepted calls than the limit whenever calls enter in the order of their readings |
| Racing.RaceExceedsLimit | src/auth.rs:76-92 | a concrete race, under a clock that never goes back, in which three calls are accepted within a minute under a limit of two |
| Permits.StepConserves | src/server.rs:92-100 | each step of any request keeps free plus held permits, for each client and globally |
| Permits.PermitsConserved | src/server.rs:129-132 | under every interleaving of any number of requests free plus held permits equal the capacity |
| Permits.AdmittedExactly | src/server.rs:95-100 | after any run a request gets its client permit exactly when fewer than the client's capacity are held, and, whatever other requests do in between, both permits exactly when fewer than the global capacity are then held; refused, it keeps none |
| Permits.AllReturned | src/server.rs:129-132 | when no request is live every permit is free again |
| Permits.TakenIsGivenBack | src/server.rs:95-100 | a request refused globally gives its client permit back, and one that ends leaves the permits as it found them |

## Left out

- HTTP, TLS, authentication and its headers, cookies, and time as such: an attempt's outcome is an input (a reply, an error, or nothing in time), and so is each clock reading.
- `classify_status` and `classify_transport` (src/provider.rs:674-722): which errors are retryable is part of an attempt's outcome.
- JSON parsing and printing, UTF-8 decoding, base64, URL parsing, the tokenizer, glob matching of routes, hashing and random generation: library code, given as functions or inputs.
- The field checks of `normalize`, `parse_system`, `parse_content`, `parse_image` and `parse_tool_choice`: validation branch by branch. The rejection of "thinking", which two unit tests expect (src/anthropic.rs:666-689), is commented out in the code (src/anthropic.rs:56-60) and not modelled.
- Sections 9.2.5 and 9.2.6 of the WHATWG HTML Living Standard: the code takes each `data:` line as a whole event and knows no bare carriage return as a line end, and the model follows the code.
- Refinement.StreamingRefines: compares answers with one choice, a finish reason the code knows, no `refusal` field and non-empty ids and names. Streaming reads all choices and the non-streaming path only the first; a missing finish reason is an error only when streaming; `refusal` is read only when not streaming.
- Refinement.WholeStreamingEqualsDirect: says nothing of `input_tokens`, for which a streaming client gets only the estimate in `message_start`.
- StreamServer.OutputGrammar: speaks of streams read to their end; a client that goes away sees a prefix.
- Error messages, request ids and retry hints; `validate_streamed_tools` walks a hash map, so even the code does not fix its message.
- Breaker.WrapForgets: a debug build panics where a release build wraps; the model is the release build.
- Serving.ServeRequest: the provider's stream is parsed to its end before the body is sent, where the code passes each item on as it comes; what is sent and reported is the same. A client that goes away midway is not modelled.
- Sending.BytesSay: the printer of chunks is assumed to be inverse to the decoder and parser on the chunks it prints, as JSON printing is.
- Admission.ClientIdentity.Acquire: calls are atomic and their times do not decrease; `Racing` models calls that read the clock and enter at different times, without the permit.
- Permits.PermitsConserved: a request's permits are steps of a shared state machine, not semaphore objects; when a request ends and why is up to the steps.
- Sums of `usize` and `u64` (block indices, weights of a tier) are unbounded here.
- Metrics, tracing, the dashboard, SQL, migrations, static files, templates, the command line and reloading of the configuration.
