# llm-api-router: a verified model of its hard core

The router sits between LLM clients and backends. This project models, in Dafny 4.11, the parts of it whose
promises speak of unbounded runs, and proves those promises:

* **Byte-exact relay.** The held-tail model-name rewriter (`ModelRewrite`, `ModelStream`, `ModelSegmentation`,
  `ModelEdits`, `ModelCuts`, `ModelNames`), JSON string escaping (`JsonString`), SSE framing and the relay (`SseFraming`,
  `StreamChain`). Bytes are real byte sequences.
* **Streaming dialect emitters.** Chat Completions chunks to Anthropic events (`ChatStream`, `MessagesSpec`,
  `MessagesEmitter`, `MessagesClient`, `MessagesDiscipline`, `MessagesContent`, `MessagesTheorems`, `MessagesEndings`,
  `MessagesOrder`, `MessagesStream`) and to Responses events (`ResponsesSpec`, `ResponsesEmitter`, `ResponsesClient`,
  `ResponsesLifecycle`, `ResponsesTheorems`, `ResponsesContent`, `ResponsesEndings`, `ResponsesOrder`, `ResponsesInputs`,
  `ResponsesStream`); `Pipeline` puts rewriter, relay, emitter and client together. An independent *client* that knows
  only the target protocol reads the emitted events: it rejects an event out of place and accumulates what it is told.
  What was sent is read off the decoded chunks alone (`SentContent`). A frame after JSON decoding is a datatype, and
  `decode` is a parameter.
* **Attempts and scheduling.** The retry-then-fallback loop (`AttemptLoop`, `AttemptTheorems`, `AttemptOutcomes`), slots
  and reservations over interleaved requests (`Conservation`, `Interleaving`), weighted rotation (`Rotation`,
  `RotationLists`), the tier policy (`TierPolicy`).
* **Accounting under time.** Sliding-window quota (`Quota`, `QuotaHistory`), failure cooldowns (`Cooldown`), the inbound
  token bucket (`Inbound`). The clock is an explicit argument that does not go back; the bucket uses reals.
* **Request translation.** Anthropic messages (`MessagesRequest`, `MessagesBlocks`) and Responses items
  (`ResponsesRequest`, `ResponsesItems`) to chat messages.

Where the source updates state in place the model is a class whose methods are proved against a specification
function; the theorems are about those functions, over whole runs. `dafny verify dfyconfig.toml` checks everything.

## What the code does not keep

Each of these is a promise or an expectation that is false of the code; the model follows the code, gives an input, and
states when the promise does hold.

* Rewriting depends on the segmentation when a `"model"` token is itself a value, starts at the closing quote of a
  replaced value, or has a name character behind it (there the hold is measured on a shortened buffer but cut from the
  whole one): `ModelCuts`. It does not for every `Separable` stream: `ModelSegmentation.SegmentationIndependent`.
* It also depends on it when the new name is `model` or ends in `"model`, and for no other name:
  `ModelNames.NameExactly`, `ModelNames.PlainNameExactly`.
* A tool index that comes back under a fresh id, and an event behind a finish reason in the same chunk, each make the
  Responses run one that a strict client rejects: `ResponsesInputs.ReusedIndexRejected`,
  `ResponsesInputs.LateChoiceRejected`; nothing else does: `ResponsesTheorems.LifecycleExactly`.
* A Responses event that comes as a bare `data:` line, such as `data: {"type":"response.created"}`, is forwarded without
  its `data:`, as a line no event parser reads: `ResponsesSpec.DataFieldLost`,
  `ResponsesSpec.ForwardedUntouchedExactly`.
* Open blocks do not always close "lowest index first" (convert/stream.go:452): an open prose block closes first, then
  the tool blocks in the order they were opened, so younger prose goes before older tools:
  `MessagesOrder.YoungProseClosesFirst`, `MessagesOrder.CloseOrderExactly`.
* The terminal object does not always list the items "in the order they appeared"
  (convert/stream_responses.go:466-468); it lists reasoning, then the message, then the calls:
  `ResponsesOrder.LateReasoningListedFirst`, `ResponsesOrder.TerminalOrderExactly`.
* `QuotaTracker.Usage` prunes the stored slice in place without storing the shorter slice back, so a live event can
  count twice afterwards, and the list can be left out of time order: `Quota.UsageCountsTwice`,
  `Quota.UsageBreaksOrder`, `Quota.UsageHarmlessExactly`, `Conservation.UsageHarmlessInRuns`. The token limit still
  holds.
* At the very nanosecond a cooldown ends the server is free, yet a failure starts no new cooldown:
  `Cooldown.FreeAtTheEnd`, `Cooldown.FreeButNotCooledExactly`.
* `Retry-After` is rounded to the nearest second and can be too early: `Inbound.RetryAfterTooEarly`,
  `Inbound.RetryAfterCoversExactly`.
* Past 2^63 draws a rotation counter starts every request on the first member: `Rotation.FairPastHalfExactly`; which
  windows are still fair: `Rotation.FairExactly`. Ids with commas let two pools share a counter:
  `Rotation.CommaSharesCounter`, `Rotation.KeyExactly`.
* A rule with a missing fallback server draws from a key that the sweep does not count as live, so a sweep restarts its
  wheel: `Rotation.MissingServerRestarts`, `Rotation.RuleKeyExactly`, `Rotation.TurnDrawsExactly`.
* Candidate names can collide, even across servers: `TierPolicy.ServersCanCollide`, `TierPolicy.IdsCanCollide`,
  `TierPolicy.DistinctIdsExactly`.
* A Responses system or developer item with two texts or an image vanishes without a note:
  `ResponsesRequest.TwoTextsLost`, `ResponsesRequest.SystemFoldedExactly`.
* A tool result whose content is neither a string nor blocks becomes empty without a note:
  `MessagesRequest.NumberResultLost`, `MessagesRequest.ResultKeptExactly`.
* The comment at router/jev.go:378-379 prefers the nearest tier above; the code doubles the distance upward and so may
  step down: `TierPolicy.DefaultStepsDown`, `TierPolicy.DefaultBelowExactly`.

## Model

| member | source | states |
|---|---|---|
| JsonString.EscapeJSONString | proxy/proxy.go:935-972 | the loop builds the escape of the name, byte by byte |
| JsonString.DecodeEscape | proxy/proxy.go:935-972 | decoding the escape of any byte string by section 7 of RFC 8259 gives the string back |
| JsonString.FindJSONStringEnd | proxy/proxy.go:833-845 | the scan finds the first quote that no backslash guards, or -1 |
| JsonString.ScanStopsAtClosingQuote | proxy/proxy.go:833-845 | on a quoted escaped name followed by anything, the scan stops exactly at the added closing quote |
| JsonString.StringEndStable | proxy/proxy.go:833-845 | a string end once found does not move when bytes are appended |
| ModelRewrite.ReplaceJSONModelValue | proxy/proxy.go:865-932 | the two-cursor loop terminates and computes the specified rewrite, and counts its replaced spans |
| ModelRewrite.Decide | proxy/proxy.go:872-913 | one scan step decides as the specification; each early exit leaves nothing to replace behind it |
| ModelRewrite.DecideValue | proxy/proxy.go:897-913 | the decision at a value: skip, replace, or the early exit, which leaves nothing to replace |
| ModelRewrite.PastWhitespace | proxy/proxy.go:891-896 | the whitespace skip before a value |
| ModelRewrite.RewriteShort | proxy/proxy.go:907-909 | a tail shorter than the pattern is kept as it is |
| ModelEdits.EditScript | proxy/proxy.go:865-932 | for every input the output is the input with ordered disjoint spans replaced, each the quoted old name as the value of a token; the length changes by the number of spans times the difference |
| ModelEdits.RewriteIsSplice | proxy/proxy.go:865-932 | the pass equals an independent splice of its spans; all other bytes are kept |
| ModelEdits.SpansAreValues | proxy/proxy.go:865-932 | every replaced span is the old name behind a token, its first later colon and whitespace |
| ModelEdits.EveryValueReplaced | proxy/proxy.go:865-932 | no such value is missed on a separable stream |
| ModelEdits.SpansExactly | proxy/proxy.go:865-932 | on a separable stream a position is replaced if and only if it is the old name as a token's value |
| ModelEdits.ValueExactly | proxy/proxy.go:872-896 | where a token's value stands, byte by byte: the quoted key, no name character, its first later colon, then spaces, tabs and line ends |
| ModelStream.PendingModelHold | proxy/proxy.go:632-673 | the loops compute the length of the tail to hold back |
| ModelStream.HoldExactly | proxy/proxy.go:632-673 | no more is held than from the last whole key with an open value on, otherwise the longest partial key at the buffer's end, at most six bytes and none at all when there is none |
| ModelStream.TrailingPartialKey | proxy/proxy.go:661-672 | the longest proper prefix of the key that ends the buffer |
| ModelStream.ModelRewriteWriter.constructor | proxy/proxy.go:614-620 | starts with nothing held or sent |
| ModelStream.ModelRewriteWriter.Write | proxy/proxy.go:675-698 | one write sends the head of the rewritten buffer and keeps its held tail |
| ModelStream.ModelRewriteWriter.Finish | proxy/proxy.go:703-708 | the held tail is sent as it is |
| ModelSegmentation.HoldStep | proxy/proxy.go:632-698 | one write on a separable stream: what is sent and what is kept continue to the same final bytes for every continuation |
| ModelSegmentation.TailIsFinal | proxy/proxy.go:703-708 | the tail left at the end holds nothing to rewrite |
| ModelSegmentation.SegmentationIndependent | proxy/proxy.go:632-708 | over any split into writes plus Finish the bytes sent equal one pass over the whole stream |
| ModelSegmentation.UnrewrittenFrom | proxy/proxy.go:721-742 | with a missing name the writer only delays bytes |
| ModelCuts.TokenAsValue | proxy/proxy.go:632-698 | a token that is a value, cut behind it: the result differs from one pass |
| ModelCuts.TokenAtClosingQuote | proxy/proxy.go:632-698 | a token at the closing quote of a replaced value: the result differs |
| ModelCuts.NameCharBehindToken | proxy/proxy.go:632-648 | a name character behind a later token: the open key is sent on and its value is missed |
| ModelNames.ReplacementIsToken | proxy/proxy.go:632-698 | for every new name whose quoted form holds a token: a separable stream and a cut where the result differs from one pass |
| ModelNames.PlainNameExactly | proxy/proxy.go:935-964 | the quoted form holds a token if and only if the name is `model` or ends in a quote and `model` |
| ModelNames.NameExactly | proxy/proxy.go:632-708 | the rewriter to a name is independent of the segmentation of every separable stream if and only if its quoted form holds no token |
| SseFraming.FindFrameEnd | convert/stream.go:117-125 | the leftmost of the three terminators, with its length |
| SseFraming.FrameEndStable | convert/stream.go:117-125 | a frame end once found does not move when bytes are appended |
| SseFraming.SplitAppend | convert/stream.go:93-106 | framing a stream cut anywhere gives the same frames and tail as framing it whole |
| SseFraming.SplitRestHasNoFrame | convert/stream.go:93-106 | the kept tail holds no complete frame |
| SseFraming.SplitWellFramed | convert/stream.go:93-125 | every frame ends at its own first terminator |
| SseFraming.SseRelay.Write | proxy/streamusage.go:88-124 | the loop delivers each complete frame once, strips artifacts when asked, keeps the tail; a raw relay passes writes through |
| SseFraming.SseRelay.Finish | proxy/streamusage.go:144-152 | a kept tail is delivered at the end |
| StreamChain.RelayIndependent | proxy/streamusage.go:88-152 | deliveries depend on the bytes, not on the writes |
| StreamChain.RelayKeepsBytes | proxy/streamusage.go:88-152 | without stripping the deliveries run together are the bytes |
| StreamChain.FeedIndependent | convert/stream.go:93-125 | for any split of the same bytes the emitter sees the same frames and the same tail |
| StreamChain.RelayThenFeed | proxy/streamusage.go:88-174 | feeding the emitter the relay's deliveries equals feeding it the raw bytes minus the stripped frames |
| StreamChain.ChainIndependent | proxy/proxy.go:675-708 | rewriter then relay: the client's deliveries are the frames of the rewritten stream, whatever the segmentation |
| MessagesEmitter.ChatToMessages.constructor | convert/stream.go:48-50 | the initial state |
| MessagesEmitter.ChatToMessages.Start | convert/stream.go:334-356 | message_start and its new state as specified |
| MessagesEmitter.ChatToMessages.CloseOpenText | convert/stream.go:444-450 | the open prose block is stopped |
| MessagesEmitter.ChatToMessages.EmitText | convert/stream.go:365-385 | prose opens, switches or continues a block as specified |
| MessagesEmitter.ChatToMessages.ToolArgs | convert/stream.go:422-429 | a fragment becomes a delta of its block |
| MessagesEmitter.ChatToMessages.DropTool | convert/stream.go:431-439 | the index is forgotten |
| MessagesEmitter.ChatToMessages.EmitTool | convert/stream.go:391-420 | a tool delta continues its block, reopens its index under a fresh id, or opens a block |
| MessagesEmitter.ChatToMessages.Close | convert/stream.go:454-461 | every open block is stopped, prose first |
| MessagesEmitter.ChatToMessages.EmitFinish | convert/stream.go:479-488 | blocks are closed and the stop reason kept |
| MessagesEmitter.ChatToMessages.FailOpen | convert/stream.go:255-265 | an untranslatable frame ends the stream in an error event |
| MessagesEmitter.ChatToMessages.HandleChoice | convert/stream.go:221-241 | one choice runs as its list of items: notes, start, thinking, text, tools, finish |
| MessagesEmitter.ChatToMessages.HandleChunk | convert/stream.go:201-245 | one chunk runs as its head and its choices |
| MessagesEmitter.ChatToMessages.Handle | convert/stream.go:127-245 | one frame by its class: inert, native, error, untranslatable, chunk; nothing after a failure |
| MessagesEmitter.ChatToMessages.WriteFrame | convert/stream.go:93-106 | the events of the frames that the write completes, in order, and the tail kept |
| MessagesEmitter.ChatToMessages.FinishFrames | convert/stream.go:506-526 | a tail that is not blank is handled, then open blocks, message_delta and message_stop |
| MessagesDiscipline.StepAccepted | convert/stream.go:334-488 | every step's events are accepted by the client, from every linked pair of states |
| MessagesDiscipline.StepLinked | convert/stream.go:365-461 | every step keeps the link between the emitter's fields and the client's open blocks |
| MessagesDiscipline.RunAccepted | convert/stream.go:127-488 | in every run the events so far are accepted |
| MessagesDiscipline.TerminationAccepted | convert/stream.go:506-526 | the end of the stream is accepted and closes every block exactly once |
| MessagesDiscipline.BlockDiscipline | convert/stream.go:127-526 | for every stream: start once and first, indices without gaps, deltas and stops on open blocks of the right kind, all closed and one final message_stop unless failed |
| MessagesContent.StepFaithful | convert/stream.go:365-439 | every step adds to the client's blocks exactly what the item says |
| SentContent.TextsByPart | convert/response.go:186-218 | a content value says its string, or what its parts say one after the other, each its text, else its refusal |
| SentContent.LossesAre | convert/response.go:173-218 | the notes of a stream name exactly the parts, the unreadable values and the foreign finish reasons of its choices |
| MessagesContent.RunFaithful | convert/stream.go:221-439 | along every run there is an assignment of blocks to tool indices under which the blocks hold what the items say |
| MessagesTheorems.ContentSimulation | convert/stream.go:127-439 | the client rebuilds exactly the text and the reasoning of the decoded choices before any breaking frame and, per tool index and id epoch, the joined argument fragments, however calls and prose interleave |
| MessagesTheorems.BlocksNamed | convert/stream.go:391-420 | every tool block is opened under the name and id of some delta sent, or under an id made from its number |
| MessagesEndings.FrameEffect | convert/stream.go:127-265 | on a stream still going: an inert frame authors nothing, a native one is forwarded, a backend error becomes one error event with its code and message, an untranslatable frame its error event and its note, and only these two fail the stream |
| MessagesEndings.ReframeIs | convert/stream.go:284-286 | a forwarded frame keeps its bytes up to its trailing line ends, and gets one normal terminator |
| MessagesEndings.RunBooks | convert/stream.go:201-245 | over every run: failed by the first breaking frame, started by the first choice before it, and id, model, stop reason, token counts and notes hold what the chunks said last |
| MessagesEndings.ErrorIsLast | convert/stream.go:184-265 | the first breaking frame becomes one error event, and that is the last event of the whole stream |
| MessagesEndings.Ending | convert/stream.go:479-526 | the client fails if and only if some frame breaks the stream, has a message if and only if some choice came before, and any other message is closed: blocks, message_delta with the stop reason and counts of the decoded chunks, message_stop |
| MessagesEndings.Opening | convert/stream.go:334-356 | nothing is authored before the first choice, and it is announced by a message_start with the last id, model and input tokens reported so far |
| MessagesEndings.LossesReported | convert/stream.go:201-265 | the notes name exactly what the choices lose and the untranslatable frame that broke the stream, each distinct note once |
| MessagesOrder.RunRises | convert/stream.go:391-439 | along every run the open tool blocks stand in the order of their numbers |
| MessagesOrder.CloseOrderExactly | convert/stream.go:452-461 | closing is lowest index first if and only if no open prose block is younger than an open tool block |
| MessagesOrder.YoungProseClosesFirst | convert/stream.go:452-461 | a call, then text: block 1 is stopped before block 0 |
| MessagesStream.EmitterIndependent | convert/stream.go:93-125 | the events are those of the whole stream's frames, for any segmentation, with or without the relay in between |
| MessagesStream.HandledExactly | convert/stream.go:93-125 | every closed frame is handled without its terminator, and the tail if some byte of it is not white space |
| MessagesStream.StreamFaithful | convert/stream.go:93-526 | endings and content together, from bytes cut anywhere, in the decoded choices of the frames |
| ResponsesEmitter.ChatToResponses.constructor | convert/stream_responses.go:29-31 | the initial state |
| ResponsesEmitter.ChatToResponses.Say | convert/stream_responses.go:91-96 | an event takes the next sequence number |
| ResponsesEmitter.ChatToResponses.Start | convert/stream_responses.go:257-268 | created and in_progress, once |
| ResponsesEmitter.ChatToResponses.EmitText | convert/stream_responses.go:282-302 | text opens the message item once and continues it |
| ResponsesEmitter.ChatToResponses.EmitReasoning | convert/stream_responses.go:304-321 | reasoning opens its item once and continues it |
| ResponsesEmitter.ChatToResponses.EmitCall | convert/stream_responses.go:325-362 | a delta opens, continues or reopens a call |
| ResponsesEmitter.ChatToResponses.CloseCall | convert/stream_responses.go:369-378 | a call's arguments and item are done |
| ResponsesEmitter.ChatToResponses.CloseItems | convert/stream_responses.go:382-414 | message, reasoning and every call are done, in that order |
| ResponsesEmitter.ChatToResponses.OutputItems | convert/stream_responses.go:469-488 | the terminal object's items |
| ResponsesEmitter.ChatToResponses.EmitTerminal | convert/stream_responses.go:435-464 | status, items and usage of the terminal event |
| ResponsesEmitter.ChatToResponses.EmitFinish | convert/stream_responses.go:419-433 | an error reason fails the response, any other completes it |
| ResponsesEmitter.ChatToResponses.HandleChoice | convert/stream_responses.go:176-195 | one choice runs as its list of items |
| ResponsesEmitter.ChatToResponses.HandleChunk | convert/stream_responses.go:157-197 | one chunk runs as its head and its choices |
| ResponsesEmitter.ChatToResponses.Handle | convert/stream_responses.go:98-197 | one frame by its class, a native event with or without its field names; nothing after a failure or a finish |
| ResponsesEmitter.ChatToResponses.WriteFrame | convert/stream_responses.go:74-87 | the events of the frames that the write completes, and the tail kept |
| ResponsesEmitter.ChatToResponses.FinishFrames | convert/stream_responses.go:493-513 | what is still owed, then the end mark |
| ResponsesSpec.RunSplit | convert/stream_responses.go:98-101 | the frame-gated run is the item-gated one, then what is authored behind a finish reason in its chunk; nothing is, if and only if the chunk is quiet there |
| ResponsesSpec.FinishesLastIsQuiet | convert/stream_responses.go:176-195 | a finish reason only on a chunk's last choice is enough for that |
| ResponsesSpec.NativeStep | convert/stream_responses.go:106-136 | a native frame is forwarded, reframed, and nothing else happens |
| ResponsesSpec.TrimSpaceIs | convert/stream_responses.go:102-117 | trimming cuts white space off both ends and nothing else |
| ResponsesSpec.ReframedIs | convert/stream_responses.go:106-136 | what is forwarded is the trimmed frame, or what follows its `data:`, with one normal terminator |
| ResponsesSpec.ForwardedUntouchedExactly | convert/stream_responses.go:117-136 | on a stream still going, what the emitter authors for a native frame is the frame untouched if and only if it is no bare `data:` line |
| ResponsesSpec.DataFieldLost | convert/stream_responses.go:117-136 | `data: {"type":"response.created"}`, taken for native, reaches the client without its `data:` |
| ResponsesLifecycle.OutputIsItems | convert/stream_responses.go:469-488 | the terminal object's items are exactly what the client accumulated |
| ResponsesLifecycle.ItemsDoneAccepted | convert/stream_responses.go:382-414 | closing is accepted: each done value is the joined deltas, and every item is done once |
| ResponsesLifecycle.CompletionAccepted | convert/stream_responses.go:382-464 | closing and the terminal event are accepted and end the response |
| ResponsesLifecycle.StepAccepted | convert/stream_responses.go:98-464 | every step that reopens no index is accepted and keeps the two sides linked |
| ResponsesLifecycle.TerminationAccepted | convert/stream_responses.go:493-513 | the end of the stream is accepted |
| ResponsesTheorems.Lifecycle | convert/stream_responses.go:91-509 | when no index is reopened and nothing speaks behind a finish reason: numbers in step, items added once, done values equal the deltas and the terminal object, every item done before one terminal event, and the client's items hold the emitter's fields |
| ResponsesTheorems.LifecycleExactly | convert/stream_responses.go:325-362 | a run that opened and did not fail is accepted if and only if no delta met the guard that reopens an index and nothing spoke behind a finish reason |
| ResponsesTheorems.StaleAfterReuse | convert/stream_responses.go:325-378 | after a reopened index a done call stays listed, so no completion can be accepted |
| ResponsesContent.OneIdIsEnough | convert/stream_responses.go:325-362 | one id per tool index among the decoded deltas is enough for no index to be reopened |
| ResponsesTheorems.NothingAfterTheEnd | convert/stream_responses.go:98-101 | the client refuses any authored event behind a terminal or error event |
| ResponsesContent.ContentHeld | convert/stream_responses.go:98-362 | the client's items are one message with all the text of the decoded choices up to a breaking frame or finish reason, one reasoning item, and per named tool index one call with its first delta's name and id and its joined fragments |
| ResponsesContent.ProseIsSent | convert/stream_responses.go:282-321 | the accumulated text and reasoning are the prose of the stream, kind by kind |
| ResponsesContent.ArgsAreSent | convert/stream_responses.go:325-362 | each listed call holds the joined fragments of its index |
| ResponsesEndings.FrameEffect | convert/stream_responses.go:98-214 | on a stream still going: an inert frame authors nothing, a native one is forwarded, a backend error or an untranslatable frame becomes one numbered error event and its note and fails the stream |
| ResponsesEndings.GatedBooks | convert/stream_responses.go:157-214 | over every run: over exactly at the first breaking frame or finish reason, and id, model, finish reason, token counts and notes hold what was heard last |
| ResponsesEndings.ErrorIsLast | convert/stream_responses.go:145-214 | the first breaking frame of a stream still going becomes one error event, and that is the last event: no terminal event and no end mark |
| ResponsesEndings.Ending | convert/stream_responses.go:419-513 | the client is ended if and only if a choice was heard or the stream failed, has the end mark if and only if it opened and did not fail, and its terminal event carries the status of the finish reason and the counts of the last usage report |
| ResponsesEndings.Opening | convert/stream_responses.go:257-268 | nothing is authored before the first choice, and it is announced by created and in_progress, numbered 1 and 2, with the last id and model named so far |
| ResponsesEndings.LossesReported | convert/stream_responses.go:145-214 | the notes name exactly what the choices lose, through the chunk that finishes the stream, and the frame that broke it |
| ResponsesStream.EmitterIndependent | convert/stream_responses.go:74-87 | the events are those of the whole stream's frames, for any segmentation, with or without the relay |
| ResponsesStream.StreamLifecycle | convert/stream_responses.go:74-513 | endings and content together, from bytes cut anywhere, in the decoded choices of the frames |
| ResponsesOrder.ListedInOrderExactly | convert/stream_responses.go:469-488 | the listed items are the client's in order of appearance if and only if reasoning stands before the message and both before every call |
| ResponsesOrder.TerminalOrderExactly | convert/stream_responses.go:466-488 | the same for the terminal object of every accepted run |
| ResponsesOrder.LateReasoningListedFirst | convert/stream_responses.go:466-488 | text, then reasoning: item 1 is listed before item 0 |
| ResponsesInputs.ReusedIndexRejected | convert/stream_responses.go:325-362 | any frame that is a chunk with one index under two ids: the client rejects its run |
| ResponsesInputs.LateChoiceRejected | convert/stream_responses.go:176-195 | any frame that is a chunk with text behind a finish reason: the client rejects its run |
| Pipeline.FedFrames | proxy/proxy.go:1475-1492 | through rewriter and relay the emitter is fed the frames of the rewritten stream, minus the stripped ones, whatever the segmentation |
| Pipeline.MessagesPipeline | proxy/proxy.go:1475-1492 | from upstream bytes cut anywhere to an Anthropic client's blocks: how the stream ends, and exactly the text, reasoning and calls of the decoded choices of the rewritten stream |
| Pipeline.ResponsesPipeline | proxy/proxy.go:1475-1492 | from upstream bytes cut anywhere to a Responses client's items: how the stream ends, and the text, reasoning and calls of the decoded choices |
| AttemptLoop.TryServer | router/router.go:783-920 | the retry loop on one server computes the specified sends, ends and last held-back answer |
| AttemptLoop.Handle | router/router.go:551-956 | the attempt loop computes the specified trace and answer |
| AttemptTheorems.WalkJudged | router/router.go:551-920 | a referee automaton accepts every trace: attempts in order and once, sends only inside an open attempt and within its budget, one teardown each |
| AttemptTheorems.EndIsFinal | router/router.go:783-920 | behind a Served, MidStream or ClientGone outcome comes the attempt's teardown and nothing else |
| AttemptTheorems.OneSlotAtATime | router/router.go:677-702 | at every moment a request holds at most one slot, at its end none |
| AttemptTheorems.SendBound | router/router.go:767-920 | at most 1 + max(0, retries) sends per attempt |
| AttemptTheorems.LastNeverSkipped | router/router.go:551-687 | no soft gate and no blocked reservation skips the last attempt |
| AttemptTheorems.AnswerIs | router/router.go:923-956 | a served or broken answer names an outcome of the trace; a refusal is the last attempt's; otherwise nothing was served |
| AttemptTheorems.LastBufferedIs | router/router.go:872-880 | the held-back answer is the last buffered one of the trace |
| AttemptTheorems.FallbackAnswer | router/router.go:923-956 | when no send ended the request and the client did not leave between sends: a failed rewrite is the answer, else the last attempt's refusal, else the trace's last held-back answer, server and status, else 502 |
| AttemptOutcomes.TraceExactly | router/router.go:551-920 | event by event, in the attempts' own fields: an attempt that is not the last is skipped if and only if it is reached and a gate or its reservation says so; one that is reached, not refused and not skipped is opened and sends exactly the sends that are due |
| AttemptOutcomes.SendsExactly | router/router.go:783-920 | one server's trace: each due send with its outcome, and the teardown; a 429 and a refused connection are never sent again, a 5xx only on an explicit budget |
| AttemptOutcomes.ServedExactly | router/router.go:791-830 | the answer is the i-th server's if and only if the loop reaches and contacts it and one of its due sends is served; likewise for an answer that breaks off |
| AttemptOutcomes.GoneExactly | router/router.go:783-920 | nobody is answered if and only if the client left, during a send or while the loop waited |
| AttemptOutcomes.BudgetIs | router/router.go:768-782 | the client's count, capped, is explicit; else the rule's own value is; else ten tries |
| Quota.QuotaTracker.constructor | config/quota.go:31-37 | empty |
| Quota.QuotaTracker.Allow | config/quota.go:54-90 | the verdict and the pruned lists as specified |
| Quota.QuotaTracker.RecordRequest | config/quota.go:93-101 | one more request time |
| Quota.QuotaTracker.Reserve | config/quota.go:121-145 | admits within the limit and adds the estimate |
| Quota.QuotaTracker.Complete | config/quota.go:151-167 | releases the reservation, clamped at zero, and records the usage |
| Quota.QuotaTracker.Usage | config/quota.go:170-183 | the usage read, and the compacted slice it leaves |
| Quota.PruneEvents | config/quota.go:199-207 | the in-place loop keeps the live events in order |
| Quota.PruneTimes | config/quota.go:211-219 | the in-place loop keeps the live times in order |
| Quota.LiveFalls | config/quota.go:199-207 | window usage only falls as time passes |
| Quota.LiveOfCompacted | config/quota.go:170-183 | a usage read never makes later counts smaller |
| Quota.UsageOverCount | config/quota.go:170-207 | by how much a usage read raises later counts |
| Quota.UsageHarmlessExactly | config/quota.go:170-207 | for a list whose newest event is last, reading the usage leaves it unchanged if and only if the window expired all events or none |
| Quota.UsageCountsTwice | config/quota.go:170-207 | an input where a live event counts twice after a read |
| Quota.UsageBreaksOrder | config/quota.go:170-207 | a list in time order that a read leaves out of order |
| Quota.CompactedNewestLast | config/quota.go:170-207 | a read adds no event and keeps the newest last |
| QuotaHistory.AllowedExactly | config/quota.go:54-90 | a server is allowed if and only if fewer requests than its limit were recorded, and fewer tokens reported, in the last minute of the whole history |
| QuotaHistory.ReservedExactly | config/quota.go:121-145 | a reservation is granted if and only if it fits beside the last minute's usage and the other reservations, and then it is held |
| Conservation.Conserved | router/router.go:677-702 | after any interleaving each in-flight counter is the number of open attempts and each reserved total is what they hold, 0 without a token limit |
| Conservation.QuiescentIsClean | router/router.go:677-702 | with nothing open all slots and reservations are back |
| Conservation.TokenSafety | config/quota.go:121-167 | with honest reports, usage in the window plus reservations never exceeds the limit in any reachable state, now or later |
| Conservation.WithinLimit | config/quota.go:121-207 | the bound read off any reachable state at any later time |
| Conservation.RunWellStored | config/quota.go:54-183 | in every reachable state every stored list is positive, has its newest event last and none from the future |
| Conservation.UsageHarmlessInRuns | config/quota.go:170-207 | in every reachable state reading a server's usage leaves it unchanged if and only if all or none of it expired |
| Interleaving.InterleavingRuns | router/router.go:677-702 | any interleaving of the attempt loops' traces, blocked reservations included, is a run of the system, and each request has open what its trace opened and did not tear down |
| Interleaving.FinishedIsClean | router/router.go:677-702 | when all requests have played their traces nothing is open: every counter and reserved total is back at zero |
| Interleaving.InterleavingWithinLimit | config/quota.go:121-167 | an interleaving whose teardowns report no more than was reserved stays within the token limit, now and later |
| Rotation.Rotator.BalanceRotation | router/router.go:137-189 | the pool from the first pinned member or the drawn slot's owner on, place by place, and the new counters |
| Rotation.Rotator.Load | router/router.go:144-154 | load or store of the counter, with the sweep a new key may bring |
| Rotation.Rotator.SweepRotations | router/router.go:103-124 | exactly the live keys stay |
| Rotation.Walk | router/router.go:175-182 | the weight walk finds the slot's owner |
| Rotation.OwnerExactly | router/router.go:175-182 | a slot belongs to the member whose run of as many slots as its weight holds it, the runs in pool order |
| Rotation.FirstPinned | router/router.go:160-171 | the first member with the pinned id |
| Rotation.WheelIsWeighted | router/router.go:175-182 | one turn of the wheel holds each member as often as its weight |
| Rotation.Fair | router/router.go:173-182 | any window of one total of weights starts on member i exactly weights[i] times |
| Rotation.TurnDrawsExactly | router/router.go:145-173 | a pool's counter moves by one for its own unpinned request and by nothing else, if and only if no sweep forgets it; a sweep that does restarts it |
| Rotation.FairExactly | router/router.go:173-182 | any window up to the counter's end is fair if and only if no draw past 2^63 takes another member's slot |
| Rotation.FairRun | router/router.go:137-189 | the same over whole runs, with other pools, pins and sweeps that keep the pool in between |
| RotationLists.FairRun | router/router.go:137-189 | over whole runs, on the lists handed out: every member heads as many lists as it has weight, for distinct members if and only if no draw past 2^63 takes another's slot |
| Rotation.RuleKeyExactly | router/router.go:128-135 | the key the sweep counts for a rule is the one its requests draw from if and only if the store has all of its servers |
| Rotation.MissingServerRestarts | router/router.go:103-135 | a rule with a missing fallback: another pool's first request restarts its wheel |
| Rotation.KeyExactly | router/router.go:138-144 | any two pools share a counter if and only if their ids, cut at the commas, are the same pieces in order |
| Rotation.FairPastHalfExactly | router/router.go:173 | past half of the counter's range the deal is fair only to a pool of one |
| Rotation.KeyInjective | router/router.go:138-144 | for ids without commas: if and only if they are the same ids in order |
| Rotation.CommaSharesCounter | router/router.go:138-144 | two different pools with one counter |
| TierPolicy.TierIndex | router/jev.go:380-395 | the first of the cheapest members, a tier above costing double |
| TierPolicy.NearestIndex | router/jev.go:399-410 | the first of the highest members at or below the ceiling, else the cheapest for it |
| TierPolicy.Settle | router/jev.go:242-263 | the member the policy settles on |
| TierPolicy.UnsureStaysClose | router/jev.go:245-256 | an unsure decision that is no pin ends at the default member's tier or one above |
| TierPolicy.LargeContextKeepsTier | router/jev.go:257-263 | a large context never ends below the default member's tier |
| TierPolicy.DowngradeExactly | router/jev.go:242-263 | a weaker member is settled on if and only if it was chosen, trusted and the context is small |
| TierPolicy.SettledUnique | router/jev.go:242-263 | the stated promise determines the member |
| TierPolicy.DefaultStepsDown | router/jev.go:380-395 | an input where the default is the tier below, not the one above |
| TierPolicy.DefaultBelowExactly | router/jev.go:380-395 | when the default member is below the wanted tier |
| TierPolicy.AttemptOrder | router/jev.go:269-284 | every member, from the choice: stronger ascending, the rest descending, ties in pool order |
| TierPolicy.OrderUnique | router/jev.go:269-284 | no member twice, and no other order meets the policy |
| TierPolicy.CandidateIds | router/jev.go:310-325 | the names of the candidates, distinct exactly when no candidate finds both of its names taken |
| TierPolicy.DistinctIdsExactly | router/jev.go:310-325 | the names tell the candidates apart if and only if none finds both its name and its marked name taken |
| TierPolicy.SharedModelsAreTold | router/jev.go:310-325 | a model on several servers is told apart when no name holds the mark and no model stands twice on one server |
| TierPolicy.ServersCanCollide | router/jev.go:310-325 | three servers, three entries: two share a name |
| TierPolicy.IdsCanCollide | router/jev.go:310-325 | three entries of one model on one server: two share a name |
| Inbound.NewInboundLimiter | config/inbound.go:42-53 | no limiter for a rate that is off; otherwise a burst of at least one |
| Inbound.InboundLimiter.Allow | config/inbound.go:68-92 | verdict, wait, buckets and the denied count as specified |
| Inbound.InboundLimiter.Sweep | config/inbound.go:96-103 | exactly the buckets idle for two refills are dropped |
| Inbound.SweepIsUnobservable | config/inbound.go:68-103 | every verdict and wait equals that of a limiter that never sweeps |
| Inbound.AdmitBound | config/inbound.go:68-103 | per key and interval at most the burst plus the rate times the time |
| Inbound.AdmittedExactly | config/inbound.go:68-92 | a call is let through if and only if, counted from each earlier call of its key on, the calls let through with this one stay within the burst plus the rate times the time |
| Inbound.BurstPromised | config/inbound.go:68-92 | a key has its whole burst at once |
| Inbound.SweptExactly | config/inbound.go:96-103 | the sweep keeps a bucket if and only if it was used within the time of two full refills |
| Inbound.WaitIsEnough | config/inbound.go:83-92 | a denied caller, alone on its key, is let through if and only if the returned time has passed |
| Inbound.RetryAfterTooEarly | config/inbound.go:123 | a wait of 1.4 seconds is announced as one second |
| Inbound.RetryAfterCoversExactly | config/inbound.go:123 | when the header's seconds cover the wait |
| Cooldown.ClampHint | config/ratelimit.go:231-245 | no hint, or the hint held between a second and an hour |
| Cooldown.Length | config/ratelimit.go:203-213 | a positive override, else the clamped hint for immediate kinds, else the global value |
| Cooldown.RateLimiter.constructor | config/ratelimit.go:58-68 | empty, with the lenient threshold doubled |
| Cooldown.RateLimiter.SetThresholds | config/ratelimit.go:74-84 | positive values replace, others keep |
| Cooldown.RateLimiter.ShouldSkip | config/ratelimit.go:128-139 | skipped while now is before the expiry |
| Cooldown.RateLimiter.RecordSuccess | config/ratelimit.go:142-151 | the server is cleared, the others untouched |
| Cooldown.RateLimiter.ClearCooldown | config/ratelimit.go:271-280 | the server is cleared, the others untouched |
| Cooldown.RateLimiter.RecordFailure | config/ratelimit.go:168-227 | the pruned list, the verdict, the expiry and the reason as specified |
| Cooldown.PrunedIsHistory | config/ratelimit.go:178-189 | the stored list is all failures since the last clear, cut at the newest one's window |
| Cooldown.RefinesHistory | config/ratelimit.go:168-227 | every verdict and expiry equals that of a limiter that keeps the whole history |
| Cooldown.TripsExactly | config/ratelimit.go:168-202 | when a failure is one too many, in statuses and times of the uncleared failures inside its window |
| Cooldown.CooldownsDisjoint | config/ratelimit.go:199-215 | no failure moves an unexpired cooldown |
| Cooldown.SkipsExactly | config/ratelimit.go:128-227 | a server is skipped if and only if some failure started a cooldown not yet over and nothing cleared it since |
| Cooldown.FreeButNotCooledExactly | config/ratelimit.go:128-202 | for every failure that is one too many: free yet not cooled again exactly when now is the expiry |
| Cooldown.FreeAtTheEnd | config/ratelimit.go:128-202 | a cooldown that ends at the very time of a 429 |
| MessagesRequest.Drop | convert/anthropic.go:143-150 | refuses with an invitation, or adds one note |
| MessagesRequest.ToolResultContent | convert/anthropic.go:419-439 | the result's text; one note or the first refusal per nested block that is not text |
| MessagesRequest.ConvertBlock | convert/anthropic.go:349-396 | one block: refused exactly when the policy says so, else its unit and its notes |
| MessagesRequest.ConvertBlocks | convert/anthropic.go:346-417 | refused exactly when some block is, with the first one's error |
| MessagesRequest.ConvertMessage | convert/anthropic.go:328-417 | one message: refused exactly when it is malformed or a block is, with the first offender's error; else its messages and notes |
| MessagesRequest.ConvertMessages | convert/anthropic.go:196-207 | the message loop, the system text leading; refused exactly when a message is, with the first one's error |
| MessagesRequest.ConvertedReads | convert/anthropic.go:397-417 | a turn reads as its units grouped by kind |
| MessagesRequest.MessageConserved | convert/anthropic.go:328-417 | the result reads as a permutation of the units, each kind in order |
| MessagesRequest.ConversationConserved | convert/anthropic.go:196-207 | the same over a whole conversation |
| MessagesRequest.RoleKept | convert/anthropic.go:397-417 | at most one message beside the tool messages, in the turn's role unless it calls; no empty calls |
| MessagesRequest.OrderKeptExactly | convert/anthropic.go:397-417 | order across kinds is kept if and only if the blocks already stand in their kinds' places |
| MessagesRequest.OneNoteEach | convert/anthropic.go:349-396 | each dropped block, top-level or nested, gives exactly one note |
| MessagesBlocks.TurnSaysBlocks | convert/anthropic.go:328-417 | a chat backend reads one unit for every represented block and nothing else, each rendering its block in the block's own fields, each kind in order |
| MessagesBlocks.UnitRenders | convert/anthropic.go:349-439 | a text, image, call or result keeps its text, url or data, id, name, input and joined texts; no other block has a unit |
| MessagesBlocks.RefusedExactly | convert/anthropic.go:349-439 | a block is refused if and only if it is a document or audio, or it has a part without a place and drop_params is off |
| MessagesBlocks.NotedExactly | convert/anthropic.go:349-439 | the notes of an accepted turn name exactly what its blocks lose |
| MessagesBlocks.StrictLosesNothing | convert/anthropic.go:328-439 | without drop_params an accepted turn reads as exactly one unit per block, rendering it in its own fields, with no note |
| MessagesRequest.DropParamsBuys | convert/anthropic.go:129-150 | drop_params lifts every refusal but documents and audio, and only those errors invite it |
| MessagesRequest.NumberResultLost | convert/anthropic.go:419-427 | a tool result that is a number: sent as an empty text, unrefused and unnoted |
| MessagesRequest.ResultKeptExactly | convert/anthropic.go:419-427 | the one unreported loss, and when it happens |
| MessagesRequest.ToolNameDefect | convert/anthropic.go:275-300 | which defect a name has, and none if and only if it is portable and unseen |
| MessagesRequest.FilterTools | convert/anthropic.go:209-243 | refused exactly when a tool is hosted or, without drop_params, defective; else the survivors and the notes |
| MessagesRequest.SurvivingNames | convert/anthropic.go:209-243 | the names kept are exactly the portable ones declared, each once; every other declaration has one note |
| MessagesRequest.ToolNotesAre | convert/anthropic.go:209-243 | the notes name exactly the declarations that do not stay |
| ResponsesRequest.ConvertInputItem | convert/responses.go:346-399 | text or parts of an item, its notes, or the first part's error |
| ResponsesRequest.ItemOutput | convert/responses.go:533-560 | the output's text, its notes, or the first refusal |
| ResponsesRequest.ConvertItem | convert/responses.go:214-281 | one pass of the loop with flush and dropItem |
| ResponsesRequest.ConvertItems | convert/responses.go:192-286 | refused with the first item's error, or the system message and behind it exactly the conversation of the items, calls grouped |
| ResponsesRequest.GroupingUnique | convert/responses.go:198-204 | a conversation has one grouped form, so the contract determines the messages |
| ResponsesRequest.CallsConserved | convert/responses.go:216-229 | the tool calls run together are the function_call items in order |
| ResponsesRequest.TurnSaysAll | convert/responses.go:261-280 | a message turn says what its item says, in its role |
| ResponsesRequest.SystemFoldedExactly | convert/responses.go:261-285 | the system message holds all system text in order if and only if each such item comes down to one text |
| ResponsesRequest.TwoTextsLost | convert/responses.go:261-273 | a developer item with two texts is lost, unrefused and unnoted |
| ResponsesRequest.RefusedExactly | convert/responses.go:214-281 | refused if and only if some item is |
| ResponsesRequest.StrictNotesNothing | convert/responses.go:334-399 | without drop_params an accepted list has no note and no dropped item |
| ResponsesItems.ConversationRenders | convert/responses.go:192-286 | a chat backend reads one turn for every item that has one and nothing else, in order, each rendering its item in the item's own fields |
| ResponsesItems.PartsRender | convert/responses.go:346-399 | the chat parts are those of the parts that say something, in order, each with its own text, refusal or url |
| ResponsesItems.LeadingIs | convert/responses.go:283-286 | the system message is its texts, one below the other |
| ResponsesItems.ItemRefusedExactly | convert/responses.go:214-281 | an item stops the conversion if and only if it holds something without a place that may not be dropped |
| ResponsesItems.NotedExactly | convert/responses.go:334-399 | the notes of an accepted list name exactly what its items lose |

## Left out

- ModelStream.ModelRewriteWriter.constructor: requires two different names; the same-name mode (`replaceAnyModelValue`, proxy/proxy.go:749-829) is left out.
- ModelSegmentation.SegmentationIndependent: `Separable` is sufficient, not necessary (a stream outside it may still be cut luckily); each of its clauses has an input in `ModelCuts` that fails without it.
- ModelEdits.SpansExactly: asks for a separable stream and an old name whose quoted form holds no token; `ModelEdits.EditScript` holds for all inputs.
- ResponsesContent.ArgsAreSent: only for runs that reopen no index.
- Rotation.FairRun: the wrap of the counter itself at 2^64 draws, and overflow of the sum of weights, are left out.
- Conservation.TokenSafety: limits are fixed during a run, and the router's own steps (open, tear down, gate, look, count) are atomic.
- Interleaving.InterleavingRuns: the loop is told the gates' answers beforehand; the tracker must answer each reservation as its loop was told. The gates' own reads are separate turns.
- Quota.QuotaTracker.Usage: the aliasing of a pruned slice is modelled by its visible effect (the compacted list); `RecordTokens` is part of `Complete`.
- Inbound.InboundLimiter.Allow: one clock reading per sweep and one per bucket; reals for float64; no overflow of durations.
- QuotaHistory.AllowedExactly: for runs without a usage read in between, which can only raise the counts (`Quota.UsageOverCount`).
- TierPolicy.AttemptOrder: `sort.SliceStable` is a stable insertion; the server lookup that follows is left out.
- MessagesRequest.ConvertMessages: the system text is an input; non-text system blocks are lost before it (convert/anthropic.go:304-323).
- ResponsesRequest.ConvertItems: a string input, wrapped as one user item, is left out; so are the tool list and the other request fields.
- JSON encoding and decoding, SHA-256 and random ids, timestamps: decoded datatypes and opaque parameters (`decode`, `invented`, `hash`).
- The usage artifact in the relay is a predicate on a frame; write errors, flushing and logging are left out.
- HTTP transport, contexts, timers and drains: a send is its outcome class; the gates' answers are fields of an attempt.
- The parallel cap as a hard bound: the check and the increment are separate steps, and the last attempt ignores the cap.
- `balanceLeast`, admin handlers, GUI, alerts, persistence, metrics, health probing, capability cache, `trace/`, multipart and usage extraction, the jev decision call with its cache and request text: easy members, plumbing or I/O.
- Unicode space in `TrimSpace` (only ASCII space is trimmed) and invalid UTF-8 in escaped names.
