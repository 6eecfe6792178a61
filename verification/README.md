# Margatroid: a verified model

This project models the parts of Margatroid, an agent daemon on its own ECS and event runtime, whose
behaviour spans many calls, threads or runs, and proves what they promise. Each file is one module:

- **Provider codec.** `History`, `Normalize`, `Pairing`, `Replay`, `MessagesEncoder`, `ChatEncoder` and
  `ResponsesEncoder` take one conversation history into the three request shapes, and `EncodedContents` says what
  these hold, field by field. `Sse` frames a byte stream as in section 9.2.6, "Interpreting an event stream", of the
  WHATWG HTML Standard, with the code's deviations: only LF and CRLF end a line, and the end of the stream
  dispatches an open event; `SseDocuments` says what a stream of lines means and that the framing finds it.
  `ChatEvents`, `MessagesEvents` and `ResponsesEvents` are the three event machines, `Dispatch` chooses among them,
  `ChatStream`, `MessagesStream`, `MessagesReplay`, `ResponsesStream` and `ResponsesReplay` read what every run
  emits off the JSON of its payloads (`StreamReading`), and `StreamAcceptance` which payloads are accepted.
  `FormatDecoder` is the decoder object, `Accumulator` builds the response, `ResponseContents` says what a response
  tells of its fragments, and `DecoderProperties`, `ResponsesProperties`, `StreamText` and `AcceptedResponses` hold
  what is true of whole streams.
- **ECS core and runtime.** `Entity`, `SparseColumn` and `World` with its queries; `EventRuns` (the event queue as a
  value, over runs), `Events` (the queue object with its shared nodes) and `EventClients` (a client that keeps
  handles over frames); `Runtime`, the parked loop with its wake token and gate, as a machine over the atomic steps
  of all threads.
- **Commands and agents.** `MclQueue`, `MclPromises`, `MclClosing` and `MclHandlers`, the FIFO command queue of a
  target with its drain; `AgentLifecycle`, `AgentDecisions` and `AgentHandlers`, start, stop, restart and turns with
  flows that return later; `ReplySlots`, the slots that hold a reply's one sender.
- **Correlation and fan-out.** `McpSession`, `McpPromises`, `McpDecisions` and `McpHandlers`, requests against
  concurrent failure; `DtoTable`, `DtoState`, `DtoProperties`, `DtoDecisions` and `DtoHandlers`, the request table
  and the versioned state cache.
- **Text and addresses.** `MclSyntax`, `MclParser`, `MclSoundness`, `MclPrinter` and `MclLoops`; `Bits` and `Cidr`;
  with `Text`, `Strings`, `Decimal`, `Json`, `Ordered`, `Sequences` and `Wrappers` underneath.

Where the original changes state in place, a class does the same and its methods are tied to functions on values
(`Push` to `PushStep`, `HandleQueue` to `Apply`, and so on); the lemmas are about those functions and about runs of
them. Concurrency is a machine whose steps are the original's atomic accesses, and a task in flight is a token that
returns in a later step. What the model takes from outside is a parameter: the JSON and UTF-8 decoders of the
stream, the encoded sizes of messages, the parser of single addresses, the test whether a value converts to TOML,
and, in each handler step, what the rest of the world answers.

Three findings are stated as such. The size check at the end of a push depends on where chunks end, so decoding is
independent of chunking only between successes or within `MAX_MESSAGE_BYTES`
(`Sse.ChunkingMattersBeyondBudget` shows the difference; `Sse.EverySplittingSucceeds` says for exactly which bytes
no splitting can fail). An event whose data starts with line feeds loses them, unlike in the standard
(`SseDocuments.PrintedMeansItself` is the exact condition). And inserting into a column over a stale generation of the
same index would leave an orphan; `SparseColumn.InsertedExact` says exactly when, and `World.NoStaleGeneration` why
the world never does it.

`dafny verify dfyconfig.toml` checks everything.

## Model

| member | source | states |
|---|---|---|
| `Normalize.Normalize` | crates/margatroid/inference/plugin/src/types.rs:1015-1133 | a history is accepted exactly when every size, format and parameter limit holds and its calls and results pair up; which errors parameters and tools give |
| `Normalize.CheckParameters` | crates/margatroid/inference/plugin/src/types.rs:1016-1034 | the tests on the parameters pass exactly within the limits |
| `Normalize.CheckTools` | crates/margatroid/inference/plugin/src/types.rs:1038-1056 | so do those on the tools, whose names must be new |
| `Normalize.NormalizeMessages` | crates/margatroid/inference/plugin/src/types.rs:1056-1133 | the loop over `pending` and `seen` accepts exactly the histories within the byte budgets whose messages are valid and whose call ids are globally distinct and answered at once |
| `Normalize.ResumeStep` | crates/margatroid/inference/plugin/src/types.rs:1073-1125 | one iteration of that loop is exact: the rest of the history can still be paired exactly when this message may come next and what follows can be paired from the new `pending` and `seen` |
| `Normalize.CheckMessage` | crates/margatroid/inference/plugin/src/types.rs:1073-1125 | the body passes a message exactly when it is valid by itself and may come next, and leaves the pairing state of the specification |
| `Normalize.RecordCalls` | crates/margatroid/inference/plugin/src/types.rs:1094-1108 | the calls of one assistant pass exactly when each is well formed and no id repeats, here or earlier; afterwards exactly their ids are pending |
| `Normalize.MeasureMessage` | crates/margatroid/inference/plugin/src/types.rs:1061-1072 | the saturating running totals refuse a message only when the whole history is over budget |
| `Pairing.AnsweredIsInPlace` | crates/margatroid/inference/plugin/src/types.rs:1073-1132 | the recursive notion of an answered history is the positional one: every calling message is followed at once by a permutation of its results, and every result is among those that directly follow a message with calls |
| `MessagesEncoder.Encode` | crates/margatroid/inference/plugin/src/types.rs:491-557 | exactly when encoding succeeds, and then: every retained block once and in order, nonempty strictly alternating turns, every turn's tool uses answered at the very front of the next turn |
| `MessagesEncoder.EncodeTurns` | crates/margatroid/inference/plugin/src/types.rs:502-554 | the loop computes the merged turns and the system texts, and fails exactly on an invalid replay or an interleaved system message |
| `MessagesEncoder.EncodeMessage` | crates/margatroid/inference/plugin/src/types.rs:505-553 | one message joins the system texts or the last turn of its role, or fails on exactly its two errors |
| `MessagesEncoder.AbsorbedShape` | crates/margatroid/inference/plugin/src/types.rs:483-489 | merging keeps turns alternating and nonempty and appends exactly the message's blocks to what was there |
| `MessagesEncoder.ShapeIsUnique` | crates/margatroid/inference/plugin/src/types.rs:483-489 | alternation and the flattened blocks determine the turns, so the encoding is the only one with these properties |
| `MessagesEncoder.AbsorbedInPlace` | crates/margatroid/inference/plugin/src/types.rs:522-552 | for every answered history the results of a batch open the turn right after its uses and occur nowhere else |
| `ChatEncoder.Encode` | crates/margatroid/inference/plugin/src/types.rs:402-481 | exactly when encoding succeeds, and then the messages are the batch by batch translation |
| `ChatEncoder.EncodeMessages` | crates/margatroid/inference/plugin/src/types.rs:410-478 | the loop with its pending ids and held-back images sends exactly that translation; none is left over at the end or lost by the Omit `continue` |
| `ChatEncoder.TranslationSplits` | crates/margatroid/inference/plugin/src/types.rs:413-478 | batches translate independently of what surrounds them |
| `ChatEncoder.BatchesStayTogether` | crates/margatroid/inference/plugin/src/types.rs:419-474 | every batch of calls is followed directly by exactly its tool messages |
| `ChatEncoder.PicturesKept` | crates/margatroid/inference/plugin/src/types.rs:453-477 | every image of the history is sent exactly once and in order |
| `ResponsesEncoder.Encode` | crates/margatroid/inference/plugin/src/types.rs:559-597 | exactly when encoding succeeds, and then the input is the concatenation of every message's items |
| `ResponsesEncoder.BatchesStayTogether` | crates/margatroid/inference/plugin/src/types.rs:572-595 | in the input every run of function calls is followed directly by exactly one output for each, and no output stands elsewhere |
| `ResponsesEncoder.NothingIsLost` | crates/margatroid/inference/plugin/src/types.rs:566-596 | replay items aside, the input says exactly what the history says, in order |
| `EncodedContents.TurnsSayHistory` | crates/margatroid/inference/plugin/src/types.rs:491-557 | however turns are merged, the Messages request says the history message by message: texts and images, replayed reasoning, then answer, then calls, and every result with its failure flag |
| `EncodedContents.ItemsSayHistory` | crates/margatroid/inference/plugin/src/types.rs:559-606 | the same for the Responses input, in its own item types |
| `EncodedContents.MessagesSayHistory` | crates/margatroid/inference/plugin/src/types.rs:402-481 | batch by batch the Chat messages say the history: each field in its place, reasoning as the mode asks, and all images of a batch, each under its call's label |
| `EncodedContents.ReplayDecided` | crates/margatroid/inference/plugin/src/types.rs:331-391 | exactly the complete replays are accepted, whatever format asks |
| `FormatDecoder.FormatDecoder.Dispatch` | crates/margatroid/inference/plugin/src/types.rs:1545-1582 | an empty event is dropped, any other reaches the format's machine once, with data and event name cleared |
| `FormatDecoder.FormatDecoder.Line` | crates/margatroid/inference/plugin/src/types.rs:1517-1543 | one line changes data and event name as the framing rules say |
| `FormatDecoder.FormatDecoder.Push` | crates/margatroid/inference/plugin/src/types.rs:1481-1502 | the buffer loop computes the framing function of the bytes: every complete line once, in order, then the size check |
| `FormatDecoder.FormatDecoder.Finish` | crates/margatroid/inference/plugin/src/types.rs:1504-1515 | an unfinished line and an open event are still dispatched, and success needs the terminal |
| `Sse.ProcessSplits` | crates/margatroid/inference/plugin/src/types.rs:1490-1498 | draining two inputs in turn is draining their concatenation |
| `Sse.FeedIsProcess` | crates/margatroid/inference/plugin/src/types.rs:1481-1502 | a run of pushes succeeds exactly when the bytes decode and the unfinished event fits at every chunk boundary; then the outcome depends on the bytes alone |
| `Sse.EverySplittingSucceeds` | crates/margatroid/inference/plugin/src/types.rs:1481-1502 | all splittings of some bytes succeed exactly when every prefix of the bytes could end a chunk |
| `Sse.ChunkingIndependent` | crates/margatroid/inference/plugin/src/types.rs:1481-1515 | two splittings of the same bytes that both succeed give the same fragments, state and end |
| `Sse.ChunkingIndependentWithinBudget` | crates/margatroid/inference/plugin/src/types.rs:1481-1515 | within `MAX_MESSAGE_BYTES` every two splittings agree in everything, errors included |
| `Sse.ChunkingMattersBeyondBudget` | crates/margatroid/inference/plugin/src/types.rs:1499-1501 | beyond it they do not: a long comment is accepted with its line end and refused before it |
| `Sse.DecodeIsRun` | crates/margatroid/inference/plugin/src/types.rs:1504-1582 | a decoding is a run of the format's machine over the dispatched events, which depend on the bytes alone |
| `SseDocuments.DocumentProcessed` | crates/margatroid/inference/plugin/src/types.rs:1481-1582 | whatever the machine, processing the text of a document of events, with optional spaces, comments, unknown fields and either line end, is running the machine on what the document means |
| `SseDocuments.DocumentDecoded` | crates/margatroid/inference/plugin/src/types.rs:1481-1582 | any chunking of it that no push refuses, and any at all within the budget, is decoded as that run, with an event still open at its end |
| `SseDocuments.OversizedRefused` | crates/margatroid/inference/plugin/src/types.rs:1517-1543 | lines whose data and name outgrow the budget are refused as too large once everything before them was consumed |
| `SseDocuments.StreamOfDocument` | crates/margatroid/inference/plugin/src/types.rs:1517-1582 | the dispatched events are exactly the document's, in order |
| `SseDocuments.PrintedRoundTrip` | crates/margatroid/inference/plugin/src/types.rs:1481-1582 | events printed with one data line for each part of their data are dispatched as exactly these events, for LF and CRLF and any chunking that no push refuses |
| `SseDocuments.PrintedMeansItself` | crates/margatroid/inference/plugin/src/types.rs:1525-1531 | a printed event means itself exactly when its data does not start with a line feed: leading empty data lines leave no trace |
| `SseDocuments.EndCompletes` | crates/margatroid/inference/plugin/src/types.rs:1504-1515 | the end of a stream acts as the line ends that are missing |
| `DecoderProperties.DecodingEndsFinished` | crates/margatroid/inference/plugin/src/types.rs:1504-1582 | for all three formats a successful decoding emits exactly one `Finished`, as its last fragment |
| `DecoderProperties.NothingAfterReason` | crates/margatroid/inference/plugin/src/types.rs:1584-1909 | after a Chat `finish_reason` or a Messages `message_delta` only usage and the final `Finished` follow, and the reason never changes |
| `DecoderProperties.EveryBlockClosedOnce` | crates/margatroid/inference/plugin/src/types.rs:1777-2168 | in every successful Messages or Responses decoding each index is opened at most once and closed exactly as often |
| `ResponsesProperties.EventAtBlock` | crates/margatroid/inference/plugin/src/types.rs:1911-2168 | one Responses event appends its delta to the block it names, leaves every other block, and never touches a closed one |
| `StreamText.EmittedTextIsCompleted` | crates/margatroid/inference/plugin/src/types.rs:1911-2168 | whatever the interleaving, the fragments that the events of a completed item emit are exactly its completed parts: all of them answers for a message, per channel and all of them reasoning for a reasoning item |
| `StreamText.EventText` | crates/margatroid/inference/plugin/src/types.rs:1911-2168 | an event that names an item emits exactly the text it streams to that item's two text channels |
| `StreamText.OthersEmitNoText` | crates/margatroid/inference/plugin/src/types.rs:1911-2168 | no event other than the four text deltas emits answer or reasoning text |
| `StreamText.OutputsOfRun` | crates/margatroid/inference/plugin/src/types.rs:1504-1582 | the fragments of a run are the concatenated outputs of its events |
| `StreamText.AccumulatedText` | crates/margatroid/inference/plugin/src/types.rs:1217-1331 | for every format, accumulated content and reasoning are the concatenated texts of the accepted fragments, in order |
| `StreamText.AccumulatedTextIsStreamed` | crates/margatroid/inference/plugin/src/types.rs:1217-1331 | over an accepted Responses run, content and reasoning are exactly the texts of its delta events, in event order |
| `ChatStream.ChatRunSays` | crates/margatroid/inference/plugin/src/types.rs:1584-1732 | over every successful Chat run: answer, reasoning and, at each index, id, name and arguments of the calls are the concatenated fields of the payloads' deltas |
| `ChatStream.ChatRunStops` | crates/margatroid/inference/plugin/src/types.rs:1448-1459 | the stop reason is what the first `finish_reason` means |
| `ChatStream.ChatRunFinishes` | crates/margatroid/inference/plugin/src/types.rs:1557-1568 | and it is emitted last by every run that reached its end |
| `ChatStream.ChatRunUses` | crates/margatroid/inference/plugin/src/types.rs:1588-1617 | the usage is the last that a payload reports, under any of its known names |
| `MessagesStream.MessagesRunSays` | crates/margatroid/inference/plugin/src/types.rs:1777-1882 | over every successful Messages run: answer and reasoning are the concatenated texts, and each call is what its tool use started with, its deltas, and `{}` when it stopped without any |
| `MessagesStream.MessagesCallIndices` | crates/margatroid/inference/plugin/src/types.rs:1777-1882 | calls are exactly at the indices where tool uses started |
| `MessagesStream.MessagesRunStops` | crates/margatroid/inference/plugin/src/types.rs:1883-1908 | the stop reason is what `message_delta` says, and the end emits it last |
| `MessagesStream.MessagesRunUses` | crates/margatroid/inference/plugin/src/types.rs:1734-1775 | the usage is what the reports add up to: the last counts, and the last input with the cache counts known then |
| `MessagesReplay.MessagesRunReplays` | crates/margatroid/inference/plugin/src/types.rs:1800-1875 | the replay at an index is its thinking block's whole thinking and signature, or its redacted data |
| `MessagesReplay.KindIsType` | crates/margatroid/inference/plugin/src/types.rs:1790-1830 | the kind of a block is the type it started with |
| `ResponsesStream.ResponsesRunSays` | crates/margatroid/inference/plugin/src/types.rs:1911-2016 | over every successful Responses run: answer, reasoning and calls are the concatenations of what its payloads add, by their type names |
| `ResponsesStream.ResponsesRunEnds` | crates/margatroid/inference/plugin/src/types.rs:2085-2150 | stop reason and usage are those of the last payload: its own reason when cut off, else refusal before calls before completion |
| `ResponsesReplay.ResponsesRunReplays` | crates/margatroid/inference/plugin/src/types.rs:2017-2084 | a reasoning item is replayed as it was done, under the encryption announced before if it has none itself |
| `ResponsesReplay.ResponsesRunOpens` | crates/margatroid/inference/plugin/src/types.rs:1927-1990 | the items a run knows are exactly those that were added, under the type, ids and name that later events must agree with |
| `StreamAcceptance.ChatStepDecided` | crates/margatroid/inference/plugin/src/types.rs:1545-1732 | exactly which Chat payloads are accepted in which state, and with which error the others are refused |
| `StreamAcceptance.MessagesStepDecided` | crates/margatroid/inference/plugin/src/types.rs:1545-1908 | the same for Messages |
| `StreamAcceptance.ResponsesStepDecided` | crates/margatroid/inference/plugin/src/types.rs:1545-2165 | the same for Responses, completed items agreeing with everything streamed for them |
| `ResponsesProperties.DeltaIsEmitted` | crates/margatroid/inference/plugin/src/types.rs:1911-2168 | every text delta is emitted at once, as exactly its own text |
| `ResponsesProperties.AccumulatedCallIsCompleted` | crates/margatroid/inference/plugin/src/types.rs:1217-1281 | the accumulated id, name and arguments at the index of a completed function call are those of the completed item |
| `Accumulator.ResponseAccumulator.Accept` | crates/margatroid/inference/plugin/src/types.rs:1217-1331 | each fragment changes the accumulator as its kind says, within the byte and index limits |
| `Accumulator.ResponseAccumulator.Response` | crates/margatroid/inference/plugin/src/types.rs:1333-1408 | a response is returned exactly when the terminal, every call and every replay item is complete, and it is the accumulated one |
| `Accumulator.ResponseAccumulator.CollectCalls` | crates/margatroid/inference/plugin/src/types.rs:1339-1370 | the calls in index order pass exactly when each is complete and no id repeats |
| `ResponseContents.AcceptedExactly` | crates/margatroid/inference/plugin/src/types.rs:1217-1331 | fragments are accepted exactly when together they are within every limit, finish once, keep one replay format and append only to texts that are there; the accumulator then holds what they say |
| `ResponseContents.ResponseDescribes` | crates/margatroid/inference/plugin/src/types.rs:1333-1408 | the response says exactly what its fragments say: texts, last usage, the one stop reason, and calls and replay items by ascending index |
| `ResponseContents.Collect` | crates/margatroid/inference/plugin/src/types.rs:1217-1408 | the same for a client that accepts fragments one by one and asks for the response |
| `AcceptedResponses.StaysBounded` | crates/margatroid/inference/plugin/src/types.rs:1217-1331 | over any accepted fragments calls stay within the request limits and replay items know their format |
| `AcceptedResponses.ResponseCanBeSentBack` | crates/margatroid/inference/plugin/src/types.rs:1333-1408 | a returned response is a valid next assistant message unless it is entirely empty, which only a cut-off or filtered one can be; its ids are distinct and every encoder accepts its replay |
| `AcceptedResponses.CallLimitsAgree` | crates/margatroid/inference/plugin/src/types.rs:1089-1106 | a response can bring exactly the calls that a request may hold |
| `Entity.PackRoundTrip` | crates/mecs/core_plugin/src/entity.rs:4-18 | packing and unpacking a handle are inverse in both directions |
| `Entity.PackLayout` | crates/mecs/core_plugin/src/entity.rs:7-17 | index in the low half, generation in the high half |
| `Entity.EntityAllocator.Allocate` | crates/mecs/core_plugin/src/entity.rs:40-56 | a handle that was never issued before becomes the only newly live one |
| `Entity.EntityAllocator.Release` | crates/mecs/core_plugin/src/entity.rs:58-71 | exactly a live handle is released, at generation overflow by retiring its index for good |
| `Entity.EntityAllocator.IterAlive` | crates/mecs/core_plugin/src/entity.rs:83-89 | exactly the live handles, each once |
| `SparseColumn.StoredOnce` | crates/mecs/core_plugin/src/component.rs:29-36 | in an exact column the dense entities are distinct and are exactly those that have a component |
| `SparseColumn.InsertedGets` | crates/mecs/core_plugin/src/component.rs:38-51 | an insertion sets one entity's component and no other |
| `SparseColumn.InsertedExact` | crates/mecs/core_plugin/src/component.rs:38-51 | sparse and dense stay mutually inverse unless a stale generation occupies the index; with one, insertion leaves an orphan |
| `SparseColumn.RemovedGets` | crates/mecs/core_plugin/src/component.rs:66-75 | the swap-remove takes one entity's component and keeps every other |
| `SparseColumn.RemovedExact` | crates/mecs/core_plugin/src/component.rs:66-75 | the swap-remove repairs the moved entity's sparse entry |
| `SparseColumn.SparseColumn.Insert` | crates/mecs/core_plugin/src/component.rs:38-51 | the vectors become those of the inserted column |
| `SparseColumn.SparseColumn.Remove` | crates/mecs/core_plugin/src/component.rs:66-75 | the vectors become those of the removed column, and the old component is returned |
| `World.NoStaleGeneration` | crates/mecs/core_plugin/src/world.rs:58-64 | when a column holds live entities only, no stale generation can occupy a live entity's index |
| `World.World.Spawn` | crates/mecs/core_plugin/src/world.rs:34-36 | a handle never issued in the whole run, live and with no components; none exactly when no index is free and every slot is in use |
| `World.World.InsertComponent` | crates/mecs/core_plugin/src/world.rs:58-64 | on the map from live handle and type to component: one update, and nothing for a dead handle |
| `World.World.RemoveComponent` | crates/mecs/core_plugin/src/world.rs:80-85 | returns what was stored and removes exactly that |
| `World.World.Despawn` | crates/mecs/core_plugin/src/world.rs:38-44 | removes every component of a live handle and then the handle, nothing else |
| `World.World.GetComponent` | crates/mecs/core_plugin/src/world.rs:66-71 | the liveness check never changes the answer, since columns hold live entities only |
| `World.World.OnlyLiveHaveComponents` | crates/mecs/core_plugin/src/world.rs:66-71 | only live handles have components |
| `World.World.QueryWith` | crates/mecs/core_plugin/src/world.rs:95-97 | exactly the entities with the component, each once, all live |
| `World.World.QueryWithout` | crates/mecs/core_plugin/src/world.rs:99-101 | exactly the live entities without it, each once |
| `World.QueryResult.With` | crates/mecs/core_plugin/src/query.rs:9-13 | the in-place filter keeps exactly the holders, in order and without duplicates |
| `World.QueryResult.Without` | crates/mecs/core_plugin/src/query.rs:15-19 | the in-place filter keeps exactly the others, in order and without duplicates |
| `Events.EventQueue.SendEvent` | crates/mecs/core_plugin/src/events.rs:255-264 | one new node without delay at the back, all others stay queued; the cached counts stay equal to a recount |
| `Events.EventQueue.SendEventAfter` | crates/mecs/core_plugin/src/events.rs:266-280 | one new delayed node at the back, all others stay queued; counts and nearest delay stay equal to a recount |
| `Events.EventQueue.SendPending` | crates/mecs/core_plugin/src/events.rs:282-296 | one reservation at the back, whose new node a new handle shares |
| `Events.EventHandle.CompleteAfter` | crates/mecs/core_plugin/src/events.rs:139-157 | the reservation becomes an event in its own place; the cached snapshot stays equal to a recount |
| `Events.EventQueue.PullEvents` | crates/mecs/core_plugin/src/events.rs:209-253 | the rotation delivers exactly what is due, in order, keeps the rest in order with delays one shorter and every reservation's node queued, and keeps the snapshot exact |
| `Events.EventQueue.FastForward` | crates/mecs/core_plugin/src/events.rs:298-317 | every delay becomes shorter by the nearest one, no subtraction underflows, and every node stays queued |
| `EventClients.Client.Do` | crates/mecs/core_plugin/src/events.rs:209-317 | one operation of a client that keeps its handles takes the queue object to the state that the model's step gives, and every handle still finds its reservation |
| `EventClients.Client.Complete` | crates/mecs/core_plugin/src/events.rs:139-157 | a reservation is completed in any later frame, in its own place, by the handle that was kept |
| `EventClients.Play` | crates/mecs/core_plugin/src/events.rs:139-317 | every run of the model is a run of the object, late completions included, and after it the cached snapshot equals a recount |
| `EventRuns.NearestIsMinimum` | crates/mecs/core_plugin/src/events.rs:209-253 | the cached nearest delay is the minimum: reached by some event, and undercut by none |
| `EventRuns.FastForwardRefinesPulls` | crates/mecs/core_plugin/src/events.rs:298-317 | one fast-forward over the nearest delay d equals d pulls, which deliver nothing, and the next pull delivers something |
| `EventRuns.DeliveredOnceOnTime` | crates/mecs/core_plugin/src/events.rs:139-157 | in every run an event sent or completed with delay k is delivered exactly once, in the frame after k further frames, and stays queued until then |
| `EventRuns.RunFramesOrdered` | crates/mecs/core_plugin/src/events.rs:209-253 | in every run each frame delivers in reservation order and nothing twice |
| `EventRuns.ApplyValid` | crates/mecs/core_plugin/src/events.rs:209-317 | every operation keeps tickets increasing and every open handle's reservation queued |
| `Runtime.InvStep` | crates/mecs/app_runtime_plugin/src/resource.rs:38-63 | every atomic step of the loop, of senders, supervised completions and gate users keeps the wake-up invariant, and none panics |
| `Runtime.NoLostWakeUp` | crates/mecs/app_runtime_plugin/src/resource.rs:191-214 | whenever the loop is parked a token is available, a thread is between its update and its wake, the gate is closed, or there is nothing to do: no normal event is queued and the initial frame has run |
| `Runtime.NoUnbalancedStep` | crates/mecs/app_runtime_plugin/src/resource.rs:45-63 | no step of any run takes a blocker or a reservation that is not counted |
| `Runtime.ClosedGateHasOpener` | crates/mecs/async_runtime_plugin/src/plugin.rs:153-176 | a gate that a parked loop finds closed is some thread's to open |
| `Runtime.QuietParkIsJustified` | crates/mecs/app_runtime_plugin/src/resource.rs:139-143 | once the other threads are done, a parked loop has a token to receive or nothing to do |
| `Runtime.FrameNeedsOpenGate` | crates/mecs/app_runtime_plugin/src/resource.rs:191-230 | in every run a frame starts only behind an open gate, for the initial frame or a normal event seen before |
| `Runtime.StopsExactlyWhenAsked` | crates/mecs/app_runtime_plugin/src/resource.rs:191-201 | the loop is stopped exactly when it was asked to at its top |
| `Runtime.WakesAreSpent` | crates/mecs/app_runtime_plugin/src/resource.rs:139-143 | over any run every return from the wake channel spends a wake of its own, so the loop never spins on an old one |
| `Runtime.NormalsConserved` | crates/mecs/app_runtime_plugin/src/resource.rs:191-214 | over any run no normal event is lost or made up: what was queued or arrived was pulled by a frame or is still queued |
| `MclQueue.InvStep` | crates/margatroid/mcl/plugin/src/handler.rs:92-243 | every handler step keeps distinct ids, `pending` at the head, one execution in flight, the FIFO and reply laws and the drain count |
| `MclPromises.SettledInOrderOnce` | crates/margatroid/mcl/plugin/src/handler.rs:210-243 | accepted commands settle in order of acceptance, each with exactly one reply, its own outcome |
| `MclPromises.OneExecution` | crates/margatroid/mcl/plugin/src/handler.rs:128-193 | at most one execution is in flight, and while the target lives it is the head's |
| `MclPromises.DrainCountsQueue` | crates/margatroid/mcl/core/src/types.rs:114-126 | the outstanding count equals the queue length, so the saturating subtraction never saturates |
| `MclPromises.WaitMeansDrained` | crates/margatroid/mcl/core/src/types.rs:127-143 | `wait` returns Ok only with an empty queue, nothing in flight and no cleanup error recorded |
| `MclClosing.HeadStartsExactly` | crates/margatroid/mcl/plugin/src/handler.rs:128-193 | a waiting head starts exactly when its queue is open, nobody cancelled it, its source is valid and its text parses; otherwise it is settled with the error of the first test that fails |
| `MclClosing.SubmissionDecided` | crates/margatroid/mcl/plugin/src/handler.rs:92-126 | a submission is accepted exactly when six tests pass, and otherwise gets the error of the first that fails |
| `MclClosing.ClosingFinishes` | crates/margatroid/mcl/core/src/lib.rs:18-25 | closing shuts a queue and cancels it, and keeps its commands, executions and pending head |
| `MclClosing.NothingAfterClose` | crates/margatroid/mcl/plugin/src/handler.rs:109-147 | from the close of a queue until another is installed no command is accepted and no execution starts |
| `MclClosing.ClosedHeadIsCancelled` | crates/margatroid/mcl/plugin/src/handler.rs:138-147 | a head that still waits in a closed queue is answered as cancelled |
| `MclClosing.WaitReports` | crates/margatroid/mcl/core/src/types.rs:118-144 | in every run `wait` fails with the last cleanup error and otherwise succeeds exactly when the queue is empty |
| `MclPromises.NoRequestForgotten` | crates/margatroid/mcl/plugin/src/handler.rs:92-193 | over any run every request has its answer, waits in the queue, or died with its target |
| `MclHandlers.MclDrain.Started` | crates/margatroid/mcl/core/src/types.rs:115-117 | one more outstanding |
| `MclHandlers.MclDrain.Completed` | crates/margatroid/mcl/core/src/types.rs:118-126 | one fewer outstanding; an error replaces the recorded one |
| `MclHandlers.MclDrain.Poll` | crates/margatroid/mcl/core/src/types.rs:132-140 | the test of the wait loop: an error first, then the count |
| `MclHandlers.MclTarget.HandleCommand` | crates/margatroid/mcl/plugin/src/handler.rs:92-126 | a request whose sender is still in its slot is handled once, as the model's step says: answered at once, or queued with its own new slot; the queue invariant is kept |
| `MclHandlers.MclTarget.Enqueue` | crates/margatroid/mcl/plugin/src/handler.rs:97-122 | the checks in the source's order with their error kinds, the queue created on first use, and the command and the count added |
| `MclHandlers.MclTarget.HandleQueue` | crates/margatroid/mcl/plugin/src/handler.rs:128-193 | refuses the head or starts it, and keeps the queue invariant; a refused head still has its sender |
| `MclHandlers.MclTarget.HandleCommandResult` | crates/margatroid/mcl/plugin/src/handler.rs:195-208 | an execution that comes back is settled or answered as closed, through a slot that still has its sender |
| `MclHandlers.MclTarget.SettleHead` | crates/margatroid/mcl/plugin/src/handler.rs:210-243 | settles a command only when the head has its id and the very same slot |
| `MclHandlers.Perform` | crates/margatroid/mcl/plugin/src/handler.rs:92-243 | a command accepted by an idle target, started and finished leaves nothing behind but its one answer |
| `AgentLifecycle.InvStep` | crates/margatroid/agent/plugin/src/handler.rs:210-498 | every handler and turn function keeps the lifecycle invariant, and a stopping agent stays stopping or goes |
| `AgentLifecycle.OneFlowPerAgent` | crates/margatroid/agent/plugin/src/handler.rs:285-405 | in every run an agent has at most one flow in flight, and is in the flow's own state or stopping |
| `AgentLifecycle.AgentsStayConsistent` | crates/margatroid/agent/plugin/src/handler.rs:210-283 | in every run names per workspace and addresses are unique, a turn means work, and no reply is delivered twice |
| `AgentLifecycle.StoppingIsFinal` | crates/margatroid/agent/plugin/src/handler.rs:405-451 | in every later state a stopping agent is stopping or gone, and its handle never comes back |
| `AgentLifecycle.MemberUnique` | crates/margatroid/agent/plugin/src/handler.rs:330-366 | a member name is never ambiguous, so that branch of a restart is unreachable |
| `AgentLifecycle.StartRoundTrip` | crates/margatroid/agent/plugin/src/handler.rs:210-283 | an accepted start whose flow finishes adds one idle agent under a new handle and answers with it, and changes nothing else |
| `AgentLifecycle.StopRoundTrip` | crates/margatroid/agent/plugin/src/handler.rs:285-328 | an accepted stop whose flow finishes removes exactly its agent and answers with it |
| `AgentLifecycle.RestartRoundTrip` | crates/margatroid/agent/plugin/src/handler.rs:330-403 | an accepted restart whose flow finishes leaves the one member of that name idle without a turn |
| `AgentLifecycle.ExceptionMakesStale` | crates/margatroid/agent/plugin/src/handler.rs:405-436 | after an exception a start or restart result is refused as stale and the agent stays stopping |
| `AgentLifecycle.TurnRoundTrip` | crates/margatroid/agent/core/src/lib.rs:29-73 | a started and finished turn leaves every agent as it was; only its own number finishes it |
| `AgentLifecycle.AbortedTurnBlocks` | crates/margatroid/agent/core/src/lib.rs:57-90 | after an abort no turn starts until one is finished, by whatever nonempty number |
| `AgentDecisions.StartDecided` | crates/margatroid/agent/plugin/src/handler.rs:210-283 | a start in full: the checks in order with their errors, and the new agent under its managed address |
| `AgentDecisions.StopDecided` | crates/margatroid/agent/plugin/src/handler.rs:285-328 | a stop in full |
| `AgentDecisions.RestartDecided` | crates/margatroid/agent/plugin/src/handler.rs:330-403 | a restart in full, for the one member of that name |
| `AgentDecisions.ResultDecided` | crates/margatroid/agent/plugin/src/handler.rs:413-498 | a result in full: removal exactly after a confirmed cleanup and in the flow's own state, idle, gone, or stale |
| `AgentDecisions.StartTurnDecided` | crates/margatroid/agent/core/src/lib.rs:29-55 | when a turn starts, and what changes |
| `AgentDecisions.FinishTurnDecided` | crates/margatroid/agent/core/src/lib.rs:57-73 | when a turn is finished, and what changes |
| `AgentDecisions.AbortTurnDecided` | crates/margatroid/agent/core/src/lib.rs:75-90 | when a turn is aborted, and what changes |
| `AgentDecisions.RequestsConserved` | crates/margatroid/agent/plugin/src/handler.rs:210-498 | over any run the requests taken up are exactly those answered, those with a flow in flight, and those that vanished with their request |
| `AgentHandlers.AgentWorld.Claim` | crates/margatroid/agent/plugin/src/handler.rs:42-48 | the sender leaves the request's slot for a new one, once |
| `AgentHandlers.AgentWorld.HandleStartAgent` | crates/margatroid/agent/plugin/src/handler.rs:210-283 | on components, flows and slots, performs the model's step and keeps its invariant; a flow that starts carries the sender |
| `AgentHandlers.AgentWorld.Prepare` | crates/margatroid/agent/plugin/src/handler.rs:214-268 | the checks in order over both component columns; a failed insertion takes both components back and the handle stays spent |
| `AgentHandlers.AgentWorld.HandleStopAgent` | crates/margatroid/agent/plugin/src/handler.rs:285-328 | stops an agent at rest once per request, or delivers the refusal through the claimed sender |
| `AgentHandlers.AgentWorld.HandleRestartAgent` | crates/margatroid/agent/plugin/src/handler.rs:330-403 | restarts the one member of that name once per request, or delivers the refusal through the claimed sender |
| `AgentHandlers.AgentWorld.HandleAgentException` | crates/margatroid/agent/plugin/src/handler.rs:405-412 | the agent enters Stopping without a turn; its flow keeps its sender |
| `AgentHandlers.AgentWorld.HandleResult` | crates/margatroid/agent/plugin/src/handler.rs:453-498 | a result, current or stale, finds its sender still in its slot and is delivered once; no other flow loses its sender |
| `AgentHandlers.AgentWorld.HandleFailed` | crates/margatroid/agent/plugin/src/handler.rs:437-452 | removes the agent only after a confirmed cleanup and only when it still is in the flow's state |
| `AgentHandlers.AgentWorld.HandleStopFinished` | crates/margatroid/agent/plugin/src/handler.rs:464-484 | removes a stopping agent, and calls the result stale otherwise |
| `AgentHandlers.AgentWorld.FinishResult` | crates/margatroid/agent/plugin/src/handler.rs:420-436 | only a result that finds its own state makes the agent idle |
| `AgentHandlers.AgentWorld.AgentStartTurn` | crates/margatroid/agent/core/src/lib.rs:29-55 | succeeds exactly for an idle agent, with a fresh turn |
| `AgentHandlers.AgentWorld.AgentFinishTurn` | crates/margatroid/agent/core/src/lib.rs:57-73 | performs its step; a refusal changes nothing |
| `AgentHandlers.AgentWorld.AgentAbortTurn` | crates/margatroid/agent/core/src/lib.rs:75-90 | ends the turn and leaves the agent working; a refusal changes nothing |
| `McpSession.InvStep` | apps/mcp-client/src/main.rs:225-321 | every atomic step of requests, answers and failures keeps the session invariant |
| `McpPromises.ClosedIsEmpty` | apps/mcp-client/src/main.rs:225-231 | closed with no failure between its store and its drain means nothing pending, and everyone who waits has a result to receive |
| `McpPromises.DrainedStaysEmpty` | apps/mcp-client/src/main.rs:284-321 | after the first drain nothing is ever pending again |
| `McpPromises.NoWaiterLost` | apps/mcp-client/src/main.rs:284-321 | a request blocked on its receiver is pending under its own id or has its result |
| `McpPromises.PendingIsBounded` | apps/mcp-client/src/main.rs:288-299 | never more than the in-flight budget, although the length is read before the insertion |
| `McpPromises.SentOnce` | apps/mcp-client/src/main.rs:276-281 | what was sent to a request is never overwritten, and an answer among it came in under that very id |
| `McpPromises.AnswersReachTheirRequest` | apps/mcp-client/src/main.rs:238-283 | a request that returns an answer returns one the server gave to its own id |
| `McpDecisions.LockDecided` | apps/mcp-client/src/main.rs:290-297 | full before closed before admitted |
| `McpDecisions.ConfirmDecided` | apps/mcp-client/src/main.rs:307-317 | a sender still there after the exchange means unanswered |
| `McpDecisions.AnswerDecided` | apps/mcp-client/src/main.rs:276-281 | an answer goes to the request of its id or nowhere |
| `McpDecisions.FailureDecided` | apps/mcp-client/src/main.rs:225-231 | a failure gives its own reason to everybody pending and to nobody else |
| `McpHandlers.ClientSession.CheckClosed` | apps/mcp-client/src/main.rs:285-287 | the first access: whether the session is open |
| `McpHandlers.ClientSession.FetchId` | apps/mcp-client/src/main.rs:288-288 | the second access: an id that no request had before |
| `McpHandlers.ClientSession.LockPending` | apps/mcp-client/src/main.rs:290-297 | admits exactly within the budget and with `closed` still unset, and says which of the two failed |
| `McpHandlers.ClientSession.Insert` | apps/mcp-client/src/main.rs:298-299 | stores the new sender and releases the lock |
| `McpHandlers.ClientSession.Retract` | apps/mcp-client/src/main.rs:302-305 | a failed send removes the own sender |
| `McpHandlers.ClientSession.Confirm` | apps/mcp-client/src/main.rs:307-317 | after a completed POST a sender that is still there is unanswered |
| `McpHandlers.ClientSession.Receive` | apps/mcp-client/src/main.rs:320-320 | the request reads its own channel; an answer there has its id |
| `McpHandlers.ClientSession.Incoming` | apps/mcp-client/src/main.rs:276-281 | takes the sender of its id and writes the answer into its channel, or changes nothing |
| `McpHandlers.ClientSession.StoreClosed` | apps/mcp-client/src/main.rs:225-227 | the first half of a failure |
| `McpHandlers.ClientSession.Drain` | apps/mcp-client/src/main.rs:228-231 | the loop writes the reason into exactly the channels of the stored senders and empties the map |
| `McpHandlers.Exchange` | apps/mcp-client/src/main.rs:284-321 | a request whose answer comes while it waits returns that answer; on a closed or full session it returns that error |
| `DtoTable.TrackInv` | crates/margatroid/dto/plugin/src/handler.rs:88-127 | a request that is not refused keeps the table bounded, bounded per connection and free of repeated ids |
| `DtoTable.RefusalIsNeeded` | crates/margatroid/dto/plugin/src/handler.rs:96-112 | the converse: a request is refused exactly when inserting it would break one of the three |
| `DtoProperties.InvStep` | crates/margatroid/dto/plugin/src/handler.rs:214-1373 | every handler keeps the table, waiter, reply and recipient laws |
| `DtoProperties.RequestsStayBounded` | crates/margatroid/dto/plugin/src/handler.rs:88-127 | in every run at most 4096 requests, at most 128 per connection, unique by connection and network id |
| `DtoProperties.AnsweredOnce` | crates/margatroid/dto/plugin/src/handler.rs:136-141 | in every run an operation is answered at most once, and only after it left the table |
| `DtoProperties.ReportsAreServed` | crates/margatroid/dto/plugin/src/handler.rs:284-299 | in every run a pending state report is among the waiters, and the next publication has a snapshot on its way for them |
| `DtoProperties.SnapshotServesWaiters` | crates/margatroid/dto/plugin/src/handler.rs:1148-1223 | the awaited snapshot answers every live waiter and leaves no state report pending |
| `DtoProperties.RecipientsAreCurrent` | crates/margatroid/dto/plugin/src/handler.rs:1320-1373 | in every run a recipient recorded at the current version was last sent exactly the cached state |
| `DtoProperties.PublishesWhatIsDue` | crates/margatroid/dto/plugin/src/handler.rs:1320-1373 | a publication sends the state once to each recipient not sent the current version, records it, and sends nothing to anyone else |
| `DtoProperties.VersionCountsChanges` | crates/margatroid/dto/plugin/src/handler.rs:1128-1184 | at every step, the first snapshot included, the version moves by one exactly when the cached state changes, and a state never goes away |
| `DtoDecisions.RequestDecided` | crates/margatroid/dto/plugin/src/handler.rs:88-127 | a request is refused for exactly the first reason that applies, and tracked otherwise |
| `DtoDecisions.RegistrationDecided` | crates/margatroid/dto/plugin/src/handler.rs:610-668 | only the entry's own connection is answered, and recorded once delivered |
| `DtoDecisions.ResponseDecided` | crates/margatroid/dto/plugin/src/handler.rs:670-746 | a response of the expected kind answers a live client and only then touches the cache |
| `DtoDecisions.CompletionDecided` | crates/margatroid/dto/plugin/src/handler.rs:780-971 | workspace results and aborts answer and mark the cache |
| `DtoDecisions.MergeMerges` | crates/margatroid/dto/plugin/src/handler.rs:1128-1146 | the first history of the same agent in the same workspace is replaced in place, or the new one added last |
| `DtoDecisions.SnapshotDecided` | crates/margatroid/dto/plugin/src/handler.rs:1148-1223 | an awaited snapshot becomes the state or is asked for again later; any other changes nothing |
| `DtoDecisions.PublicationAsks` | crates/margatroid/dto/plugin/src/handler.rs:1249-1318 | a publication asks for a snapshot exactly when none is on its way, one is wanted and nothing holds it back |
| `DtoDecisions.PublicationSends` | crates/margatroid/dto/plugin/src/handler.rs:1320-1373 | exactly the wanted connections that are behind receive the cached state, once |
| `DtoDecisions.FailureRemembered` | crates/margatroid/dto/plugin/src/handler.rs:1340-1361 | a version that did not encode is remembered |
| `DtoHandlers.Server.Track` | crates/margatroid/dto/plugin/src/handler.rs:88-127 | inserts exactly when not refused, and says why otherwise |
| `DtoHandlers.Server.Take` | crates/margatroid/dto/plugin/src/handler.rs:136-141 | removes and returns one entry |
| `DtoHandlers.Server.HandleRequest` | crates/margatroid/dto/plugin/src/handler.rs:214-299 | performs its step and returns its refusal |
| `DtoHandlers.Server.HandleDisconnect` | crates/margatroid/dto/plugin/src/handler.rs:592-608 | performs its step and leaves the connection without entries |
| `DtoHandlers.Server.MergeHistory` | crates/margatroid/dto/plugin/src/handler.rs:1128-1146 | replaces the first history of the same agent when it differs, adds an unknown one, and counts exactly these changes |
| `DtoHandlers.Server.HandleSnapshot` | crates/margatroid/dto/plugin/src/handler.rs:1148-1223 | performs its step: an awaited snapshot becomes the state and the loop answers the waiters |
| `DtoHandlers.Server.PublishState` | crates/margatroid/dto/plugin/src/handler.rs:1249-1373 | performs its step |
| `DtoHandlers.Server.SendAll` | crates/margatroid/dto/plugin/src/handler.rs:1362-1373 | the loop over the due recipients sends each one frame and records it |
| `MclSoundness.AcceptedIsWellFormed` | crates/margatroid/mcl/core/src/lib.rs:131-280 | everything accepted is well-formed: valid identifiers, nonempty expressions, ordered same-sign ranges, right arity; and its `?` use every argument index exactly once, in order |
| `MclPrinter.PrintParses` | crates/margatroid/mcl/core/src/lib.rs:131-280 | every well-formed operation is printed as an instruction that parses back to it |
| `MclPrinter.ParserIsExact` | crates/margatroid/mcl/core/src/lib.rs:131-280 | an operation is well-formed exactly when some instruction parses to it |
| `MclPrinter.SelectorRound` | crates/margatroid/mcl/core/src/lib.rs:48-90 | a printed selector parses back to itself |
| `MclPrinter.ExpressionRound` | crates/margatroid/mcl/core/src/lib.rs:92-129 | a printed expression parses back to itself |
| `MclSoundness.DistinctIsCardinality` | crates/margatroid/mcl/core/src/lib.rs:158-172 | declared fields are pairwise different exactly when their set is as large as their list |
| `MclSoundness.EffectArities` | crates/margatroid/mcl/core/src/lib.rs:236-250 | the effects that there are, and how many parameters each takes |
| `MclSoundness.PathExactly` | crates/margatroid/mcl/core/src/lib.rs:282-301 | a config path is valid exactly when its characters are those of nonempty parts between single dots, without control characters and brackets |
| `MclSoundness.ExpressionSound` | crates/margatroid/mcl/core/src/lib.rs:92-129 | a parsed expression has at least one source, each valid |
| `MclLoops.SplitExpression` | crates/margatroid/mcl/core/src/lib.rs:92-112 | the scan over depth and start yields exactly the parts between the commas outside brackets |
| `MclLoops.EffectParameters` | crates/margatroid/mcl/core/src/lib.rs:246-263 | the loop over rest and count yields the parameters and how many of them are `?` |
| `Cidr.ContainsIsInterval` | crates/margatroid/config/core/src/types.rs:51-67 | the masked comparison is membership in an interval of 2^(bits - prefix) addresses |
| `Cidr.IntervalIsAligned` | crates/margatroid/config/core/src/types.rs:51-67 | the interval starts at a multiple of its size and holds the network; for prefix 0 it is the whole family |
| `Cidr.DisplayParses` | crates/margatroid/config/core/src/types.rs:29-49 | what a block displays parses back to it |
| `Cidr.ParsedIsBlock` | crates/margatroid/config/core/src/types.rs:29-49 | a parsed prefix fits the width of its addresses |
| `Cidr.LoopbackOnlySound` | crates/margatroid/config/core/src/types.rs:86-88 | a loopback-only block holds loopback addresses only |
| `Cidr.LoopbackOnlyComplete` | crates/margatroid/config/core/src/types.rs:86-88 | every other block holds an address that is not loopback |
| `Cidr.AdmitsNonLoopbackExact` | crates/margatroid/config/core/src/types.rs:117-131 | `admits_non_loopback` is true exactly when some address that is not loopback is allowed |
| `Cidr.AllowsPeerExactly` | crates/margatroid/config/core/src/types.rs:117-123 | exactly the peers of each policy, as intervals |
| `Cidr.BareAddress` | crates/margatroid/config/core/src/types.rs:29-49 | a text without a slash is a block of that address alone |
| `Cidr.SlashedAddress` | crates/margatroid/config/core/src/types.rs:29-49 | a text with a slash is a block exactly when an address and a decimal prefix that fits it surround the slash |
| `Bits.MaskClears` | crates/margatroid/config/core/src/types.rs:54-64 | conjunction with the shifted and truncated mask clears exactly the low bits |

## Left out

- HTTP, WebSocket, process, terminal and file I/O, logging, Lua, storage, the tool supervisor and the user interface are not part of this model.
- JSON text, UTF-8, base64, image signatures and serialised sizes: values are already parsed, and their encoded sizes are a parameter.
- Sha256 digests of streamed text are the exact text that was hashed, which assumes that no two texts collide.
- Header construction, vendor option flags and route configuration: single-branch facts about one request.
- The decoder after an error: it is dropped by its caller, so its fields are not described then.
- Error messages: errors are their kinds. For the parser the position of a failure is not kept.
- `Arc`, `Mutex`, `TypeId` and boxed events: a component type is a tag and a locked section is one atomic step.
- Integer widths: `usize` sums saturate where the source does; event counters, versions and id counters, 64 bits wide there, are unbounded here. Entity indices and generations keep their 32 bits.
- `World::get_component_mut`, resources and the per-type event readers: one-line accessors. `World::tick` clearing its read storage is covered by what one pull delivers.
- The fixed-frame mode of the runtime loop: it never parks.
- Clocks: deadlines, retry delays and refresh intervals are booleans that a step may choose freely.
- A task that the executor drops before its completion: its reservation stays counted and its gate closed, as in the source.
- Runtime.InvStep: the loop and its threads are a machine over values and not a class, since the promise is about interleavings and not about one object.
- The loop in `MclDrain::wait` around its test: it sleeps between tests on a notification, which the model does not schedule.
- A command result that arrives without its request: the head then stays pending for good; this fault of the environment is excluded.
- Closing and installing a queue, and removing a target or the addresses of entities that are no agents: steps or parameters of the value models, not methods of the handler objects.
- Execution of commands, effects and turns by the executor: what an operation does to storage, inference and tools is not part of this model; its outcome comes back as a token.
- `cancel_runtime` and the steps inside a lifecycle flow: a flow is its start, its agent's state and its outcome. Workspace removal of a despawned agent is folded into the despawn.
- A reply slot whose receiver is gone: delivery is counted when the sender is used.
- The MCP client's process watcher, frame reader, HTTP transport and the local request loop: they call the modelled operations and appear as their steps.
- Cancelling a failing task of the MCP client between storing `closed` and draining: a failure that started is assumed to reach its drain or to stay between the two.
- The liveness of a request's client and target in the protocol server: a parameter of each response step.
- Custom `state.sync` messages that a driver sends by itself, and log fan-out: they bypass the state cache.
- The parser's bracket depth is unbounded where the source counts in 32 bits; a converted TOML value is named by its JSON value.
- Origin and host checks of the ingress policy: string comparisons outside the address arithmetic.
