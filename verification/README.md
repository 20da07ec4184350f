# Verification of PAODO's protocols

PAODO runs language-model agents in sandboxed workspaces. This project models the parts of it that carry
real protocols and algorithms, and proves what they promise. JavaScript runs each piece of code between two
`await`s or `yield`s to completion, so a protocol is modelled as a set of atomic steps, methods of a class
whose fields are the source's own, and an invariant that every step keeps under any interleaving. What a
step computes is specified by a function on values, and the promises are proved about those functions.
Loops stay loops, recursion stays recursion, and errors are results.

| file | models |
|---|---|
| `ExecutionCapacity.dfy` | the gate on concurrent runs |
| `DetachedRun.dfy` | the life of one detached run: publish, timer, stop, catch, finally |
| `RunBroker.dfy` | the broker: sessions, runs, streams and eviction in one state machine |
| `RunStream.dfy` | the projection of a run's events to one client's stream |
| `SseParser.dfy` | the line reader at the other end, and the two ends joined (a subset of section 9.2.6 of the WHATWG HTML Living Standard: line feeds only, one data line an event) |
| `History.dfy` | conversation histories as complete blocks, saving and reloading, in-place compaction |
| `AgentLoop.dfy` | the agent loop over a shared history that can be abandoned at any yield |
| `ModelTurn.dfy` | reading one model turn, assembling its tool calls, dispatching them |
| `HandOffs.dfy` | the link queue, the opening of a model stream, the permit semaphore |
| `Digraph.dfy`, `ConnectionRules.dfy`, `CallGraph.dfy` | the store's cycle test, the canvas's link rules, the graph store with its ids |
| `NextRun.dfy` | the recurrence search over an abstract occurrence function |
| `DriveSync.dfy` | the drive-link table and the client that reconciles a canvas with it |
| `FileTree.dfy` | ignore rules, the recursive walker, the bounded directory reader |
| `FileTreeCache.dfy` | the browser's cache of deep reads |
| `Move.dfy` | a small failing file system and the batch move that never overwrites |
| `Wrappers.dfy`, `Sequences.dfy` | optional values and results; regrouping and filtering sequences |

`dafny verify dfyconfig.toml` checks everything.

## Main results

- **Broker.** In every reachable state the capacity counter is the number of running sessions, at most one
  per conversation; no step evicts or replaces a running one; start and end notes balance. A finished
  detached run says `done` exactly once, last; all it publishes and what is recorded of it are told from its own
  steps alone, timer and stop included. Each event is told by its own frame, in order. Every client that stayed and did not come late was sent the
  same frames whenever it attached, and coming late matters exactly when a run is over without `done`.
- **History.** At every yield and exit of any sequence of runs, through compaction, abandonment, throws and
  reloads, the history is one prompt and complete blocks: each call answered at once, in order, exactly once.
  The histories a consumer sees are a function of the world, cut exactly where it goes away. Every message is
  accounted for: each tool result is that of the very call whose id it bears, and compaction clears exactly the
  outputs of strippable tools and keeps the rest of its tail.
- **Graphs.** The depth-first test is exact, the canvas's breadth-first test refuses exactly what the store
  would, every sequence of edits keeps the graph acyclic with distinct ids, and each edit and each drag changes
  exactly what it says.
- **Recurrence.** The search returns the least later occurrence, is monotone, and iterated reaches every
  occurrence and skips none; neither attempt cap ever ends it.
- **Hand-offs.** No wake-up and no permit is lost; items come out, and waiters start, in order; every link
  emitted before the last tool settles comes out before the end.
- **File trees.** Walker and flat filter agree; counts do not depend on depth without a ceiling, and with one
  exactly when no listing leaves a file out; the cached tree is determined by the server and the registered
  paths under any interleaving; pruning never changes what is shown.
- **Drive links.** A sync completes exactly when every drive and both ends of every link are there and every
  call works, and then canvas, mirror and table agree; a failed call leaves mirror and table agreeing unless it
  is a deletion that fails halfway.
- **Moves.** With any call allowed to fail nothing is overwritten and nothing is lost, a batch is a renaming, and
  a failed item changes nothing unless its rollback fails too.

## Where the code does not meet a plausible promise

Each can happen as the code stands, and has an exact condition and a concrete case in the model.

- With an entry ceiling, the file count a directory carries depends on the depth of the walk, exactly when some
  listing in or below it leaves a file out: `FileTree.CeilingKeepsCountsIff`, `FileTree.CeilingChangesCounts`.
- A drive deletion that fails after its links were dropped leaves the client's mirror behind the table until
  the deletion is repeated, exactly when the mirror listed a link of the drive: `DriveSync.SyncDrives`,
  `DriveSync.HalfwayHappens`.
- A move strands an empty directory, or a second name, exactly when its destination was created, its second call
  failed and so did its rollback: `Move.MoveWithoutOverwrite`, `Move.MoveOne`, `Move.MoveStrands`.

The comment at `lib/agent/runner.ts:444` says a throw lands before any tool turn is committed. A notification or
a signal handler may throw after the commit; the model follows the code, and the history is consistent then too.

## Limits its callers stay within

Exact conditions on inputs that nothing in the repository produces today.

- A producer-driven run that is finished without `done` leaves the streams attached before its end open, while
  one attached after it is closed at once: `RunBroker.ComingLateMattersIff`, `RunBroker.ProducerForgetsDone`. The
  only producer publishes `done` before it finishes (`lib/agent/skills/executeSkill.ts:359-362`). It does both
  only if `persist`, just above at line 357, does not throw: if that throws, neither call is made and the run
  keeps its slot and its streams. `persist` catches what its database throws
  (`lib/conversations/store.ts:262-291`), so this takes one injected in its place or a failure before that.
- A run whose answer is complete would be recorded as cancelled or timed out if the generator's cleanup threw
  after `done` and after the timer or a stop, because `catch` sets the status without asking whether `done` was
  sent: `DetachedRun.RecordedSuccessIff`, `DetachedRun.CleanRunRecordedAsStopped`. The cleanup of `runAgent`
  itself does not throw (`lib/agent/runner.ts:461-472`), so this takes a generator injected in its place.
- Compaction lengthens a history that is only a prompt, and medium a history of at most seven messages whose
  first is the assistant's: `Compaction.LengthensIff`. The loop compacts neither, because every run starts by
  appending the user's message and `AgentLoop.RunCommitsAreSendable` keeps it first.
- A drawn link with a `null` source handle would be recreated by every save, because the server answers with an
  absent one and the comparison is strict: `DriveSync.ResaveIsQuietIff`. Both handles of a drive have ids
  (`components/graph/GraphNodes.tsx:105-106`), so no drag makes such a link, and loaded ones carry an absent one.
- The recurrence search gives up when an occurrence numbered 2^52 or later is still not past the instant asked
  about, and a search that gave up may be followed by one that finds something: `NextRun.SearchOverflows`,
  `NextRun.MonotoneInAfter`, `NextRun.GivingUpBreaksMonotone`. Steps are a minute at least, so dates run out long before.

## Model

| member | source | states |
|---|---|---|
| ExecutionCapacity.Capacity.TryAcquire | lib/agent/executionCapacity.ts:36-40 | a slot is handed out exactly when fewer than the limit are held, and the counter stays the number of slots not yet given back |
| ExecutionCapacity.Capacity.Release | lib/agent/executionCapacity.ts:40-46 | giving a slot back twice counts once; the counter stays the number of held slots, so the clamp at zero never bites |
| DetachedRun.OutcomeSuccessIffClean | lib/agent/runBroker.ts:49-55 | the status folded from the events is success exactly when none of them is an error or `limit_reached` |
| DetachedRun.LastTroubleDecides | lib/agent/runBroker.ts:49-55 | which status the events fold into is told by the last error or limit among them alone: limit, timeout, stop or failure |
| DetachedRun.FinishingFacts | lib/agent/runBroker.ts:188-256 | an error followed by `done` finishes a buffer with exactly one `done`, at its end, and only the first error is noted on the conversation |
| DetachedRun.YieldKeepsSane | lib/agent/runBroker.ts:259-281 | every event of the generator, in every combination of timer and stop, keeps the run sane |
| DetachedRun.FinallyFacts | lib/agent/runBroker.ts:302-359 | the `finally` block ends any sane run sanely and records success exactly when the buffer holds no error and no limit |
| DetachedRun.ThrowFacts | lib/agent/runBroker.ts:282-359 | a throw ends any sane run sanely; the record is honest about the buffer except when the cleanup of a run that had already said `done` throws after the timer or a stop |
| DetachedRun.EveryLifeIsSane | lib/agent/runBroker.ts:184-360 | the invariant of one detached run holds after every sequence of yields, throws, returns, timers and stops |
| DetachedRun.FinishedRunSaysDoneOnce | lib/agent/runBroker.ts:188-339 | however the generator behaves, a finished run's buffer holds exactly one `done`, as its last event; the noted error is the first published; nobody is still subscribed |
| DetachedRun.RecordedSuccessIff | lib/agent/runBroker.ts:49-55 | over every life: recorded success if and only if the buffer is clean and cleanup was not cut short by a throw after the timer or a stop |
| DetachedRun.CleanRunRecordedAsStopped | lib/agent/runBroker.ts:282-287 | the exception is real: a concrete life whose buffer is a clean answer is recorded as cancelled |
| DetachedRun.TimeoutExplainedOnce | lib/agent/runBroker.ts:266-271 | once the timer has fired, at most one more error is published, the run's own timeout, directly before `done` |
| DetachedRun.WholeLife | lib/agent/runBroker.ts:188-339 | over every life that ends, what was published and what was recorded are told from the steps alone: the generator's events without the errors after the timer or a stop, one explanation if one is due, `done`, and the verdict |
| DetachedRun.OverIff | lib/agent/runBroker.ts:257-302 | a run is over exactly when its generator, or its generator's cleanup, has ended |
| DetachedRun.TimerIsExplained | lib/agent/runBroker.ts:266-271 | if the timer fires while a run streams, its own timeout is the event before `done` and it is recorded as timed out, however it goes on |
| DetachedRun.StopIsExplained | lib/agent/runBroker.ts:272-287 | if the user presses stop while a run streams and the timer does not fire before that ends, the stop is the event before `done` and what is recorded, except exactly when the timer fires during a cleanup that throws |
| RunBroker.RunningKeysAreHeldSlots | lib/agent/runBroker.ts:139-162 | the running sessions a client can find and the held capacity slots are the same number |
| RunBroker.UpdateKeepsBalance | lib/agent/runBroker.ts:319-323 | start and end notes of a workspace go on differing by its runs in progress |
| RunBroker.EndKeepsAccounts | lib/agent/runBroker.ts:319-323 | ending a run gives back its slot and balances its start note |
| RunBroker.StartKeepsAccounts | lib/agent/runBroker.ts:162-181 | registering a run keeps sessions, slots and notes in step |
| RunBroker.ShowsAfterEvent | lib/agent/runBroker.ts:188-198 | a stream that shows a run still shows it after the run publishes one more event |
| RunBroker.PublishKeepsWired | lib/agent/runBroker.ts:191-197 | fanning an event out keeps every attached stream equal to the projection of its run's buffer |
| RunBroker.SubscribeKeepsWired | lib/agent/runBroker.ts:527-538 | a stream attached at any moment is in step with the buffer from then on |
| RunBroker.LeaveKeepsWired | lib/api/workspaceRunStream.ts:20-30 | closing one stream leaves every other in step |
| RunBroker.ExternalSuccessIff | lib/agent/runBroker.ts:468-490 | a producer that finishes without a verdict is recorded as a success exactly when it published `done`, no error and no limit |
| RunBroker.ProducerDecides | lib/agent/runBroker.ts:480-490 | the producer's own verdict is recorded, unless it claims a success without a `done` |
| RunBroker.Broker.constructor | lib/agent/runBroker.ts:57-59 | an empty broker over one shared capacity gate |
| RunBroker.Broker.Start | lib/agent/runBroker.ts:89-182 | refuses exactly when the conversation has a running session, reports capacity exactly when all slots are held, and otherwise registers the run under its conversation |
| RunBroker.Broker.Register | lib/agent/runBroker.ts:161-181 | the session and its start note are entered together, with the invariant restored |
| RunBroker.Broker.FanOut | lib/agent/runBroker.ts:191-197 | every subscribed stream, and no other, handles the event, whatever the order of the set |
| RunBroker.Broker.PublishEvent | lib/agent/runBroker.ts:188-207 | buffer, status, noted error and `sentDone` after one publish, with streams in step |
| RunBroker.Broker.RunnerYields | lib/agent/runBroker.ts:259-281 | one event of the generator, in place, against the life of the run, with the whole broker invariant kept |
| RunBroker.Broker.RunFinally | lib/agent/runBroker.ts:302-359 | the `finally` block in place: final events, slot, end note, record and eviction together |
| RunBroker.Broker.RunnerReturns | lib/agent/runBroker.ts:302-359 | a generator that ends, at any point, leaves a valid broker and a finished run |
| RunBroker.Broker.RunnerThrows | lib/agent/runBroker.ts:282-359 | a generator or a cleanup that throws leaves a valid broker and a finished run |
| RunBroker.Broker.TimerFires | lib/agent/runBroker.ts:113-116 | the timer only marks a run that is still its own; a disposed timer does nothing |
| RunBroker.Broker.Stop | lib/agent/runBroker.ts:560-565 | succeeds exactly when the conversation has a running session, and touches no other run |
| RunBroker.Broker.ExternalPublish | lib/agent/runBroker.ts:469-479 | a producer's event reaches buffer and subscribers as a detached run's does |
| RunBroker.Broker.ExternalFinish | lib/agent/runBroker.ts:480-509 | finishing is idempotent; the first finish releases, balances and records |
| RunBroker.Broker.Subscribe | lib/agent/runBroker.ts:527-538 | snapshot, registration and replay in one step; an unknown conversation gets one closing frame |
| RunBroker.Broker.Leave | lib/api/workspaceRunStream.ts:20-30 | a client that goes away closes its own stream and unsubscribes, and nothing else changes |
| RunBroker.Broker.Evict | lib/agent/runBroker.ts:355-358 | a linger timer, however late, removes only its own run's session, and every running session stays registered |
| RunBroker.Perform | lib/agent/runBroker.ts:89-565 | every atomic step, from any reachable state, keeps every invariant, evicts or replaces no running session, and takes registry, runs, notes and clients where the step says |
| RunBroker.LeavesAs | lib/api/workspaceRunStream.ts:20-30 | whether a leaving stream was closed already is told by its run's events and how it came |
| RunBroker.Execute | lib/agent/runBroker.ts:89-565 | every sequence of steps from an empty broker keeps every invariant and leads to the one registry, runs, notes and clients those steps lead to |
| RunBroker.RunLivesItsLife | lib/agent/runBroker.ts:184-360 | in every execution what the broker holds of a detached run is what the steps meant for it make of it, whatever else happens in between |
| RunBroker.DetachedRunTellsItsLife | lib/agent/runBroker.ts:188-339 | so a detached run of any execution that is over has buffered and recorded what its own life amounts to |
| RunBroker.NoSessionIsLeftBehind | lib/agent/runBroker.ts:353-358 | in every execution the session of each run that is over is evicted or still to be evicted |
| RunBroker.CapacityIsRunningSessions | lib/agent/runBroker.ts:89-182 | in every valid state the capacity counter is the number of registered running sessions, within the limit; one running run per conversation; start and end notes of a workspace differ by its runs in progress |
| RunBroker.DetachedIsNeverLate | lib/agent/runBroker.ts:302-320 | nobody comes late to a detached run: it is over only once it has said `done` |
| RunBroker.AttachTimeDoesNotMatter | lib/agent/runBroker.ts:527-538 | two clients that attached to a run, detached or producer-driven, at any two moments, not late, and stayed were sent the same frames: the projection of the whole buffer; they are closed exactly if `done` was published, and then there is one final `done` frame and one `response` with the joined tokens exactly when no error came before it |
| RunBroker.FinishedDetachedRun | lib/agent/runBroker.ts:302-339 | for a finished detached run that is always so: nobody was late, every client that stayed is closed, and the one `done` ends the buffer |
| RunBroker.ProjectionUpToDone | lib/api/workspaceRunStream.ts:17-30 | nothing is sent after `done` |
| RunBroker.ComingLateMattersIff | lib/agent/runBroker.ts:480-509 | a client that attaches to a run that is over is left as one that was there all along, if and only if the run said `done` |
| RunBroker.ClosingAtTheEndIsQuietIff | lib/api/workspaceRunStream.ts:75-82 | replaying a buffer and closing is the same as replaying it, if and only if `done` is in it |
| RunBroker.ProducerForgetsDone | lib/agent/runBroker.ts:390-512 | a concrete execution: a producer finishes without `done`, the client attached before is left open on a run that is over, and one attached after it is closed |
| RunBroker.ClosedByDone | lib/api/workspaceRunStream.ts:59-71 | a stream that handles `done` is closed |
| RunStream.ReplayThenLive | lib/api/workspaceRunStream.ts:75-81 | replaying a prefix and receiving the rest live is the same as replaying it all |
| RunStream.StreamBeforeDone | lib/api/workspaceRunStream.ts:31-58 | before `done` a stream holds the frames, the joined tokens, the last error and the limit flag of the events so far |
| RunStream.FirstErrorIs | lib/agent/runBroker.ts:199-205 | the error noted on the conversation is the first of the run |
| RunStream.EventsAreTold | lib/api/workspaceRunStream.ts:31-58 | each event up to `done` that a client is told of is told by the frame at its own place: of the same kind, with its fields, in the order of the events, and no frame besides |
| RunStream.FinishedRunIsTold | lib/api/workspaceRunStream.ts:59-71 | in a finished run the closing frames come after all of those |
| RunStream.ResponseJoinsTokens | lib/api/workspaceRunStream.ts:33-36 | the `response` says exactly the tokens the same client was sent, joined, and whether the limit was reached |
| RunStream.DoneNamesLastError | lib/api/workspaceRunStream.ts:55-71 | the `done` frame says whether there was an error and the code of the last one |
| RunStream.NobodyRuns | lib/api/workspaceRunStream.ts:76-80 | a client that asks for a conversation nobody runs is sent one `done` and closed |
| RunStream.ProjectionOfFinishedRun | lib/api/workspaceRunStream.ts:31-73 | a finished run is sent as its events, then one `response` unless an error occurred, then one `done` naming the last error |
| RunStream.OneDoneFrame | lib/api/workspaceRunStream.ts:59-71 | exactly one `done` frame, last; at most one `response`, just before it, exactly when there was no error, with all token contents joined |
| RunStream.ErrorIffLastError | lib/api/workspaceRunStream.ts:55-58 | a failure is remembered exactly when an error was published, first or last |
| RunStream.ConversationStream.Handle | lib/api/workspaceRunStream.ts:31-73 | the handler, in place, against the stream's specification; it leaves the broker when it closes |
| RunStream.ConversationStream.Close | lib/api/workspaceRunStream.ts:20-30 | closing is idempotent and ends the subscription |
| RunStream.ConversationStream.Start | lib/api/workspaceRunStream.ts:75-82 | attach, replay, and close if the run was already over; subscribed exactly while open |
| SseParser.LinesAppend | lib/client/sse.ts:13-19 | reading on from the unfinished line is reading the whole text |
| SseParser.SplitLines | lib/client/sse.ts:15-17 | the complete lines and the unfinished rest of a buffer |
| SseParser.ReadLines | lib/client/sse.ts:18-26 | of complete lines, the data lines that parse, in order |
| SseParser.ParseSseStream | lib/client/sse.ts:7-28 | the events yielded depend on the text received, not on how it was cut into chunks |
| SseParser.WireFormat | lib/api/workspaceRunStream.ts:17-19 | an event is one data line and a blank line, a keepalive one comment and a blank line |
| SseParser.ItemIsRead | lib/api/workspaceRunStream.ts:17-19 | one more frame or keepalive on the wire is one more event read, or none |
| SseParser.WireCarriesEvents | lib/api/workspaceRunStream.ts:17-19 | frames written by the stream and read back are exactly the events sent, whatever keepalives came between |
| SseParser.TruncationYieldsPrefix | lib/client/sse.ts:7-28 | a body cut off anywhere yields a prefix of the events, never a partial one |
| SseParser.ChunkingDoesNotMatter | lib/agent/sse.ts:28 | any frames and keepalives, cut anywhere and possibly short: all the events, or a prefix |
| EndToEnd.ReaderSeesWholeRun | lib/api/workspaceRunStream.ts:8-87 | from broker to reader: a client that stayed reads the projection of the run's whole buffer, over any chunking |
| History.BlocksAppend | lib/agent/runner.ts:364-385 | complete blocks followed by complete blocks are complete blocks |
| History.CutAtAssistant | lib/agent/compact.ts:89-92 | a history of complete blocks cut at an assistant message leaves complete blocks on both sides |
| History.SaveReloadKeepsHistory | lib/agent/messageSerialization.ts:26-44 | save, reload and a fresh prompt put the fresh prompt first and change nothing else |
| History.NewConversationWellFormed | lib/agent/messageSerialization.ts:41-44 | a new conversation with its prompt is well formed |
| History.ErrorNoteKeepsWellFormed | lib/agent/messageSerialization.ts:60-64 | the note goes on the last message, which is otherwise as it was, as is every other; every call stays answered |
| Compaction.Cut | lib/agent/compact.ts:91-92 | the boundary is the first assistant message among the last six, or the end |
| Compaction.LightIsIdempotent | lib/agent/compact.ts:43-51 | clearing tool outputs twice is clearing them once |
| Compaction.ToolNamesAre | lib/agent/compact.ts:29-39 | each call id maps to the name its last named call gives it, and no other id is there |
| Compaction.StripClearsExactly | lib/agent/compact.ts:43-51 | exactly the text results whose call, as last named, was to a strippable tool are cleared; everything else stays |
| Compaction.LightKeepsTheRest | lib/agent/compact.ts:71-75 | light clears those and touches nothing else |
| Compaction.MediumKeepsTail | lib/agent/compact.ts:103-107 | medium leaves the prompt, the summary and its tail message by message, apart from the outputs that the tail's own calls show to be of strippable tools |
| Compaction.BriefCarriesBoth | lib/agent/compact.ts:79-101 | hard, and medium without a tail, leave the prompt and one message that opens with the summary and closes with the next step |
| Compaction.FailedSummaryKeepsAll | lib/agent/compact.ts:81-103 | a summary that could not be had leaves the history as it was |
| Compaction.CompactionKeepsWellFormed | lib/agent/compact.ts:65-109 | every level leaves a well-formed history that still opens with a human message, whether or not the summary could be had |
| Compaction.MediumSplits | lib/agent/compact.ts:103-106 | the head that medium summarizes and the tail it keeps are both complete blocks |
| Compaction.CompactionSize | lib/agent/compact.ts:73-108 | a history that opens with a human message is never lengthened; medium leaves at most eight messages and a tail that starts at an assistant message |
| Compaction.LengthensIff | lib/agent/compact.ts:73-108 | for every history and level, exactly when compaction leaves more messages than there were |
| Compaction.MessageArray.StripToolOutputs | lib/agent/compact.ts:43-51 | the in-place loop computes exactly the stripped history |
| Compaction.MessageArray.ToolNameByCallId | lib/agent/compact.ts:29-39 | the map of call ids to tool names, later calls winning |
| Compaction.MessageArray.ApplyCompaction | lib/agent/compact.ts:65-109 | the in-place splice computes exactly the compacted history, and a summary that throws changes nothing |
| Compaction.MessageArray.SetSystemPrompt | lib/agent/messageSerialization.ts:41-44 | replaces a leading prompt or inserts one |
| Compaction.MessageArray.NoteRunError | lib/agent/messageSerialization.ts:60-64 | marks the last message, in place |
| AgentLoop.ActiveIsDistinct | lib/agent/runner.ts:333-337 | no two calls that run share name and arguments |
| AgentLoop.EveryRequestRuns | lib/agent/runner.ts:333-337 | every name-and-arguments pair asked for runs |
| AgentLoop.KeyTellsCall | lib/agent/runner.ts:333-337 | for tools whose name holds no colon two calls share a key exactly when they share name and arguments |
| AgentLoop.LastAskedRuns | lib/agent/runner.ts:333-337 | of each repeated call the last one asked for runs |
| AgentLoop.EveryCallRunsOnce | lib/agent/runner.ts:333-337 | every call asked for runs once, by name and arguments |
| AgentLoop.ActiveInOrder | lib/agent/runner.ts:333-337 | what runs comes in the order it was asked for |
| AgentLoop.LastIndices | lib/agent/runner.ts:335-336 | the map holds, for each call, the last index of its kind |
| AgentLoop.Deduplicate | lib/agent/runner.ts:335-337 | the two passes compute the last call of each kind, in order |
| AgentLoop.ToolTurn | lib/agent/runner.ts:366-385 | a committed tool turn is one complete block: one result per call, in call order |
| AgentLoop.ToolTurnSays | lib/agent/runner.ts:364-385 | a committed tool turn is the model's text with the calls it runs, then for each call in order the result of that very call under its id |
| AgentLoop.TurnGoesOnIff | lib/agent/runner.ts:269-442 | the loop goes on after a turn exactly if it called tools, none failed for good, nothing threw and nobody pressed stop |
| AgentLoop.AnswerIsCommitted | lib/agent/runner.ts:298-331 | an answer or a refusal adds the model's text; a refusal without text adds nothing |
| AgentLoop.ToolTurnIsCommitted | lib/agent/runner.ts:364-385 | a tool turn first adds the model's text and each call's own result under its id |
| AgentLoop.HandlersCompactInOrder | lib/agent/runner.ts:424-429 | each call that asks for compaction leaves the compaction it asks for of the history before, in call order |
| AgentLoop.LoopTakesTurns | lib/agent/runner.ts:261-271 | the loop takes its turns one by one up to the first that does not go on, never more than the limit, and then the closing summary |
| AgentLoop.RunOpensWithInput | lib/agent/runner.ts:179-252 | a run first adds what the user said, unless it is stopped before it begins |
| AgentLoop.RunIsAccounted | lib/agent/runner.ts:252-442 | every message of every history a run commits was there before, is the user's input, the model's own text of some turn below the limit, the result of the very call whose id it bears, such a result cleared, or a brief a call asked for |
| AgentLoop.HandlersKeepSendable | lib/agent/runner.ts:424-429 | after every signal handler, compaction included, the history is sendable |
| AgentLoop.TurnKeepsSendable | lib/agent/runner.ts:269-442 | every history one turn commits, and every history standing at one of its yields, is sendable |
| AgentLoop.LoopKeepsSendable | lib/agent/runner.ts:261-442 | every history the loop commits or shows, to the limit, is sendable |
| AgentLoop.RunCommitsAreSendable | lib/agent/runner.ts:252-442 | every history a whole run commits, at every exit, is the prompt followed by complete blocks, the first the user's, and so is every one it shows once the user has spoken |
| AgentLoop.ToolTurnIsShown | lib/agent/runner.ts:269-441 | how often a tool turn yields, and which history stands at each yield |
| AgentLoop.OtherTurnsAreShown | lib/agent/runner.ts:261-331 | how often every other turn yields, and the exit at the limit |
| AgentLoop.MeasuredIs | lib/agent/runner.ts:425-441 | one cost event for each summary a compaction had made |
| AgentLoop.AgentRun.Yield | lib/agent/runner.ts:252-457 | one event is handed over with the history as it stands; the consumer goes away exactly at the last yield it had patience for |
| AgentLoop.AgentRun.Commit | lib/agent/runner.ts:364-385 | a commit is one synchronous step: no consumer sees anything in between |
| AgentLoop.AgentRun.CommitToolTurn | lib/agent/runner.ts:364-385 | the model's text and each call's own result, under its id and in call order, are pushed with no yield between |
| AgentLoop.AgentRun.RunHandlers | lib/agent/runner.ts:424-429 | handlers run in call order, a throwing summary changing nothing, and each summary made is one measured call |
| AgentLoop.AgentRun.TakeToolTurn | lib/agent/runner.ts:347-441 | a tool turn yields what it specifies, in every case of a throw; it is abandoned exactly when those yields exhaust the consumer, and has committed all of the turn unless it is, else a prefix |
| AgentLoop.AgentRun.RunTools | lib/agent/runner.ts:347-385 | the starts and links are yielded before the commit and everything else after it |
| AgentLoop.AgentRun.ShowResults | lib/agent/runner.ts:387-405 | one event a result and one for the turn's cost, cut short by a notification that throws |
| AgentLoop.AgentRun.FinishToolTurn | lib/agent/runner.ts:407-441 | what follows the results, yield by yield: terminal failure, abort, or the signal handlers, any of which may throw |
| AgentLoop.TurnTaken | lib/agent/runner.ts:261-271 | turn by turn, the loop has committed a prefix of what the whole run will |
| AgentLoop.AgentRun.TakeTurn | lib/agent/runner.ts:269-442 | the same for every kind of turn: answer, refusal, throw or tools |
| AgentLoop.AgentRun.ReachLimit | lib/agent/runner.ts:262-268 | the limit exit, with a summary that may fail, yield by yield and commit by commit |
| AgentLoop.AgentRun.Run | lib/agent/runner.ts:252-442 | a run terminates; it shows the specified histories at its yields, whole or cut at the consumer's last; it is abandoned exactly when there are that many; it commits a prefix of the specified histories, all of them unless abandoned |
| AgentLoop.RunKeepsResumable | lib/agent/runner.ts:252-457 | wherever a run ends or is abandoned, what it has shown and what it leaves are histories the next run may start from |
| AgentLoop.BetweenRuns | lib/agent/messageSerialization.ts:26-64 | between runs the prompt is the fresh one, the rest of the history is kept, and the error of the run, if any, is noted on its last message |
| AgentLoop.ConversationIsWellFormed | lib/agent/runner.ts:252-457 | over every sequence of runs, each abandoned at any yield or not at all, with fresh prompts, noted errors, saves and reloads between, the history at every yield and after every run is the prompt and complete blocks |
| AgentLoop.Converse | lib/agent/runner.ts:252-457 | the loop of runs over one history array, in place, shows and leaves exactly the specified histories |
| Digraph.BuildAdjacency | lib/agent/graph.ts:47-51 | the adjacency map represents exactly the edge list |
| Digraph.CycleSearch.Enter | lib/agent/graph.ts:54-56 | entering a node extends the path on the stack, with the invariant kept |
| Digraph.CycleSearch.Leave | lib/agent/graph.ts:60-61 | a node left is finished: its successors are, and it takes the next rank |
| Digraph.CycleSearch.Dfs | lib/agent/graph.ts:54-62 | a search that finds nothing restores the stack and finishes the node; one that finds something proves a cycle |
| Digraph.FinishOrderIsAcyclic | lib/agent/graph.ts:52-63 | a ranking of the sources by finish order excludes every cycle |
| Digraph.HasCycle | lib/agent/graph.ts:46-64 | terminates and answers true exactly when the list has a directed cycle, self-loops included |
| ConnectionRules.NormalizeIncoming | components/graph/handles.ts:12-15 | always one of the two incoming handles, and the identity on them |
| ConnectionRules.AgentEdgesAre | components/graph/connectionRules.ts:47-64 | one workspace links another exactly if an edge that is no drive's joins them, that way round |
| ConnectionRules.WouldCreateCycle | components/graph/connectionRules.ts:47-64 | terminates and answers exactly whether the target already reaches the source along agent edges |
| ConnectionRules.LinkClosesCycle | components/graph/connectionRules.ts:47-64 | adding an edge to an acyclic list closes a cycle exactly when its target reaches its source |
| ConnectionRules.SubgraphIsAcyclic | lib/agent/graph.ts:115-161 | taking edges away never closes a cycle |
| ConnectionRules.FindDriveEdge | components/graph/connectionRules.ts:24-29 | the drive link of a pair, found if there is one |
| ConnectionRules.ResolveConnection | components/graph/connectionRules.ts:66-81 | the rules resolve a drag as specified, drives and agents alike |
| ConnectionRules.CanvasRefusesWhatStoreWould | components/graph/connectionRules.ts:66-81 | between workspaces the canvas refuses exactly the links the store's cycle test would |
| ConnectionRules.EditsKeepCanvasCoherent | components/graph/connectionRules.ts:84-89 | whatever is dragged, ids stay distinct, pairs unique, handles normalized and agent links acyclic |
| ConnectionRules.AgentDragDraws | components/graph/connectionRules.ts:66-89 | an agent link let through is on the canvas afterwards, between the nodes and handles dragged, and nothing else changes; a loop changes nothing |
| ConnectionRules.DriveDragDraws | components/graph/connectionRules.ts:21-46 | a drive link is on the canvas afterwards, from drive to workspace at the handles dragged, in place of the pair's own and under its id if there was one; every other edge stays |
| ConnectionRules.OtherDragsChangeNothing | components/graph/connectionRules.ts:66-75 | any other drag changes nothing |
| ConnectionIds.MintRecognised | lib/connections/ids.ts:19-27 | a minted id is of its own kind and of no other |
| ConnectionIds.MintInjective | lib/connections/ids.ts:19-21 | different uuids give different ids |
| CallGraph.Minted | lib/agent/graph.ts:68-77 | minting keeps order and endpoints, and an id is either one this store issued or a fresh one |
| CallGraph.MintAll | lib/agent/graph.ts:68-77 | the loop with its claimed set computes exactly that |
| CallGraph.MintedDistinct | lib/agent/graph.ts:68-77 | whatever ids were sent, the result has distinct ids of call kind |
| CallGraph.MintedKeepsIff | lib/agent/graph.ts:68-77 | an edge keeps its id exactly if it is a call id this store issued that no earlier edge of the same save was sent with; every other gets its fresh one |
| CallGraph.ResaveKeepsIds | lib/agent/graph.ts:68-77 | re-saving the stored edges keeps every id |
| CallGraph.EditKeepsSound | lib/agent/graph.ts:81-161 | every edit keeps the graph acyclic with distinct call ids, in memory and on disk, whether or not the write works |
| CallGraph.EveryHistoryIsSound | lib/agent/graph.ts:89-161 | so does every sequence of edits |
| CallGraph.SaveThenResave | lib/agent/graph.ts:89-94 | an accepted save preserves order and endpoints, and saving its answer again changes nothing |
| CallGraph.StoreAgreesWithCanvas | lib/agent/graph.ts:104-112 | the store ends up with a link exactly when the canvas accepts it or it was there |
| CallGraph.GraphStore.SaveGraph | lib/agent/graph.ts:89-94 | a cyclic list changes nothing; any other is stored with the endpoints, order and positions sent and the ids due, on disk whenever the write works |
| CallGraph.GraphStore.AddCallEdge | lib/agent/graph.ts:104-112 | an existing pair answers with its edge and a cycle is refused, changing nothing; otherwise the graph has exactly that edge more, on disk whenever the write works |
| CallGraph.GraphStore.RemoveCallEdge | lib/agent/graph.ts:115-121 | afterwards an edge is there exactly if it was under another id; positions stay; disk equals memory when it answers true, and nothing changes when it answers false |
| CallGraph.GraphStore.RemoveWorkspaceFromGraph | lib/agent/graph.ts:138-161 | afterwards the edges are those that do not touch the workspace and its position is gone; every other stays; a failed write is swallowed |
| CallGraph.GraphStore.CanCall | lib/agent/graph.ts:123-125 | a workspace may call exactly the targets of its outgoing edges |
| NextRun.Double | lib/schedules/nextRun.ts:60-69 | doubling ends past `after` or out of the safe integers within 53 attempts; the cap of 64 is never what ends it |
| NextRun.Bisect | lib/schedules/nextRun.ts:70-75 | bisection ends on adjacent indices around the boundary within 53 halvings |
| NextRun.EstimateIsSafe | lib/schedules/nextRun.ts:60-62 | for representable dates the first estimate is a safe integer |
| NextRun.ComputeNextRun | lib/schedules/nextRun.ts:34-84 | the answer of the whole search, with every refusal and the end bound |
| NextRun.SmallDriftNeverOverflows | lib/schedules/nextRun.ts:60-69 | if no occurrence drifts from start plus i steps by two steps or more, the first estimate already lies past `after` |
| NextRun.AnswerIsLeast | lib/schedules/nextRun.ts:30-33 | the answer is the least occurrence strictly after `after`, and before the end |
| NextRun.NothingIffNoneLeft | lib/schedules/nextRun.ts:78-81 | nothing is answered exactly when every later occurrence is at or past the end |
| NextRun.AnswerIsUnique | lib/schedules/nextRun.ts:34-84 | the specification determines the answer |
| NextRun.MonotoneInAfter | lib/schedules/nextRun.ts:34-84 | asking later never answers earlier, no answer counting as the latest, except exactly when the earlier search gave up for want of safe integers and the later one has something to find |
| NextRun.MonotoneUnderSmallDrift | lib/schedules/nextRun.ts:34-84 | without any exception where occurrences keep within two steps of their nominal place |
| NextRun.GivingUpBreaksMonotone | lib/schedules/nextRun.ts:67-68 | the exception is needed: a calendar that stands still for 2^52 occurrences |
| NextRun.IterationSkipsNothing | lib/schedules/nextRun.ts:30-33 | run times got by iterating the search increase, so each instant comes once, and no occurrence up to the last is missing |
| NextRun.IterationReaches | lib/schedules/nextRun.ts:30-33 | iterating the search from any instant reaches each later occurrence before the end |
| HandOffs.LinkQueue.Emit | lib/agent/toolDispatch.ts:49-53 | a link is queued and a parked consumer woken |
| HandOffs.LinkQueue.Settle | lib/agent/toolDispatch.ts:54-58 | settling wakes a parked consumer |
| HandOffs.LinkQueue.Step | lib/agent/toolDispatch.ts:59-67 | the consumer gets the next link, or parks over an empty queue and unsettled tools, or ends with all delivered |
| HandOffs.LinkQueue.DrainAfterSettle | lib/agent/toolDispatch.ts:59-67 | after settling, everything left comes out once, in order, and then the end |
| HandOffs.NoWakeUpLost | lib/agent/toolDispatch.ts:44-69 | under any interleaving a consumer is parked only over an empty queue and unsettled tools, and ends only once the tools have settled and every link emitted before that has come out |
| HandOffs.LinkLogHoldsAll | lib/agent/toolDispatch.ts:44-58 | the log holds every link emitted, in order, and how many came before the tools first settled |
| HandOffs.AskingDrains | lib/agent/toolDispatch.ts:59-67 | a consumer that keeps asking is handed one link at a time until there is none, and then the end or a wait |
| HandOffs.ExerciseQueue | lib/agent/toolDispatch.ts:44-69 | under any interleaving of emits, settlement and requests the queue follows its log: what has come out is what was emitted, in order, up to the cursor |
| HandOffs.StreamOpening.OnPaced | lib/agent/modelTurn.ts:154-157 | a pacing notice is handed over and a parked turn woken |
| HandOffs.StreamOpening.Settle | lib/agent/modelTurn.ts:159-169 | the call settling, either way, wakes a parked turn |
| HandOffs.StreamOpening.Step | lib/agent/modelTurn.ts:174-189 | the loop takes the log where it says: the next notice of a splice, a new splice, a park over nothing missed, or the end |
| HandOffs.NoNoticeLost | lib/agent/modelTurn.ts:142-190 | under any interleaving a parked turn has been handed every notice and its call has not settled; an ended one has been handed every notice that came before the call settled |
| HandOffs.OpeningLogHoldsAll | lib/agent/modelTurn.ts:151-157 | the log of an opening holds every notice, in order |
| HandOffs.FirstSettlementCounts | lib/agent/modelTurn.ts:159-189 | an opening ends as its call first settled: with a stream or with an error |
| HandOffs.AskingOpens | lib/agent/modelTurn.ts:174-189 | a turn that keeps asking is handed every notice, one at a time, and then ends if the call has settled or waits |
| HandOffs.ExerciseOpening | lib/agent/modelTurn.ts:142-190 | the opening follows its log under any interleaving |
| HandOffs.Semaphore.Enter | lib/files/fdLimit.ts:25-30 | a call starts at once while a permit is free and otherwise waits at the end |
| HandOffs.Semaphore.Start | lib/files/fdLimit.ts:25-32 | of the waiters whose promise was resolved, the one resolved first starts |
| HandOffs.Semaphore.Finish | lib/files/fdLimit.ts:31-37 | a body that ends hands its permit to the first waiter, or back, and the call settles as its body did, by returning or by throwing |
| HandOffs.CallsStaySound | lib/files/fdLimit.ts:20-39 | over any interleaving of calls, wake-ups and ends, by return or throw: at most `max` permits are held, nobody waits while one is free, and every call stands in exactly one place |
| HandOffs.EveryRunArrives | lib/files/fdLimit.ts:25-30 | every call to `run` is numbered on arrival |
| HandOffs.EachActionTakesEffect | lib/files/fdLimit.ts:25-37 | a call that finds a free permit runs at once, one that does not waits; a body that ends settles its call as it ended and frees the longest waiter |
| HandOffs.OutcomesStay | lib/files/fdLimit.ts:31-37 | a call settles once |
| HandOffs.WaitersStartInOrder | lib/files/fdLimit.ts:25-37 | the calls that had to wait start in order of arrival |
| HandOffs.NoPermitLost | lib/files/fdLimit.ts:25-37 | when nobody runs and nobody is about to, nobody waits and every call that ever arrived has settled |
| HandOffs.ExerciseSemaphore | lib/files/fdLimit.ts:20-39 | the counter and the list of waiters follow that account under any interleaving |
| ModelTurn.ReadTurn | lib/agent/modelTurn.ts:207-226 | the full text is what was yielded as tokens, and each slot holds what its own deltas add up to, whatever the chunks |
| ModelTurn.EverythingIsYielded | lib/agent/modelTurn.ts:207-216 | a turn yields the text and the reasoning of its stream, each piece once and in order |
| ModelTurn.TextJoinsTokens | lib/agent/modelTurn.ts:209-212 | the full text is the tokens yielded, joined |
| ModelTurn.RefusalIsFirst | lib/agent/modelTurn.ts:217 | the refusal of a turn is the first its stream carries |
| ModelTurn.AddDeltas | lib/agent/modelTurn.ts:219-225 | the accumulation loop, one chunk's deltas at a time |
| ModelTurn.AccumulateOne | lib/agent/modelTurn.ts:219-225 | one delta adds to its own slot and to no other |
| ModelTurn.PartialsAre | lib/agent/modelTurn.ts:219-225 | each slot holds the last id its deltas carry, their names joined and their arguments joined, told from the deltas alone |
| ModelTurn.AssembleToolCalls | lib/agent/modelTurn.ts:120-133 | the calls of the named slots, in slot order |
| ModelTurn.CallsAreUsable | lib/agent/modelTurn.ts:120-133 | every assembled call has a name and an id its result can be paired by |
| ModelTurn.CallsAreOfSlots | lib/agent/modelTurn.ts:120-133 | one call for each named slot, in slot order, with its name, its id or a fresh one, and its arguments as they parse or else empty ones |
| ModelTurn.InterleavingDoesNotMatter | lib/agent/modelTurn.ts:219-225 | streams that give every slot the same deltas leave the same calls |
| ModelTurn.CuttingDoesNotMatter | lib/agent/modelTurn.ts:219-225 | cutting a delta in two anywhere, with other slots' deltas in between, changes nothing |
| ToolDispatch.Dispatch.Complete | lib/agent/toolDispatch.ts:76-119 | a tool settling fills its own place; the last one settles the link queue |
| ToolDispatch.SettlingReflects | lib/agent/toolDispatch.ts:71-119 | once the last tool settles, every link emitted before is within the mark the consumer must reach before it ends |
| ToolDispatch.DispatchTools | lib/agent/toolDispatch.ts:71-122 | however results, links and requests interleave: results come in call order once all tools have settled, links come out in order, and every link emitted before the last tool settled comes out before the end |
| IgnoreRules.FindSuffix | lib/files/ignore.ts:92 | a suffix rule that matches, if any does |
| IgnoreRules.FindDirectory | lib/files/ignore.ts:118-120 | a rule is found exactly when some directory segment is ignored |
| IgnoreRules.SegmentsAre | lib/files/ignore.ts:116 | the segments of a path hold no slash and joined by slashes are the path |
| IgnoreRules.IncludedIff | lib/files/ignore.ts:86-121 | a file travels exactly if no directory on its path bears an ignored name and its own name ends with no ignored suffix |
| IgnoreRules.RuleIsFirst | lib/files/ignore.ts:116-120 | the rule named is the first ignored directory on the path, or else the first suffix that fits |
| IgnoreRules.PartitionByIgnore | lib/files/ignore.ts:110-131 | the loop computes the included paths and one non-empty bucket per rule, all in order |
| IgnoreRules.PartitionIsExact | lib/files/ignore.ts:110-131 | every path lands in the included list or in exactly one bucket |
| FileTree.ReadListingEntries | lib/files/entries.ts:64-86 | the bounded read is the visible entries, cut at the ceiling exactly when there are more |
| FileTree.BelowIgnored | lib/files/ignore.ts:115-121 | nothing below an ignored directory is included |
| FileTree.WalkIsFilter | lib/files/tree.ts:139-195 | the walker and the flat filter agree directory by directory, in order |
| FileTree.FullWalkIsIncludedPart | lib/files/tree.ts:106-195 | the files of a full walk are exactly the included part of the partition of every file path |
| FileTree.CountsIgnoreDepth | lib/files/tree.ts:139-218 | without a ceiling every listed directory carries the count of everything under it, whatever the depth |
| FileTree.CountIsIncludedFiles | lib/files/tree.ts:139-218 | the count a directory carries is the number of files in it that travel |
| FileTree.LimitedWalkIsCut | lib/files/tree.ts:139-195 | a walk to a depth shows exactly the full walk cut off there, counts and all |
| FileTree.DepthDoesNotChangeCounts | lib/files/tree.ts:139-218 | two walks to different depths report the same counts |
| FileTree.CeilingCounts | lib/files/tree.ts:139-195 | a ceiling never adds files, and where no listing leaves one out the count is right at every depth |
| FileTree.CeilingKeepsCountsIff | lib/files/tree.ts:139-218 | with an entry ceiling, the count a directory carries is the same for every depth, and right, if and only if no listing in or below it leaves a file out |
| FileTree.CeilingChangesCounts | lib/files/tree.ts:160-181 | a concrete directory of two files, listed one entry a directory, carries two where the listing stops above it and one where it is listed |
| FileTree.TruncatedIffFlagged | lib/files/tree.ts:120-128 | the aggregate says exactly that the root or some listed directory was cut, and each flag stands where the cut was |
| FileTree.VisibleFromFront | lib/files/entries.ts:64-86 | the walker and the bounded reader see the same entries |
| FileTreeCache.WalkIsDeep | lib/files/tree.ts:139-195 | the server's walk answers exactly a read of that many levels |
| FileTreeCache.BuildOnReached | lib/client/fileTreeResource.ts:49-53 | the built tree depends only on the levels it reaches |
| FileTreeCache.PruneKeepsTree | lib/client/fileTreeResource.ts:85-104 | pruning removes exactly the levels the root does not lead to, and leaves the built tree as it was |
| FileTreeCache.AbsorbUnreached | lib/client/fileTreeResource.ts:72-83 | a read of a directory the root no longer leads to leaves no trace on the tree |
| FileTreeCache.RegisteredIsExact | lib/client/fileTreeResource.ts:74-82 | registering a deep read gives every directory above the cut its complete listing, and none at the cut |
| FileTreeCache.RegisteredHolds | lib/client/fileTreeResource.ts:72-83 | after a read a directory it lists above the cut, empty or not, holds the read's own listing, and any other what it held before |
| FileTreeCache.AbsorbIsFaithful | lib/client/fileTreeResource.ts:72-83 | a landed read keeps the cache faithful to the server and forgets nothing |
| FileTreeCache.ReachIsClosed | lib/client/fileTreeResource.ts:85-95 | everything below a reached, registered directory is reached |
| FileTreeCache.PruneIsFaithful | lib/client/fileTreeResource.ts:85-104 | pruning keeps the cache faithful |
| FileTreeCache.BuildIsView | lib/client/fileTreeResource.ts:49-53 | the built tree is determined by the server and the set of registered paths: complete on every registered directory, nothing below the others |
| FileTreeCache.ScreenIsComplete | lib/client/fileTreeResource.ts:49-53 | a registered directory shows one node for each item the server lists, with its name, path and kind |
| FileTreeCache.RefreshLosesNothing | lib/client/fileTreeResource.ts:146-151 | against an unchanged server a refresh leaves every registered directory registered and on screen |
| FileTreeCache.FileTreeResource.constructor | lib/client/fileTreeResource.ts:30-37 | an empty cache shows an empty tree |
| FileTreeCache.FileTreeResource.Publish | lib/client/fileTreeResource.ts:55-58 | the snapshot is the built tree |
| FileTreeCache.FileTreeResource.Register | lib/client/fileTreeResource.ts:74-81 | the recursion over the listing, in place, as specified |
| FileTreeCache.FileTreeResource.Absorb | lib/client/fileTreeResource.ts:72-83 | the root of the read and every directory above the cut, in place |
| FileTreeCache.FileTreeResource.Visit | lib/client/fileTreeResource.ts:88-94 | every directory named in the built tree |
| FileTreeCache.FileTreeResource.Prune | lib/client/fileTreeResource.ts:85-104 | levels, errors, roots and requests are cut down to what is reachable, and dropped requests are aborted |
| FileTreeCache.FileTreeResource.Begin | lib/client/fileTreeResource.ts:106-112 | a read aborts the one it replaces and is the path's own request from then on |
| FileTreeCache.FileTreeResource.Land | lib/client/fileTreeResource.ts:116-121 | what came back is absorbed and the cache pruned; a read whose request does not survive that left no trace on the tree |
| FileTreeCache.FileTreeResource.Settle | lib/client/fileTreeResource.ts:113-129 | an aborted read changes nothing; another lands and is pruned; the tree on screen is never stale |
| FileTreeCache.FileTreeResource.LoadChildren | lib/client/fileTreeResource.ts:132-144 | expanding reads exactly when the folder is still shown, idle, and unregistered or failed |
| FileTreeCache.FileTreeResource.Refresh | lib/client/fileTreeResource.ts:146-151 | everything fetched, failed or in flight is read again by a new read, and no older one still counts |
| FileTreeCache.FileTreeResource.Cancel | lib/client/fileTreeResource.ts:153-156 | every read in flight is aborted |
| FileTreeCache.Take | lib/client/fileTreeResource.ts:106-156 | one event takes the cache where the event says, and keeps it faithful to the server |
| FileTreeCache.Run | lib/client/fileTreeResource.ts:22-157 | against an unchanged server, under any interleaving of reads, failures and aborts: the cache goes where each event takes it, and the tree on screen is the one the server and the registered paths determine |
| DriveStore.Server.DeleteDrive | lib/drives/store.ts:158-175 | content, links, registry, in that order, with a failure at either point |
| DriveStore.Server.ConnectDrive | lib/drives/store.ts:181-214 | one link per pair: an existing pair keeps its id and takes the new handles |
| DriveStore.Server.DisconnectDrive | lib/drives/store.ts:216-228 | a link already gone is a state established |
| DriveSync.CoherentCanvasDrawsLinks | components/graph/driveSync.ts:42 | the drive links of a coherent canvas meet the sync's assumptions |
| DriveSync.DriveEdgesAre | components/graph/driveSync.ts:42 | the drive edges of a canvas are all of them, and only they |
| DriveSync.Client.DeleteNth | components/graph/driveSync.ts:25-31 | one deletion: on success the mirror forgets the drive; halfway, the table has lost its links and the mirror has not |
| DriveSync.Client.DeleteDrives | components/graph/driveSync.ts:25-31 | the loop stops exactly at the first deletion that does not find its drive or whose call fails; the mirror is left behind the table exactly when that call fails halfway and the mirror lists a link of its drive |
| DriveSync.Client.DropLinks | components/graph/driveSync.ts:42-47 | what is saved but not drawn as saved goes, on both sides, one call each; it completes exactly when those calls work |
| DriveSync.Client.CreateLink | components/graph/driveSync.ts:51-58 | answered exactly when both ends exist and the call works; a created link stands in the table and the mirror alike |
| DriveSync.CreateLinks | components/graph/driveSync.ts:49-59 | each link drawn but not saved is created once and renamed to the server's id; it completes exactly when both ends of each exist and the calls work |
| DriveSync.CreatedAllConverges | components/graph/driveSync.ts:49-60 | at the end canvas and mirror agree on every pair and handle |
| DriveSync.CreatedIsSettled | components/graph/driveSync.ts:33-59 | a link drawn as it was saved is left alone, and any other is made anew |
| DriveSync.NoCallsIff | components/graph/driveSync.ts:33-50 | there is nothing to call about exactly if every link drawn is saved as drawn and every link saved is drawn |
| DriveSync.Reconcile | components/graph/driveSync.ts:33-60 | the second and third loops complete exactly when every link to make can be made and every call works, and then canvas, mirror and table agree |
| DriveSync.SyncDrives | components/graph/driveSync.ts:19-61 | completes exactly when each queued drive is there and queued once, both ends of each link drawn anew are there, and every call works; then canvas, mirror and table agree on pairs and handles, links drawn as they were saved are left alone and the others are made anew; at every end mirror and table agree, except exactly when a deletion failed halfway and the mirror lists a link of its drive |
| DriveSync.ResaveIsQuietIff | components/graph/driveSync.ts:33-40 | saving again has nothing to do if and only if no drawn link carries a `null` handle |
| DriveSync.HalfwayLeavesMirrorBehind | lib/drives/store.ts:158-175 | after a deletion that fails halfway mirror and table agree exactly when the mirror listed no link of the drive |
| DriveSync.HalfwayHappens | components/graph/driveSync.ts:19-31 | a sync of one drive with one link whose deletion fails halfway leaves the mirror behind an empty table; deleting the drive again repairs it |
| FileSystem.RelocationIsRenaming | lib/files/move.ts:99-140 | a relocation is a renaming: every path is found again under its new path, nothing else appears |
| FileSystem.RelocatedIsTree | lib/files/move.ts:99-140 | and leaves a tree |
| FileSystem.MovingBackUndoes | lib/files/move.ts:99-140 | moving back undoes a move |
| FileSystem.RelocatingAFile | lib/files/move.ts:101-119 | for a file, link then unlink is the relocation |
| FileSystem.Disk.Link | lib/files/move.ts:102-110 | a second name for a file, never over an existing one |
| FileSystem.Disk.RenameDirectory | lib/files/move.ts:131-139 | replaces only an empty directory and never moves into itself |
| Move.MoveWithoutOverwrite | lib/files/move.ts:100-140 | with any call allowed to fail, the end is determined by the first call that fails or the name being taken; success relocates the whole subtree; failure changes nothing, except exactly when the second call and the rollback both fail; an existing destination is never touched |
| Move.MoveFile | lib/files/move.ts:101-119 | a file, by a second link and an unlink, with the rollback |
| Move.MoveFolder | lib/files/move.ts:121-139 | a folder, by reserving its name and a rename, with the rollback; an existing or populated name is a conflict |
| Move.ReliableVerdict | lib/files/move.ts:100-140 | on a disk that does not fail an item moves exactly when its name is free, strands nothing, and a conflict is the only other end |
| Move.ResolveMoveTarget | lib/files/move.ts:62-97 | a target is resolved exactly when the item may be asked to go there and none of the three calls fails of its own accord, and otherwise the first reason against it is given |
| Move.TargetKeepsName | lib/files/move.ts:87-88 | an item keeps its own name in the directory it goes to |
| Move.ReliableWhyNot | lib/files/move.ts:62-97 | on a disk that does not fail, a taken name is the conflict code and every other refusal its own |
| Move.GoesIsMovable | lib/files/move.ts:142-189 | an item that goes could be moved; on a disk that does not fail the two are the same and nothing is stranded |
| Move.MoveOne | lib/files/move.ts:142-189 | with any call allowed to fail: an item goes exactly when the calls and its name allow, with the error of the first reason against; one that does not go changes nothing, except exactly when its attempt is made, its second call fails and so does the rollback |
| Move.BatchIsRenaming | lib/files/move.ts:252-262 | a batch is a renaming: every entry at the end of its trail, no two trails meeting |
| Move.StepIsRenaming | lib/files/move.ts:99-140 | one successful move renames: every path found where it was taken, no two in one place, nothing else there |
| Move.AllGoIsMovable | lib/files/move.ts:248-261 | on a disk that does not fail, a batch goes through exactly when each source can be moved in its turn |
| Move.MoveEach | lib/files/move.ts:248-261 | the batch goes through exactly when each item goes in its turn; results are the prefix before the first that does not, the tree is what those moves make of it, and the failed item changes nothing unless it is stranded |
| Move.ReliableBatchIff | lib/files/move.ts:248-261 | on a disk that does not fail, a batch goes through exactly when its sources can all be moved in turn, and one that stops leaves no residue |
| Move.StoppedBatchKeeps | lib/files/move.ts:252-262 | however a batch stops, no entry is lost |
| Move.NothingIsClobbered | lib/files/move.ts:99-140 | no entry outside what moved changes, at the destination or anywhere else |
| Move.MoveFileContent | lib/files/move.ts:226-295 | the whole request: refused whole for an unsayable path, answered with both halves otherwise and with the reason it stopped, one snapshot exactly when something moved |
| Move.MoveStrands | lib/files/move.ts:100-140 | a concrete file, and a concrete empty folder, left under both names |

## Left out

- RunBroker.Broker.Start: usage records, logging and the run's options are not modelled, and `alreadyRunning` and a throw for capacity are two results of one method; the recorder and container seams are taken not to throw.
- RunBroker.Broker.RunFinally: saving the conversation at the end of a run is not modelled; a failed save is only logged.
- RunBroker.Broker.FanOut: subscriber callbacks do not re-enter `subscribe`. A callback that throws is logged and skipped by the broker; here a stream's handler never throws, so the case of `controller.enqueue` throwing on a body already cancelled, before the abort signal closes the stream, is not modelled.
- RunBroker.Execute: who was attached and to what is tied to the steps; what each client was sent is not repeated there, it follows by `AttachTimeDoesNotMatter` for those that stayed and were not late. Sessions are entries of one sequence, a run's index standing for the identity of its session object, so aliasing between session objects is not modelled; all runs share one gate.
- AgentLoop.AgentRun.Run: warming the container and the baseline commit before the loop are left out, and a throw while the tools run is not told apart from one at their start; the model, the tools and the signal are a `World` that fixes what each turn does.
- Compaction.MessageArray.StripToolOutputs: messages are values in a sequence, so an object shared between two arrays is not modelled.
- History.SaveReloadKeepsHistory: the library's mapping of messages to stored records and back is taken as the identity.
- NextRun.ComputeNextRun: dates are abstract occurrences, nondecreasing in the index with validity downward closed; time zones, parsing of `startAt` and rounding of floating-point division are not modelled.
- CallGraph.GraphStore.SaveGraph: freshly minted uuids are taken not to collide; file locking and reading the graph file at start are left out.
- DriveSync.Client.DropLinks: the order of the calls that drop links is left open; the source follows the order of its map.
- DriveSync.SyncDrives: a call either takes effect and answers, or fails without effect, except a drive deletion, which may fail halfway; an answer lost after its effect is not modelled. Drive names, creation and `updateDrive` are left out.
- SseParser.ParseSseStream: JSON text is taken to be free of line feeds and decoding of bytes to text to be independent of chunk borders.
- ModelTurn.AssembleToolCalls: argument parsing is an arbitrary partial function and a missing id is filled by an arbitrary non-empty one; `extractContentFromChunk` is taken as already split into tokens and reasoning.
- ToolDispatch.DispatchTools: truncation of long results, classification of tool status and the meta of agent calls are left out; a batch holds at least one call, as the runner only dispatches then.
- FileTree.FullWalkIsIncludedPart: symbolic links and races with a changing directory are left out; names are non-empty and hold no slash.
- FileTreeCache.FileTreeResource.Refresh: the order in which the paths are read again, and so the numbers of the new reads, is left open.
- FileTreeCache.FileTreeResource.Settle: an answer that is not a tree is left out; listeners and the loading and error flags derived from the fields are not modelled.
- Move.ResolveMoveTarget: a path below a symbolic link is not resolved through it, and containment in the root is taken for granted; error texts and labels are left out, as are outside writers between two calls.
- ExecutionCapacity.Capacity.TryAcquire: parsing the limit from the environment is left out.
- `messagesToTranscript`, `getCallees`, `isCaller`, `onScheduleClock`, `isValidTimezone`: read-only views that would only add easy members.
- The retry loop of the model gateway: its pacer and retry budget are not part of this model.
- React components, provider adapters, Docker, git, SQLite, HTTP start-up, the credential proxy, logging and backup scripts: user interface and I/O plumbing.
