# Pike: replicated documents, agent turns and tool calls, verified

A Dafny model of the parts of Pike in which many small steps have to add up: the replicated-document
layer (`src/chord`), the agent's turn and tool machinery (`src/agent`) and the deterministic code-mode
driver (`src/codemode`). `dafny verify dfyconfig.toml` checks all of it.

| file | what it models |
|---|---|
| `Values.dfy` | JSON documents, paths, and reading, writing and erasing at a path |
| `Utf.dfy`, `StringDelta.dfy` | the UTF-8 / UTF-16 codec, the overlap search and string deltas |
| `Delta.dfy` | operations, batches and the two ways to apply them |
| `Collapse.dfy`, `Tracker.dfy`, `TrackerRuns.dfy` | drafts, collapsing a draft's log, the optimistic commit protocol |
| `Output.dfy`, `OutputBounds.dfy`, `OutputBuffer.dfy`, `Sanitized.dfy` | bounding text, the streaming buffer that must agree with it, and what sanitising removes |
| `Replicated.dfy` | the re-entrant publisher, its subscribers and the source cursor |
| `Executor.dfy`, `Sequential.dfy` | the tool-call executor with its three permit channels, and calls run one after the other |
| `TurnEvents.dfy`, `LiveState.dfy`, `TurnPlan.dfy`, `TurnMachine.dfy` | the event grammar of a run, the live state events leave, what turns say and when they follow, and the turn loop itself |
| `Deterministic.dfy`, `CallRecords.dfy` | the driver that applies numbered answers in order, and what its records say |
| `Schema.dfy`, `Validator.dfy`, `Located.dfy`, `Coercion.dfy` | what a compiled schema means, the capped validator, where it reports, coercion |
| `Loadout.dfy`, `LoadoutMeaning.dfy` | tool declarations replayed from a transcript and diffed against the executable tools, and what a transcript amounts to |

## Main results

* **Prepared batches.** For every draft history, the batch `Change::prepare` produces replays on the
  base to the candidate if and only if the draft is structural, exceeds the operation cap, or its
  array-growing writes were last made in index order. Otherwise the replay is refused; it never ends in
  a wrong document. The condition can be read off the log, and `Collapse.OutOfOrderExample` is a draft
  that fails it: on `[null]`, writing elements 1, 2 and 1 again collapses to the writes of 2 and 1.
  Below the cap no batch replaces the root, so applying a replayable one in place leaves the candidate.
* **Commit history.** Over any script of calls the revision counts the adoptions, the i-th adopted
  change was based on revision i, and a replica follows the tracker if and only if each adopted change
  replaced the root or came from a draft that meets the condition above.
* **Streaming output.** Each snapshot equals bounding the whole stream, for all limits for which
  `max_bytes + 1` and `max_lines + 1` do not wrap in a tail buffer, or for which the wrap cannot show;
  for all other limits `OutputBuffer.UnfaithfulDiffers` constructs a stream whose snapshot differs.
* **Overlap search.** A non-zero result is the longest overlap in the window. Zero despite an overlap
  happens exactly when both passes run out of candidates before reaching it.
* **Arrival order.** Two code-mode runs that were given the same answer wherever both were given one
  have applied the same answers if and only if neither waits for a number the other was given; then
  guest state, clock, calls, records and idle reports are equal. Answers a finished run ignored do not
  matter.
* **Executor, publisher, driver and turn loop** are transition systems or methods driven by arbitrary
  outside decisions; their results hold in every reachable state of every run. Consecutive frames of a
  subscriber differ by one or by at least the pending limit. A parallel batch without failures says what
  its scripts say, call by call; a batch fails exactly if an event was refused or a permit not taken.
  The driver's records tell exactly which calls were answered and how. A run whose commitments succeed
  follows the plan made from its scripts alone, event by event, and ends as the plan says; after any
  events a call is pending exactly if it was announced or started and has not ended since.
* **Validator.** The list it leaves is the first eight of what was there and the complete list of
  failures, which is empty exactly when the value satisfies the schema; failures are located exactly at
  the parts to blame. **Coercion** changes no valid value of a schema without unions and is idempotent
  without allOf; `Coercion.UnionChangesValid` and `Coercion.AllOfNotIdempotent` show both conditions are
  needed.
* **Tool declarations** converge, and a second call adds nothing if and only if every executable schema
  can be serialised (unless its pending messages change the declared tools themselves).

## Model

| member | source | states |
|---|---|---|
| `Values.LookUp` | src/chord/Delta.cpp:328-346 | the loop finds what the path denotes, or nothing |
| `Values.SetPathView` | src/chord/Delta.cpp:354-393 | after a write every path at or below the written one shows the new value's content and every other path shows what it showed before |
| `Values.SetPathOkIff` | src/chord/Delta.cpp:354-393 | a write succeeds exactly when the parent exists and the last segment is an object key, an existing element or the next element |
| `Values.SetPathTwice` | src/chord/Delta.cpp:354-393 | a second write to the same path makes the first one unobservable |
| `Values.EraseKeyView` | src/chord/Delta.cpp:395-421 | erasing a key removes its subtree and nothing else |
| `Values.ViewsDetermine` | src/chord/Delta.cpp:328-346 | two documents that show the same at every path are equal |
| `Utf.DecodeFront` | src/chord/Delta.cpp:133-162 | the byte loop decodes one character or rejects it |
| `Utf.Decode` | src/chord/Delta.cpp:130-173 | the decoding loop computes the recursive decoder |
| `Utf.Encode` | src/chord/Delta.cpp:175-205 | the encoding loop computes the recursive encoder |
| `Utf.EncodeDecode` | src/chord/Delta.cpp:130-205 | encoding what was decoded gives the same bytes, for all decodable bytes |
| `Utf.DecodeEncode` | src/chord/Delta.cpp:130-205 | decoding what was encoded gives the same code units, for all encodable units |
| `Utf.DecodesIffWellFormed` | src/chord/Delta.cpp:130-173 | bytes decode exactly when they are well-formed UTF-8 (the byte table of section 4 of RFC 3629) |
| `Utf.EncodesIffWellFormed` | src/chord/Delta.cpp:175-205 | units encode exactly when surrogates come in pairs (section 2 of RFC 2781) |
| `Utf.EncodeConcat` | src/chord/Delta.cpp:175-205 | encoding distributes over concatenation of encodable parts |
| `StringDelta.SearchPass` | src/chord/Delta.cpp:213-220 | one pass of the candidate loop, with its candidate limit |
| `StringDelta.Search` | src/chord/Delta.cpp:207-224 | the two-pass loop computes the overlap |
| `StringDelta.PassResult` | src/chord/Delta.cpp:213-220 | a pass returns the longest overlap if its candidates reach it, else zero |
| `StringDelta.OverlapIsLongest` | src/chord/Delta.cpp:207-224 | the result is the longest overlap in the window exactly when one of the two passes reaches it, else zero |
| `StringDelta.OverlapSound` | src/chord/Delta.cpp:207-224 | a non-zero result is a real suffix-prefix match and no longer one fits the scan window |
| `StringDelta.TruncateFrontMeaning` | src/chord/Delta.cpp:226-237 | truncation drops exactly that many units, is refused exactly when it splits a pair, and never fails on re-encoding |
| `StringDelta.EmitStringChange` | src/chord/Delta.cpp:245-277 | the method with its decoding, search and encoding loops emits the specified edits |
| `StringDelta.StringChangeExact` | src/chord/Delta.cpp:245-277 | for all byte strings the emitted edits turn the old text into the new one, and no emitted truncation splits a surrogate pair |
| `StringDelta.GrowthIsAppended` | src/chord/Delta.cpp:245-255 | a text that grew is told as one append of the rest |
| `StringDelta.OverlapIsKept` | src/chord/Delta.cpp:256-277 | a found overlap off a pair boundary is told as a truncation that keeps exactly the overlap, and an append of the rest if there is one |
| `StringDelta.OthersAreReplaced` | src/chord/Delta.cpp:245-277 | in all other cases the text is replaced |
| `Delta.CheckPermutation` | src/chord/Delta.cpp:310-319 | the marking loop accepts exactly the bijections |
| `Delta.BatchFaultIff` | src/chord/Delta.cpp:537-561 | a batch is valid exactly when each of its operations is |
| `Delta.FoldConcat` | src/chord/Delta.cpp:654-691 | replaying a concatenation is replaying one part after the other |
| `Delta.SpliceItemsAt` | src/chord/Delta.cpp:461-480 | position by position: what stands before the clamped index stays, the items follow, then what stood after the removed ones |
| `Delta.MoveItemsAt` | src/chord/Delta.cpp:482-496 | each element of the result is the element the permutation names |
| `Delta.EraseItemAt` | src/chord/Delta.cpp:422-439 | erasing an element keeps those before it and moves the later ones one down |
| `Delta.ApplyImmutable` | src/chord/Delta.cpp:654-691 | the loop validates everything first and then folds the operations |
| `Delta.ApplyBatchesSnoc` | src/chord/Delta.cpp:693-701 | applying one more batch continues from the last result |
| `Delta.Applier.Step` | src/chord/Delta.cpp:505-520 | one step advances the root, and the caller's value with it until a root replacement |
| `Delta.StepwiseAgrees` | src/chord/Delta.cpp:703-709 | validating each operation when reached accepts the same batches with the same results as validating up front |
| `Delta.WrittenThroughMeaning` | src/chord/Delta.cpp:509-520 | the part of a batch written to the caller's value is the longest prefix that applies and replaces no root |
| `Delta.ApplyMutable` | src/chord/Delta.cpp:703-709 | in-place application succeeds exactly when the immutable one does, with the same result, and leaves the caller's value after that prefix |
| `Delta.EditOpsAmountTo` | src/chord/Delta.cpp:441-459 | string edits at a path amount to one write of the edited text |
| `Collapse.FindDelete` | src/chord/Tracker.cpp:106-110 | whether the log deletes exactly this path |
| `Collapse.EmitWriteOps` | src/chord/Tracker.cpp:100-121 | what one surviving write emits |
| `Collapse.CollectWrites` | src/chord/Tracker.cpp:127-130 | the positions of all writes, in order |
| `Collapse.IsBeaten` | src/chord/Tracker.cpp:134-145 | whether a later write of the path or a write of an ancestor replaces a write |
| `Collapse.MarkSurvivors` | src/chord/Tracker.cpp:131-146 | the marked writes are those that nothing replaces |
| `Collapse.MarkWrites` | src/chord/Tracker.cpp:148-151 | the marks moved to log positions |
| `Collapse.IsCovered` | src/chord/Tracker.cpp:157-165 | whether a surviving write of an ancestor covers a delete |
| `Collapse.MarkDeletes` | src/chord/Tracker.cpp:153-170 | kept deletes are uncovered and name something in the base |
| `Collapse.CollapseLog` | src/chord/Tracker.cpp:126-181 | the loops over the boolean arrays compute the declarative collapsed batch |
| `Collapse.EmitWriteAmountsTo` | src/chord/Tracker.cpp:100-121 | whatever form a write is emitted in, it amounts to setting the final value |
| `Collapse.EmitWriteMeaning` | src/chord/Tracker.cpp:100-121 | a surviving write emits nothing if its value is gone or unchanged, string edits between two texts, else one set of the final value, which a path deleted meanwhile always gets |
| `Collapse.CollapseLocal` | src/chord/Tracker.cpp:126-181 | every operation of the collapsed batch is at the path of a recorded one and none replaces the root |
| `Collapse.CollapseReplays` | src/chord/Tracker.cpp:126-181 | with growth writes in order, the collapsed batch replays to the candidate |
| `Collapse.CollapseRefused` | src/chord/Delta.cpp:377-379 | with growth writes out of order, the replay is refused |
| `Collapse.CollapseExactIff` | src/chord/Tracker.cpp:126-181 | for every history without splices and moves the collapsed batch is valid, replays to the candidate if and only if growth writes are in order, and never to anything else |
| `Collapse.OutOfOrderExample` | src/chord/Tracker.cpp:137-140 | a draft whose collapsed batch no replica accepts |
| `Tracker.TrailReplays` | src/chord/Tracker.cpp:215-325 | what a draft recorded, replayed on its base, gives its candidate |
| `Tracker.PreparedExactIff` | src/chord/Tracker.cpp:329-346 | structural, collapsed, empty and capped batches replay to the candidate if and only if the draft is replayable |
| `Tracker.PreparedDescriptive` | src/chord/Tracker.cpp:183-187 | a structural draft within the cap gives its log, a non-structural one within half the cap a batch of its recorded paths, neither with a root replacement |
| `Tracker.PreparedInPlace` | src/chord/Tracker.cpp:329-346 | such a batch of a replayable draft, applied in place to the base, is written through to the end and leaves the candidate |
| `Tracker.SplitSplice` | src/chord/Tracker.cpp:282-308 | the removal and insertion recorded for a splice amount to that splice |
| `Tracker.Change.Set` | src/chord/Tracker.cpp:215-227 | when a write is refused, ignored as equal, or recorded with its effect; the candidate stays the replay of the log |
| `Tracker.Change.Erase` | src/chord/Tracker.cpp:229-246 | the same for a delete: array elements are refused, absent keys ignored |
| `Tracker.Change.AppendString` | src/chord/Tracker.cpp:248-264 | the same for an append |
| `Tracker.Change.TruncateString` | src/chord/Tracker.cpp:266-280 | the same for a truncation |
| `Tracker.Change.Splice` | src/chord/Tracker.cpp:282-308 | the same for a splice with clamped bounds, recorded as a removal and an insertion; the array changes position by position as `Delta.SpliceItemsAt` says |
| `Tracker.Change.Move` | src/chord/Tracker.cpp:310-325 | the same for a permutation, element by element; the identity is ignored |
| `Tracker.Change.Prepare` | src/chord/Tracker.cpp:329-346 | settles the draft once; the change carries the draft's log, its batch is exact if and only if that log is replayable, and sound always; within the cap the batch tells the draft's own operations or paths, and applied in place it leaves the candidate |
| `Tracker.Change.Abort` | src/chord/Tracker.cpp:348-357 | settles an open draft, or aborts the change it prepared |
| `Tracker.Prepared.Abort` | src/chord/Tracker.cpp:434-437 | only a ready change becomes aborted |
| `Tracker.Tracker.BeginChange` | src/chord/Tracker.cpp:363-372 | a draft on the current value, revision and token |
| `Tracker.Tracker.PrepareReplace` | src/chord/Tracker.cpp:374-384 | a change that is exact, empty when the value is equal |
| `Tracker.Tracker.Adopt` | src/chord/Tracker.cpp:386-424 | adopted exactly when ready and based on the current revision; then value, revision and history advance and every open draft goes stale, else nothing but the staleness mark changes |
| `Tracker.ReplicaFollowsIff` | src/chord/Delta.cpp:693-701 | a replica of the adopted batches equals the tracker value if and only if each adopted change came from a replayable log; otherwise it is refused |
| `TrackerRuns.Step` | src/chord/Tracker.cpp:329-424 | every call keeps the world of tracker, drafts and prepared changes consistent, and only an adoption moves revision and history |
| `TrackerRuns.Run` | src/chord/Tracker.cpp:329-424 | over every script of begin, draft, prepare, replace, abort and adopt calls: revision equals adoptions, the history is chained by revision, and a replica of the adopted batches equals the tracker value if and only if each adopted change was replayable |
| `Output.CountNewlinesIn` | src/chord/Output.cpp:16-23 | the search loop counts the newlines |
| `Output.CountLinesIn` | src/chord/Output.cpp:25-28 | newlines, and one more for an unfinished last line |
| `Output.Sanitize` | src/chord/Output.cpp:34-53 | the byte scan computes the sanitised text that `Sanitized.SanitizeMeaning` characterises |
| `Sanitized.SanitizeText` | src/chord/Output.cpp:30-53 | sanitising the text of any characters gives the text of those other than U+0000-0008, U+000B-001F and U+FFF9-FFFB |
| `Sanitized.SanitizeMeaning` | src/chord/Output.cpp:30-53 | every well-formed UTF-8 text stays well-formed and loses exactly those characters |
| `OutputBuffer.HeadRange` | src/chord/Output.cpp:62-78 | the scanning loop finds the head window |
| `OutputBuffer.TailRange` | src/chord/Output.cpp:80-107 | the scanning loop finds the tail window |
| `OutputBuffer.TailMargin` | src/chord/Output.cpp:109-125 | the scanning loop finds the margin |
| `OutputBuffer.BoundOutput` | src/chord/Output.cpp:139-149 | the method with its scanning loops computes the bounded slice |
| `OutputBounds.HeadMeaning` | src/chord/Output.cpp:62-78 | the head window is the largest run of whole leading lines within both limits; if not even one line fits, that line cut at a character |
| `OutputBounds.TailMeaning` | src/chord/Output.cpp:80-107 | the tail window is the longest run of whole trailing lines within both limits; if not even one line fits, that line cut at a character |
| `OutputBounds.BoundGuarantees` | src/chord/Output.cpp:139-149 | for all texts and limits the slice is a prefix or suffix within both limits, bytes are conserved, and the line subtraction never underflows |
| `OutputBounds.KeptWellFormed` | src/chord/Output.cpp:55-107 | well-formed UTF-8 is never cut inside a character |
| `OutputBuffer.HeadOfPrefix` | src/chord/Output.cpp:165-169 | a full head buffer already decides the window |
| `OutputBuffer.TailOfSuffix` | src/chord/Output.cpp:171-182 | a suffix with more than a window of bytes or newlines decides the tail window |
| `OutputBuffer.MarginRich` | src/chord/Output.cpp:109-125 | the margin is the whole text or holds more than a window |
| `OutputBuffer.OutputBuffer.Push` | src/chord/Output.cpp:151-184 | totals count the whole stream, and what is stored still decides the window |
| `OutputBuffer.OutputBuffer.Snapshot` | src/chord/Output.cpp:186-218 | after any pushes and snapshots, text and dropped counts are those of bounding the whole stream and sanitising, for faithful limits |
| `OutputBuffer.UnfaithfulDiffers` | src/chord/Output.cpp:178-178 | for all limits that are not faithful, a stream whose snapshot differs from bounding it |
| `Replicated.PushOk` | src/chord/ReplicatedState.cpp:45-57 | a push keeps order, hydration and spacing, the pushed frame is the newest, and below the limit nothing is dropped |
| `Replicated.OwnStepOk` | src/chord/ReplicatedState.cpp:59-97 | draining, inline and deferred completion deliver frames one after the other and strand none; a closed subscriber delivers nothing |
| `Replicated.InvStep` | src/chord/ReplicatedState.cpp:129-187 | every action keeps the invariant of publisher, registrations and subscribers |
| `Replicated.InvRun` | src/chord/ReplicatedState.cpp:129-187 | so does every run, under re-entrant publish, subscribe and unsubscribe |
| `Replicated.DeliveryContract` | src/chord/ReplicatedState.cpp:45-97 | in every reachable state: one hydration first, strictly increasing sequences with their values that grow by exactly one or, after an overflow, by at least the pending limit; no overlapping listener calls, bounded pending, no stranded frame; and when nothing is being delivered the newest revision is every open subscriber's newest frame |
| `Replicated.NothingAfterClose` | src/chord/ReplicatedState.cpp:88-91 | nothing new is delivered after close, whatever follows |
| `Replicated.SourceRun` | src/chord/ReplicatedState.cpp:241-280 | from any state, only contiguous frames before the first gap or disposal change anything |
| `Replicated.SourceContract` | src/chord/ReplicatedState.cpp:248-280 | the published values are the snapshot and the contiguous frames; cursor minus snapshot cursor is the sequence, cursors stay safe, a gap is reported exactly once |
| `Executor.ReactConserves` | src/agent/ToolCallExecutor.cpp:339-454 | every exit path of a call gives back exactly the permits it holds |
| `Executor.ReactLifecycle` | src/agent/ToolCallExecutor.cpp:366-448 | every step keeps a call's start, updates and end in order |
| `Executor.InvRun` | src/agent/ToolCallExecutor.cpp:543-676 | permits are conserved and lifecycles kept over every interleaving |
| `Executor.Safety` | src/agent/ToolCallExecutor.cpp:219-330 | in every reachable state at most one call prepares, at most one runs its after hook, at most the limit execute, and each call's events are a prefix of start, updates, end |
| `Executor.FinallyReleased` | src/agent/ToolCallExecutor.cpp:339-454 | when all are done all permits are back, each started call has exactly one end after all its updates, and an unstarted call emitted nothing or a start that was refused |
| `Executor.Progress` | src/agent/ToolCallExecutor.cpp:543-642 | in every reachable state, until all are done, some task can step |
| `Executor.RunsEnd` | src/agent/ToolCallExecutor.cpp:543-642 | a run has at most ten steps per call besides updates and stop requests |
| `Executor.BatchMeaning` | src/agent/ToolCallExecutor.cpp:94-110 | a batch ends the run if and only if it has calls and each votes so; the vote of a concatenation is the conjunction; results keep their calls' order |
| `Executor.SettleMeaning` | src/agent/ToolCallExecutor.cpp:339-454 | what one call's answers say: a block or failure is an error, an amendment replaces the parts it names, the rest is the tool's |
| `Executor.ParallelUnderStop` | src/agent/ToolCallExecutor.cpp:543-676 | with answers fixed and nothing failing, every schedule gives each call the result of its answers; a stop can only turn results into abortions |
| `Executor.BatchFailsIff` | src/agent/ToolCallExecutor.cpp:585-663 | a finished batch fails exactly when a start or end event was refused, or a preparation or execution permit could not be taken |
| `Sequential.Batch.Execute` | src/agent/ToolCallExecutor.cpp:219-330 | stop check, tool with the prepared or replaced arguments, its updates and the after hook |
| `Sequential.Batch.SingleCall` | src/agent/ToolCallExecutor.cpp:339-454 | one call: aborted exactly when the stop comes before its start or its launch, otherwise settled by its answers; it emits nothing, a refused start, or start, updates and end; no result exactly when start or end was refused; the executor's machine makes the same steps |
| `Sequential.Batch.ExecuteSequential` | src/agent/ToolCallExecutor.cpp:480-507 | the loop returns the results of all calls, or under a stop a prefix of which only the last can be aborted; result and vote are those the scripts say; the whole execution is a run of the parallel executor's machine |
| `Executor.ParallelRefinesSequential` | src/agent/ToolCallExecutor.cpp:644-676 | with answers fixed (the tool's to the arguments it is run with) and no stop or failure, every schedule and limit ends with the sequential batch: result i is of call i with the content, details and error flag of its answers, and the batch ends the run exactly if there is a call and all vote so |
| `Deterministic.AppliedInOrder` | src/codemode/Deterministic.cpp:753-829 | in every reachable state the applied answers are numbered 1, 2, 3, ..., each once and as admitted; queued numbers are later and distinct; the core is the replay of the applied answers |
| `CallRecords.RecordsTell` | src/codemode/Deterministic.cpp:808-815 | in every reachable state with distinct issued ids: one record per tool call, in order, with its name; cancelled if and only if no applied answer carries its id, else succeeded or failed as that answer says |
| `CallRecords.RunReported` | src/codemode/Deterministic.cpp:804-828 | the clock is the latest of the start and the applied answers, calls are counted, and a waiting driver has reported itself idle once after the start and once after every applied answer, last with the number of calls issued |
| `CallRecords.RejectionMeaning` | src/codemode/Shared.cpp:164-201 | an answer is admitted exactly if its time is finite, its number positive and unused, its call waiting and its texts readable; a rejection names the first that fails |
| `Deterministic.Admitted` | src/codemode/Deterministic.cpp:389-409 | admission keeps queue, delivered numbers and admitted answers consistent |
| `Deterministic.InvRun` | src/codemode/Deterministic.cpp:389-451 | every interleaving of host deliveries, guest calls and driver steps keeps the invariant |
| `Deterministic.SamePrefix` | src/codemode/Deterministic.cpp:796-801 | runs whose answers agree have applied the same answers as far as both got |
| `Deterministic.SameAnswersIff` | src/codemode/Deterministic.cpp:753-829 | quiet runs whose answers agree have applied the same answers if and only if neither waits for a number the other was given, and then left the same behind |
| `Deterministic.ArrivalOrderIndependent` | src/codemode/Deterministic.cpp:753-829 | two runs given the same numbered answers, in any arrival order and up to answers a finished run ignored, end with the same guest state, clock, calls, records and idle reports |
| `Deterministic.OneHostAgrees` | src/codemode/Deterministic.cpp:389-409 | runs offered the answers of one host agree wherever both admitted one |
| `Deterministic.ForwardOnly` | src/codemode/Deterministic.cpp:804-806 | the clock never goes back; issued calls and idle reports are only added |
| `TurnEvents.EndsOnce` | src/agent/AgentRun.cpp:148-568 | in an accepted trace AgentStart is first, AgentEnd last and so at most once, and it carries every message that ended |
| `TurnEvents.TurnsNeverNest` | src/agent/AgentRun.cpp:184-489 | between two turn starts there is a turn end |
| `TurnEvents.EachEndHasOneStart` | src/agent/AgentRun.cpp:331-381 | each message end follows exactly one start of its message in the same turn, assistant for assistant |
| `TurnEvents.EndedCounted` | src/agent/AgentImpl.hpp:255-258 | the messages of a run are those its end events carry, in order |
| `LiveState.TrackAllDistinct` | src/agent/AgentRun.cpp:79-86 | the pending calls of an answer are its non-empty call ids, each once |
| `LiveState.ReducedDistinct` | src/agent/AgentRun.cpp:49-104 | no call is pending twice, whatever events come |
| `LiveState.PendingIff` | src/agent/AgentRun.cpp:49-104 | after any events a call is pending, once, exactly if it was announced or started and since then neither ended nor saw its turn or an answer without it end |
| `LiveState.ReducedOrder` | src/agent/AgentRun.cpp:52-58 | pending calls keep their order and a new one comes last; an ended answer lists them anew |
| `LiveState.StreamingIff` | src/agent/AgentRun.cpp:60-78 | a message streams exactly if it was the last one shown and neither an answer nor the run ended since |
| `LiveState.MessagesAre` | src/agent/AgentRun.cpp:76-77 | live history is what was there and the messages that ended, in order |
| `LiveState.QuietBetween` | src/agent/AgentRun.cpp:97-103 | in an accepted trace nothing is pending between turns and nothing streams after AgentEnd |
| `TurnPlan.UnstoppedCourse` | src/agent/AgentRun.cpp:491-559 | without a stop a run ends exactly if the answer failed, the policy ends it, or no results are to be read, no message waits and the policy does not insist; else the next turn gets the hook's messages and the first queue that has any, in this order |
| `TurnPlan.StoppedCourse` | src/agent/AgentRun.cpp:496-546 | once a stop is seen no queue is polled and no hook runs, and results are still read |
| `TurnPlan.TurnSays` | src/agent/AgentRun.cpp:184-489 | the messages of a turn are the declared pending ones, the answer and its results, in this order |
| `TurnPlan.StartsOnce` | src/agent/AgentRun.cpp:329-362 | a stream tells of starts and updates only, at most one start, and one exactly if it sends one |
| `TurnMachine.Agent.ReduceState` | src/agent/AgentRun.cpp:49-104 | the field updates compute the reduced state |
| `TurnMachine.Agent.Emit` | src/agent/AgentRun.cpp:18-47 | reduces first, fills AgentEnd with this run's messages, records a failed commitment, follows the grammar and leaves the live state the events make |
| `TurnMachine.Agent.Append` | src/agent/AgentImpl.hpp:194-201 | context and live history grow together, told by one start and one end |
| `TurnMachine.Agent.AppendPending` | src/agent/AgentRun.cpp:218-230 | the context grows by exactly the declared pending messages, each told by a start and an end |
| `TurnMachine.Agent.ApplyUpdate` | src/agent/AgentImpl.hpp:178-192 | a failed or refused update ends the run; an applied one sets the tools, and the context exactly if it carries one |
| `TurnMachine.Agent.BuildRequest` | src/agent/AgentRun.cpp:283-320 | fails exactly if a hook fails or leaves nothing, except that a transform failing under a stop sends the context; otherwise the last rewriting is sent |
| `TurnMachine.Agent.Stream` | src/agent/AgentRun.cpp:329-362 | for any provider events exactly the first start and all updates are emitted, and live history is untouched |
| `TurnMachine.Agent.TakeAnswer` | src/agent/AgentRun.cpp:369-381 | the answer ends after exactly one start |
| `TurnMachine.Agent.RejectCalls` | src/agent/AgentRun.cpp:411-442 | each call cut off by the token limit gets a start, an end and one result of its own, in order |
| `TurnMachine.Agent.ExecuteBatch` | src/agent/AgentRun.cpp:443-459 | a successful batch returns exactly the results it delivered, which live history received, and emits its events in order |
| `TurnMachine.Agent.CloseTurn` | src/agent/AgentRun.cpp:467-489 | finishTurn sees a synchronised context; TurnEnd carries the turn's answer and results |
| `TurnMachine.Agent.Continue` | src/agent/AgentRun.cpp:491-559 | the run ends, fails or goes on, with which request and pending messages, as the queues, hooks and the five stop queries decide; the meaning of that is `TurnPlan.UnstoppedCourse` and `TurnPlan.StoppedCourse` |
| `TurnMachine.Agent.Turn` | src/agent/AgentRun.cpp:184-559 | unless it breaks or a commitment fails, a turn's events, messages and continuation are those of the plan; it breaks only if a hook, the provider or the batch fails; it returns only after AgentEnd or a failed commitment |
| `TurnMachine.Agent.Run` | src/agent/AgentRun.cpp:110-568 | for all inputs, scripts, stop times and commitments: the events follow the grammar; it starts exactly if there is something to do; without a failed commitment it emits the events of the plan made from its scripts and succeeds, errs or stays open as the plan does; every request and finishTurn had the live history as context unless a hook replaced it, and declared the tools it may call; turns stay within the cap plus one for cancellation |
| `Validator.FindDuplicate` | src/agent/ToolSchemaValidate.cpp:433-444 | the double loop finds whether items repeat |
| `Validator.CappedTwice` | src/agent/ToolSchemaValidate.cpp:236-240 | adding under the cap twice is adding both at once |
| `Validator.FailuresIff` | src/agent/ToolSchemaValidate.cpp:336-490 | the complete list of failures is empty exactly when the value satisfies the schema |
| `Located.ReportedIff` | src/agent/ToolSchemaValidate.cpp:336-490 | failures are reported exactly at the locations where a part of the value breaks an assertion of a schema that applies to it, misses a required member, or is not allowed |
| `Located.BlameViolates` | src/agent/ToolSchemaValidate.cpp:336-490 | whatever is reported, the value as a whole violates the schema |
| `Located.ValidateLocated` | src/agent/ToolSchemaValidate.cpp:236-240 | each added failure is located there, and none is missing unless the list is full |
| `Validator.ValidateValue` | src/agent/ToolSchemaValidate.cpp:336-490 | the list becomes the first eight of what it held and the complete list of failures; started with fewer than eight it is unchanged exactly when the value satisfies the schema; it never shrinks and never exceeds eight |
| `Validator.ValueSatisfies` | src/agent/ToolSchemaValidate.cpp:250-254 | true exactly when the value satisfies the schema |
| `Validator.ValidateObject` | src/agent/ToolSchemaValidate.cpp:396-424 | adds, under the cap, the failures of member counts, required, declared and additional members |
| `Validator.ValidateList` | src/agent/ToolSchemaValidate.cpp:426-473 | adds, under the cap, the failures of item counts, uniqueness, items, tuples and additional items |
| `Validator.OneMatches` | src/agent/ToolSchemaValidate.cpp:484-488 | counting matches decides whether exactly one alternative is satisfied |
| `Coercion.PrimitiveSettles` | src/agent/ToolSchemaValidate.cpp:256-332 | a value of the type stays, a changed value has the type, containers stay |
| `Coercion.PrimitiveConstants` | src/agent/ToolSchemaValidate.cpp:256-332 | which texts, flags and numbers stand for null, true, false, 1, 0 and the empty text |
| `Coercion.PrimitiveRoundTrips` | src/agent/ToolSchemaValidate.cpp:256-332 | text, flag and number coercions invert each other on them |
| `Coercion.TypeSettles` | src/agent/ToolSchemaValidate.cpp:503-515 | coercion to a type list is conservative and settles in one go |
| `Coercion.TypeReached` | src/agent/ToolSchemaValidate.cpp:503-515 | a listed type is reached exactly if the value has one or some listed type can change it; the first such type decides |
| `Coercion.CoerceWithUnion` | src/agent/ToolSchemaValidate.cpp:225-234 | the first alternative that the coerced candidate satisfies decides |
| `Coercion.CoerceValue` | src/agent/ToolSchemaValidate.cpp:492-546 | the rewriting loops compute the recursive coercion |
| `Coercion.MembersCoerced` | src/agent/ToolSchemaValidate.cpp:517-531 | without combinations a declared member is coerced by its schema, another one by the additional schema if there is one; none is added, removed or renamed |
| `Coercion.ItemsCoerced` | src/agent/ToolSchemaValidate.cpp:533-545 | without combinations each item is coerced by the item schema or its place in the tuple; further items stay |
| `Coercion.CoercionConservative` | src/agent/ToolSchemaValidate.cpp:492-546 | without anyOf and oneOf at any depth a satisfying value is unchanged |
| `Coercion.CoercionIdempotent` | src/agent/ToolSchemaValidate.cpp:492-546 | without allOf either, coercing twice is coercing once, for all values |
| `Coercion.UnionChangesValid` | src/agent/ToolSchemaValidate.cpp:225-234 | a valid value that a union changes |
| `Coercion.AllOfNotIdempotent` | src/agent/ToolSchemaValidate.cpp:493-495 | an allOf schema under which coercing twice differs from once |
| `Loadout.ApplyToolDelta` | src/agent/ToolLoadout.cpp:19-31 | removals, then additions in place or at the end |
| `Loadout.ToolStateChanges` | src/agent/ToolLoadout.cpp:72-87 | the loops compute the difference |
| `Loadout.Replay` | src/agent/ToolLoadout.cpp:89-97 | the loop folds the deltas of the system messages |
| `Loadout.ReplayKeyed` | src/agent/ToolLoadout.cpp:89-97 | no transcript declares a name twice |
| `LoadoutMeaning.DeltaMeaning` | src/agent/ToolLoadout.cpp:19-31 | name by name: the last addition wins, then removal, then what was declared before |
| `LoadoutMeaning.LastMentionDecides` | src/agent/ToolLoadout.cpp:89-97 | what a transcript declares under a name is what the last message that mentions it says |
| `Loadout.DifferenceApplied` | src/agent/ToolLoadout.cpp:72-87 | applying the difference keeps the unchanged tools in their order and appends the others in the new order |
| `Loadout.DeclareToolChanges` | src/agent/ToolLoadout.cpp:145-200 | the method with its anchor search, replay and insertion computes the declaration |
| `Loadout.DeclareConverges` | src/agent/ToolLoadout.cpp:145-200 | for uniquely named tools, transcript plus returned messages declares exactly those names, each with the tool's description, sampling and parameters (or parameters of the same serialisation), with or without an anchor |
| `LoadoutMeaning.DeclareLeaves` | src/agent/ToolLoadout.cpp:179-200 | declaring changes only the tool fields of the last pending system message, or puts one otherwise empty message of the given time in front |
| `Loadout.SettledIff` | src/agent/ToolLoadout.cpp:38-48 | on a converged state nothing is left to declare exactly when all executable schemas can be serialised |
| `Loadout.DeclaresNothingIff` | src/agent/ToolLoadout.cpp:145-200 | for all transcripts and pending messages nothing is declared exactly when what they declare agrees with the executable tools |
| `Loadout.SecondCallAddsNothingIff` | src/agent/ToolLoadout.cpp:145-200 | for all pending messages a second call adds nothing exactly in that case; if they do not change the declared tools, exactly when all executable schemas can be serialised |
| `Loadout.PlainSecondCall` | src/agent/ToolLoadout.cpp:179-190 | with no system message pending, adding nothing means returning the messages unchanged |
| `Loadout.CurrentSystemMessage` | src/agent/ToolLoadout.cpp:99-143 | the loop computes the baseline |
| `LoadoutMeaning.PromptMeaning` | src/agent/ToolLoadout.cpp:99-132 | the baseline's content is the non-empty contents as paragraphs, its time that of the first system message, its sections all patches in order |
| `LoadoutMeaning.LastPatchDecides` | src/agent/ToolLoadout.cpp:110-128 | a section has the text of the last patch for it, or is absent if that removes it |
| `Loadout.BaselineIff` | src/agent/ToolLoadout.cpp:133-136 | there is a baseline exactly when there is a system message |
| `Loadout.BaselineReplaces` | src/agent/ToolLoadout.cpp:99-143 | the baseline of a baseline is itself with the same tools, and it can stand for the messages it came from, whatever follows |

## Left out

- Numbers: JSON numbers are exact and finite; NaN, infinities, negative zero and rounding are not modelled.
- Counters: `revision`, `sequence`, byte and line totals are unbounded; only the limits' `+ 1` in the output buffer wraps.
- Error wording: an error is a tag; which of several faults a sequential application reports may differ from up-front validation, as `Delta.StepwiseAgrees` says.
- Member order of chord objects: objects are maps there; the argument layer keeps members in order.
- Object lifetime: weak and shared pointers, destructors inside callbacks and the null handles they leave.
- Decoding operation tuples (`src/chord/Delta.cpp:563-652`) and the tuple form of `apply`: they feed the same applier.
- Imperative form: the publisher, the executor's tasks and the driver are steps of a transition system rather than methods, because their steps interleave; the in-place writes of coercion and of the failure list are values passed along.
- Executor: nested tool calls and durations.
- Driver: stop, timeout, owner interruption and VM construction; the guest is a deterministic step function.
- Turn loop: model, thinking level, system prompt, stream options and observers; queue contents, hooks, provider and tools are arbitrary scripts, and a run may stop short at the end of its script.
- Schemas: `multipleOf`, lengths, patterns and formats are arbitrary predicates; schema compilation and diagnostics are not modelled. Number parsing and printing are arbitrary functions.
- Tool loadout: the serialiser is an arbitrary partial function, and message kinds other than the four used here are not modelled.
- Progress pacing (`src/chord/Output.cpp:220-226`): how long to wait between progress commits.
- Gateway, model catalog, request headers, configuration and scripts: network, environment and file handling around the parts modelled here.
