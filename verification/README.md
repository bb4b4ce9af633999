# Verification of eino-ext

Dafny models and proofs of the parts of eino-ext where several things have to go right together: the session
turn protocol with its run bridge, the context optimizer, the in-memory activity bus, budgeted selection of
messages and trace steps, canonical tool schemas, reassembly of streamed tool calls, streamed event traces, announced
agents, memory compaction and cost tracking. `dafny verify dfyconfig.toml` checks everything.

## How the system is modelled

- **Values.** A message is a datatype whose `Nil` is the nil pointer. Strings are sequences of code points; where
  the code counts bytes, `Text.ByteLen` adds up UTF-8 widths. Go maps that are iterated are visited in an arbitrary
  order, so every result proved is independent of it. Token counters, compressors, summarizers, redactors, similarity
  scores and hash functions are parameters, constrained only where a statement says so.
- **Objects.** What the code updates in place is a class (`Turn`, `SessionManager`, `Store`, `MemBus`, `SchemaNode`,
  `Memory`, `SessionState`) or an array (the keep flags of a trace, the scratch buffer of the window search). Each
  method states its whole new state by a function of the old one; the theorems are about these functions.
- **Concurrency.** Every critical section, mutex operation, channel operation and pipe operation is one atomic step
  of a state machine. Theorems quantify over every finite sequence of enabled steps, of any number of operations.
  `Locks` are the reference-counted mutexes, `BridgeMachine` is the proxy and persist pair over one bounded pipe that
  the caller reads as well, `Guarded` puts logs under locks and `Session` combines all three. `Bus` has the steps of
  the activity bus, `MemBus` the same sections as methods, `Switching` the callers that announce agents.
- **Time, ids and failures.** The clock, fresh ids, answers of models and failures of stores are inputs of steps.

## Results that differ from what is written

- The comment at `components/memory/runner/runner.go:49-53` calls a caller's deferred `Discard` harmless. It is not
  before the bridge has committed: `Turn.TurnWritesPairIff` gives the exact condition under which a turn still writes
  its question and answer together and under the lock.
- A late `unsub` under `DropSubscriber` can close another subscriber's channel (`BusRuns.LateUnsub`);
  `BusRuns.UnsubHits` says exactly when.
- Event ids are drawn before the lock is taken, so a reconnecting client can miss an event whatever the buffer size
  (`BusResume.IdsOutOfOrder`); `BusResume.Resume` gives the exact condition, `BusResume.SerialResume` the case of
  publishers that do not overlap.
- The tail that compaction preserves can exceed `PreserveRecentTokens` under the default counter: a configuration
  keeps it within if and only if it preserves at most one turn or at most one token (`Tail.WithinBudgetIff`).
  `Tail.TailBound` is the bound that holds, `Tail.TailBoundIsAttained` that it is the best.
- The comment at `callbacks/activity/handler.go:147-148` says that concurrent callers do not announce an agent twice.
  Publishing is a step of its own after the swap, so two overlapping callers can be announced in the other order:
  the last agent announced is then not the current one, and a later switch can repeat it
  (`Switching.LateAnnouncement`). `Switching.TruthIffNoOverlap` is the exact condition.
- A caller that neither reads nor closes its stream cannot hold up the turn, but it can leave the proxy goroutine
  waiting for good (`BridgeMachine.CallerCanBlock`); `BridgeMachine.Progress` says exactly when.
- `truncateHeadTail` does not cap a step at `MaxStepChars`: the result is within it if and only if the step was
  (`Trace.TruncatedLength`).
- A connection that closes before `[DONE]` loses the tool calls it was sending without an error
  (`ToolStream.EarlyEndLosesCall`); in the Responses stream it is `[DONE]` that loses them
  (`Responses.DoneLosesOpenCall`).
- `merged_from` keeps every id traceable during one compaction pass, not across two
  (`Maintainer.SecondPassForgets`).

## Model

| member | source | states |
|---|---|---|
| Locks.SessionManager.EnterSection | components/memory/session/session.go:115-125 | the first section of `lock`: finds or creates the entry of the key and counts the caller in |
| Locks.SessionManager.DropSection | components/memory/session/session.go:130-146 | the last section of `unlock`: counts out and drops the entry with the last user |
| Locks.SessionManager.UnlockAlone | components/memory/session/session.go:130-146 | `unlock` with its branch for a key without an entry, when nobody else moves in between |
| Locks.AloneRestores | components/memory/session/session.go:115-146 | an operation alone on its key leaves the map as it found it and unlocks only what it holds |
| Locks.StepInv | components/memory/session/session.go:115-146 | every atomic step of `lock` and `unlock` keeps: an entry exists exactly while its lock has users, its count is the number of operations between counting in and out, its holder is the one operation inside |
| Locks.MutualExclusion | components/memory/session/session.go:115-146 | two operations inside the lock of one key are the same operation |
| Locks.UserKeepsEntry | components/memory/session/session.go:130-146 | the entry of a lock somebody holds or waits on is never dropped or replaced |
| Locks.EntriesAreUsed | components/memory/session/session.go:130-154 | a key has an entry if and only if an unfinished operation uses it, so the map is empty at quiescence; no mutex is unlocked that nobody holds |
| Locks.WaiterIsServed | components/memory/session/session.go:115-125 | whoever waits can acquire the mutex or somebody inside holds it |
| Locks.RunInv | components/memory/session/session.go:115-146 | the lock invariant holds after every interleaving of any number of operations |
| Turn.Turn.Condense | components/memory/session/session.go:255-280 | the summary is made from a window of persisted messages, selected by the counter of the store, and the last summary in it, only when the window with the pending message reaches the threshold by the counter of the manager; without it the log is unchanged |
| Turn.Turn.CommitAssistant | components/memory/session/session.go:285-300 | the state after the call; only the first commit writes |
| Turn.Turn.DiscardTurn | components/memory/session/session.go:305-314 | drops the pending message and unlocks if that was not done yet |
| Turn.Turn.GetWindow | components/memory/session/session.go:225-237 | the selected window of the log with the pending message after it |
| Turn.TurnWritesPairIff | components/memory/session/session.go:285-314 | for every sequence of commits and discards: the turn writes question and answer together under the lock, or nothing, if and only if its first commit has an answer exactly while the question is pending; it unlocks once |
| BridgeMachine.StepInv | components/memory/runner/runner.go:80-216 | every step of either goroutine and of the caller keeps: all items are consumed, queued or to come, in order; the flag is stored before an error is visible; what persist holds is the eligible text so far; the pipe is within its capacity while somebody may read it |
| BridgeMachine.Progress | components/memory/runner/runner.go:80-216 | neither goroutine can move without the caller if and only if the turn is decided and the proxy is done or waits for room in the pipe; a caller that is waited for can read |
| BridgeMachine.DecidesOnce | components/memory/runner/runner.go:80-216 | for a pipe of any capacity every schedule is finite and, whatever the caller does, ends in one decision, the outcome the turn is owed; when also the caller can do nothing more, both goroutines are done |
| BridgeMachine.CallerCanBlock | components/memory/runner/runner.go:74-77 | a run in which a caller that neither reads nor closes its stream leaves the proxy waiting after the turn is decided |
| Bridge.Proxy | components/memory/runner/runner.go:107-151 | the proxy loop performs, event by event, exactly the actions of its events |
| Bridge.ProxyStream | components/memory/runner/runner.go:155-172 | forwards the chunks of a stream, and on a receive error stores the flag before it sends the error |
| Bridge.Drain | components/memory/runner/runner.go:176-216 | the persist loop accumulates exactly the non-nil, non-ephemeral chunks without tool calls before the first error |
| Bridge.EventFault | components/memory/runner/runner.go:107-172 | an event sends an error if and only if it is an agent error or a selected stream that breaks, and the flag is stored before |
| Bridge.FaultIffRunFails | components/memory/runner/runner.go:107-151 | the pipe carries an error if and only if the run had one |
| Bridge.BridgeDecidesOnce | components/memory/runner/runner.go:80-216 | for every event sequence, buffer size, schedule and caller: one decision, never changed; a commit has the concatenation of the eligible chunks before the first error and is marked incomplete if and only if the run failed (unless a chunk brings the mark along); a discard happens exactly without eligible text or when concatenation fails |
| Guarded.MoveInv | components/memory/session/session.go:115-146 | lock steps keep, for any logs guarded by the locks, what their holders know about them and the settledness of logs nobody holds |
| Session.WorkStepOk | components/memory/session/session.go:164-314 | every step inside the lock keeps the log equal to what the operation found and wrote, and well formed except between its two appends |
| Session.StepInv | components/memory/session/session.go:115-314 | every step of the whole protocol keeps the invariant of locks, turns, bridges and logs |
| Session.EveryInterleaving | components/memory/session/session.go:164-193 | after any interleaving of turns, condensations and deletions every log is summaries and adjacent question-answer pairs of one turn, each answer the outcome of its run, except that a turn just committing may lack its answer; at quiescence there is no exception and no lock entry |
| Session.TurnsAreIsolated | components/memory/session/session.go:164-175 | the log a turn works on is what it loaded followed by what it wrote itself, in every reachable state |
| Session.NoDeadlock | components/memory/session/session.go:115-146 | while an operation is unfinished some started operation can move, even if nobody reads what the turns stream |
| Messages.DefaultTokenCounter | libs/counter/counter.go:11-24 | a quarter of the bytes, rounded down, and one for anything not empty |
| Messages.TokensMonotone | libs/counter/counter.go:11-24 | adding messages anywhere never lowers the count; joining two histories costs at most one token more than their counts |
| Window.LastSummaryIndex | components/memory/conversation.go:75-82 | the index of the last summary, or -1 |
| Window.SelectWindow | components/memory/conversation.go:91-171 | for every counter: a leading summary and a suffix, within budget while the next longer one is not, or the least window, with at most logarithmically many counts |
| Window.CountInScratch | components/memory/conversation.go:150-158 | the reused buffer holds exactly the candidate that is counted |
| Window.TrimAfterSummary | components/memory/conversation.go:137-170 | the branch that keeps a leading summary finds a boundary of the budget |
| Window.DefaultCounterIsMonotone | libs/counter/counter.go:11-24 | the shipped counter meets what the binary search needs |
| Window.WindowIsSelected | components/memory/conversation.go:91-171 | for a monotone counter the result of the binary search is that of the linear scan from the longest window down |
| Window.HalvingsIsLogarithm | components/memory/conversation.go:125-163 | the bound on the number of counts is the binary logarithm, rounded up |
| ContentStore.Store.Put | libs/contentcomp/store.go:32-41 | stores the content under its key and returns key and size, or refuses and changes nothing |
| ContentStore.KeptIff | libs/contentcomp/store.go:26-52 | a content stays retrievable throughout a run of puts if and only if none of them collides with it |
| Prune.Scan | components/middleware/contextopt/optimizer.go:317-363 | the backward scan with barriers, protected turns and a protected token window finds exactly the positions described one by one, and their tokens |
| Prune.PruneToolOutputs | components/middleware/contextopt/optimizer.go:317-395 | the result does not depend on the order of the map; it fails if and only if the backend refuses a chosen output; the backend was given exactly chosen contents |
| Prune.PruneIsConfined | components/middleware/contextopt/optimizer.go:317-395 | only stale, unprotected, unpruned tool outputs after the last stale summary change, and only content and the two markers of these |
| Prune.RestorePruned | components/middleware/contextopt/optimizer.go:401-417 | what a pruned or unpruned message restores to, with and without backend |
| Prune.PruneIsReversible | components/middleware/contextopt/optimizer.go:317-417 | through any later puts a pruned output restores to its exact content, if and only if no later content collides with it |
| Prune.PruneSettles | components/middleware/contextopt/optimizer.go:317-395 | nothing is left to prune after pruning, whatever is done to system messages |
| Tail.SplitTurns | components/middleware/contextopt/optimizer.go:207-219 | the two loops compute the turns |
| Tail.TurnsTile | components/middleware/contextopt/optimizer.go:207-219 | turns are exactly the stretches from one non-summary user message to the next or to the end |
| Tail.SplitTurn | components/middleware/contextopt/optimizer.go:223-236 | the least start inside the turn whose rest fits, or -1 |
| Tail.SelectTail | components/middleware/contextopt/optimizer.go:241-278 | head and tail split the history at the start of the tail |
| Tail.TailIsLongest | components/middleware/contextopt/optimizer.go:241-278 | the tail is every recent turn that fits with the newer ones and, of the first that does not, the longest proper part that fits the rest |
| Tail.TailBound | components/middleware/contextopt/optimizer.go:241-278 | under the default counter the tail exceeds its budget by at most three quarters of a token per preserved turn, and per token of the budget |
| Tail.TailBoundIsAttained | components/middleware/contextopt/optimizer.go:241-278 | for every number of turns and budget above zero there is a history whose tail counts exactly that bound |
| Tail.WithinBudgetIff | components/middleware/contextopt/optimizer.go:241-278 | a configuration keeps the tail of every history within its budget if and only if it preserves at most one turn or at most one token |
| Optimizer.ApplyContentCompressors | components/middleware/contextopt/optimizer.go:422-461 | each unpruned, unmarked, non-empty tool output goes through all compressors in order; a failure of one is the failure of the whole |
| Optimizer.CompressionSettles | components/middleware/contextopt/optimizer.go:422-461 | compression changes only such outputs and leaves none to compress, although no compressor need be idempotent |
| Optimizer.ApplyVerbositySteer | components/middleware/contextopt/diagnostics.go:92-120 | the first system message is steered unless it is already |
| Optimizer.SteerSettles | components/middleware/contextopt/diagnostics.go:92-120 | steering twice is steering once; other messages and all summary markers stay; the text is only added to |
| Optimizer.TrimBeforeLastSummary | components/middleware/contextopt/optimizer.go:466-477 | the history from its last summary on |
| Optimizer.Optimizer.Optimize | components/middleware/contextopt/optimizer.go:498-530 | the whole pipeline with its error paths; all it changes is the backend, by puts |
| Optimizer.PipedKeepsShape | components/middleware/contextopt/optimizer.go:498-517 | trim, compress and prune keep roles, tool calls and summary markers in place |
| Optimizer.OptimizeIsIdempotent | components/middleware/contextopt/optimizer.go:498-517 | without a summarizer, optimizing twice is optimizing once, for every history and configuration |
| Optimizer.CompactionConserves | components/middleware/contextopt/optimizer.go:519-530 | the summarizer gets exactly the head, the tail follows in place, the only summary is the first message, and the tail is within the bound of `Tail.TailBound` |
| Bus.IdRoundTrip | callbacks/activity/bus.go:133-149 | ids the bus hands out parse back to their number, as long as the counter fits 64 bits |
| MemBus.MemBus.Stamp | callbacks/activity/bus.go:151-157 | the unlocked part of `Publish` |
| MemBus.MemBus.Record | callbacks/activity/bus.go:159-184 | the locked part of `Publish`: the session, made if need be, records the event and offers it to its subscribers in any order |
| MemBus.MemBus.FanOut | callbacks/activity/bus.go:174-183 | every subscriber is offered the event once, a slow one skipped or removed by policy; the outcome is the same in every order |
| MemBus.MemBus.Subscribers | callbacks/activity/bus.go:174-183 | the subscribers of a session have distinct channels, and none of them is closed |
| BusInvariant.ReplayFits | callbacks/activity/bus.go:235-244 | a replay is at most `bufferSize` events, so sending it under the lock never blocks |
| MemBus.MemBus.EvictIdle | callbacks/activity/bus.go:203-220 | the scan drops a session without subscribers that no such session is older than, or nothing if there is none |
| MemBus.MemBus.Subscribe | callbacks/activity/bus.go:222-252 | replays the newer buffered events onto the channel, which is never full, and registers it; a closed bus returns a closed channel |
| MemBus.MemBus.Unsub | callbacks/activity/bus.go:255-268 | runs at most once and removes what is now under its subscriber id |
| MemBus.MemBus.Close | callbacks/activity/bus.go:318-332 | closes each registered channel once, whatever the order, and only the first time |
| MemBus.MemBus.Buffered | callbacks/activity/bus.go:306-316 | the buffer is the newest part of the session's whole history |
| BusRuns.StepInv | callbacks/activity/bus.go:151-332 | every step of publishers, subscribers, consumers, cancellations and `Close` keeps the bus invariant |
| BusRuns.CloseDiscipline | callbacks/activity/bus.go:174-183 | in every run a channel is closed at most once, exactly once when it is no longer registered, never sent to after that, and never holds more than its capacity |
| BusRuns.UnsubIsOwn | callbacks/activity/bus.go:255-268 | under `DropEvent`, `unsub` closes its own channel or nothing, and touches no other subscriber |
| BusRuns.UnsubHits | callbacks/activity/bus.go:255-295 | `unsub` closes another's channel if and only if its session was evicted and made anew and its subscriber id is in use again |
| BusRuns.LateUnsub | callbacks/activity/bus.go:255-268 | a run under `DropSubscriber` in which it does |
| BusRuns.SessionsAreBounded | callbacks/activity/bus.go:188-220 | in every run there are at most `maxSessions` sessions, or one more than ever had subscribers at the same time |
| BusResume.ReplayIsRest | callbacks/activity/bus.go:237-244 | replay is exactly the rest of the history if and only if that is still buffered and of the buffered events exactly its events have larger ids |
| BusResume.Deliveries | callbacks/activity/bus.go:174-183 | live events are a subsequence of the history; without drops, and always under `DropSubscriber`, an unbroken stretch, up to the end while subscribed |
| BusResume.Resume | callbacks/activity/bus.go:222-252 | over all runs, what a reconnecting client had and gets is exactly the history, in order and without repetition, if and only if its position was resumable |
| BusResume.SerialResume | callbacks/activity/bus.go:151-252 | with publishers that do not overlap, if and only if at most `bufferSize` events were published since |
| BusResume.SerialIsInOrder | callbacks/activity/bus.go:151-166 | with publishers that do not overlap every session's ids increase |
| BusResume.IdsOutOfOrder | callbacks/activity/bus.go:152-159 | a run in which overlapping publishers leave a position that no buffer makes resumable |
| Trace.TruncatedLength | components/agent/memory/trace.go:199-213 | a step is within its cap after truncation if and only if it was before; a truncated one keeps head and tail, is over the cap by the marker, and shorter than before only if more than the marker was removed |
| Trace.RenderedTotal | components/agent/memory/trace.go:156-170 | always the length of the joined string |
| Trace.SortOrder | components/agent/memory/trace.go:115-126 | the order by rank, then age |
| Trace.SortIsDetermined | components/agent/memory/trace.go:119-126 | only one sequence of the steps is in this order, so no matter how it is sorted |
| Trace.DropLowest | components/agent/memory/trace.go:128-137 | drops the fewest steps from the start of the order that make the rest fit, or all that may be dropped |
| Trace.DroppingShortens | components/agent/memory/trace.go:128-137 | dropping more never makes the trace longer |
| Trace.RenderTrace | components/agent/memory/trace.go:71-140 | filters, redacts, truncates and drops as stated, steps of unknown kinds with the assistant text, with the number of dropped steps |
| Trace.RenderingIsBest | components/agent/memory/trace.go:66-140 | keeps terminal answers and original order, drops an initial segment of the order and no more than needed, and is within budget unless only terminal answers are left |
| Cachestab.NormalizeInPlace | components/model/cachestab/cachestab.go:102-140 | the recursion over mutable nodes, shared between positions or not, sorts every node and leaves the schema with the normal form of its former value |
| Cachestab.SettledIsNormalized | components/model/cachestab/cachestab.go:102-140 | sorting every node, once or more often, makes the normal form of the whole |
| Cachestab.NormalizeIsCanonical | components/model/cachestab/cachestab.go:102-154 | two schemas have the same normal form if and only if they are equal up to the order of properties and required names at every visited depth |
| Cachestab.NormalizePreserves | components/model/cachestab/cachestab.go:102-154 | required names as a multiset and the map from positions to subschemas are kept at every visited depth |
| Cachestab.NormalizeIsIdempotent | components/model/cachestab/cachestab.go:102-154 | normalizing twice changes nothing |
| Cachestab.NormalizeSorts | components/model/cachestab/cachestab.go:102-154 | property keys and required names are sorted at every visited depth |
| Cachestab.NormalizeTools | components/model/cachestab/cachestab.go:73-98 | fails if and only if a tool has no schema, naming the first such tool; else sorts the normalized tools |
| Cachestab.StableSortIsStable | components/model/cachestab/cachestab.go:91-96 | tools of one name keep their order |
| Cachestab.ToolsArePreserved | components/model/cachestab/cachestab.go:73-98 | the result has the given tools, each equivalent to its original, nil ones first, then by name |
| Cachestab.ToolsAreFixed | components/model/cachestab/cachestab.go:73-98 | normalizing twice changes nothing |
| Cachestab.ToolsAreCanonical | components/model/cachestab/cachestab.go:73-98 | tools in any order, with equivalent schemas, give the same result when tools of one name do not differ |
| ToolStream.FeedAllMeans | components/model/copilot/copilot_stream.go:184-204 | whatever the interleaving, the accumulator has per index the last id and name and all arguments in order |
| ToolStream.FlushCalls | components/model/copilot/copilot_stream.go:239-259 | the flush does not depend on the order of the map |
| ToolStream.FlushGathers | components/model/copilot/copilot_stream.go:239-259 | a flush has every index of the fragments since the last one, once, ascending, with all its arguments in order |
| ToolStream.StreamEvents | components/model/copilot/copilot_stream.go:93-230 | the scanner loop with all its branches and ends, errors of the scanner included |
| ToolStream.Conserves | components/model/copilot/copilot_stream.go:184-222 | for every stream and index, the arguments sent, then those pending, are the fragments read, in order |
| ToolStream.LostExactlyWhenOpen | components/model/copilot/copilot_stream.go:117-131 | fragments of an index are lost if and only if the stream ends without `[DONE]` and there are arguments since the last finish reason; without an error, if and only if the input just ends then |
| ToolStream.EarlyEndLosesCall | components/model/copilot/copilot_stream.go:226-230 | a stream whose call is lost without an error |
| ToolStream.InterleavingIsIrrelevant | components/model/copilot/copilot_stream.go:184-204 | fragments with the same contents per index accumulate to the same calls |
| ToolStream.InterleavingsInterchange | components/model/copilot/copilot_stream.go:184-204 | so any other interleaving of the fragments of different calls is interchangeable, whatever was open before |
| ToolStream.CutsInterchange | components/model/copilot/copilot_stream.go:184-204 | cutting the arguments of a fragment in two changes nothing |
| ToolStream.CutsAreInvisible | components/model/copilot/copilot_stream.go:153-223 | interchangeable fragments anywhere in a stream make no difference to anything sent |
| ToolStream.ChunksCanBeSplit | components/model/copilot/copilot_stream.go:153-223 | nor does it if the fragments of one chunk arrive in two |
| Responses.StreamResponses | components/model/copilot/copilot_responses_stream.go:99-306 | the event loop with all its branches and, when the input ends without an error, each open call once in any order |
| Responses.ItemsAreIndependent | components/model/copilot/copilot_responses_stream.go:144-237 | whatever the interleaving, the open call and the sent calls of an item are determined by its own events |
| Responses.ItemGathers | components/model/copilot/copilot_responses_stream.go:144-237 | an item added once is sent with its name, its first call id and all its arguments in order |
| Responses.KeptIffClean | components/model/copilot/copilot_responses_stream.go:183-237 | no argument of an item is dropped if and only if none comes while it is not open and it is not added again while it has some |
| Responses.AllSentIff | components/model/copilot/copilot_responses_stream.go:128-130 | all arguments of an item are sent if and only if its events are clean and, when the stream ends in `[DONE]` or an error, none is left open; so clean events lose some without an error if and only if `[DONE]` finds them open |
| Responses.DoneLosesOpenCall | components/model/copilot/copilot_responses_stream.go:128-130 | a stream whose call `[DONE]` drops |
| Maintainer.ClusterByTextOverlap | components/agent/memory/maintainer.go:231-260 | the clusters partition the documents, members meet the threshold against their leader, and nothing in a later cluster meets it against an earlier leader |
| Maintainer.GroupBySimilarity | components/agent/memory/maintainer.go:212-229 | every document is in exactly one group, of its own category, whatever the order of the categories |
| Maintainer.Memory.MergeGroup | components/agent/memory/maintainer.go:158-202 | at every intermediate state, whatever fails, no id is lost; without faults the members are replaced by the merged document |
| Maintainer.Memory.Compact | components/agent/memory/maintainer.go:108-129 | the same for a whole pass: at any moment each id stored at its start is stored or listed in a stored document |
| Maintainer.MergeForgets | components/agent/memory/maintainer.go:181-191 | the ids traceable after a merge are exactly those of its members and document and those traceable without the members |
| Maintainer.SecondPassForgets | components/agent/memory/maintainer.go:186-190 | a second pass over a merged document loses an id |
| StreamTrace.StreamOutput | callbacks/activity/handler.go:319-381 | the stream loop with both endings |
| StreamTrace.TraceIsWellBracketed | callbacks/activity/handler.go:319-381 | a consumer that tracks blocks finishes on every trace: one reasoning start before its deltas and one matching end, each ended text the concatenation of its deltas and of the chunks |
| StreamTrace.StepIsLast | callbacks/activity/handler.go:333-381 | such a trace has exactly one event that ends or fails the step, and it is the last |
| StreamTrace.UsageIsChosen | callbacks/activity/handler.go:347-360 | the last reported usage counts, or the first in message metadata if none is reported |
| Switching.SwitchesAreAnnouncedOnce | callbacks/activity/handler.go:139-160 | in every interleaving of callers, in the order of the swaps no agent comes twice in a row and the last is the current one; each swap is announced once, or its caller is still between swap and publish |
| Switching.OrderIff | callbacks/activity/handler.go:149-159 | for every run: the announcements are in the order of the swaps if and only if no caller publishes before one of its session that swapped earlier |
| Switching.TruthIffAlone | callbacks/activity/handler.go:147-159 | while they are: in whatever order the callers between swap and publish go on, no agent is announced twice in a row and the last one announced is the current one, if and only if there is at most one such caller in the session |
| Switching.TruthIffNoOverlap | callbacks/activity/handler.go:147-159 | for every run: this is so at each moment if and only if no two callers of the session are ever between swap and publish at the same time; then it holds of the run itself |
| Switching.LateAnnouncement | callbacks/activity/handler.go:149-159 | a run of two callers that leaves the former agent as the last one announced, and with a third caller announces it twice in a row |
| Costs.SessionState.RecordStep | libs/costtrack/snapshot.go:102-144 | aggregates and totals stay those of the recorded steps |
| Costs.ModelsAddUp | libs/costtrack/snapshot.go:102-144 | for every sequence of steps the figures of the models, in any order, add up to the totals |
| Costs.RateIsAShare | libs/costtrack/snapshot.go:198-201 | with non-negative tokens every cache rate is between 0 and 1 |
| Costs.SessionState.Snapshot | libs/costtrack/snapshot.go:183-224 | each model once, by falling cost, adding up to the totals |

## Left out

- Bridge.BridgeDecidesOnce: persist closes its copy with its decision, not after the commit that follows; what the caller does with what it reads is left out, as is how eino copies a stream.
- Session.NoDeadlock: in the whole protocol the proxy is not followed further once its turn is decided, since it cannot affect it; it is in `BridgeMachine.Progress`.
- Session.EveryInterleaving: each turn is begun with a message that is not nil and finished by its bridge or abandoned before it; early discards are `Turn.TurnWritesPairIff`. Appending returns no error in the code.
- ContentStore.KeptIff: SHA-256 is an arbitrary function; that contents do not collide is a condition, not a fact.
- Prune.PruneToolOutputs: `strutil.Truncate` is followed in code points; its shortcut by byte length gives the same result.
- Optimizer.Optimizer.Optimize: the scan for volatile content only logs and is left out; compressors and summarizers are functions of their input.
- Cachestab.NormalizeInPlace: no schema contains itself (the code would not return); whether `ToJSONSchema` returns a schema that others see is decided by a library that is not part of this model; fields the code does not visit are one opaque value.
- Maintainer.Memory.Compact: new ids are fresh by assumption; similarity is an arbitrary score, so floating point and word counting are left out; deletion by age is left out.
- Costs.RateIsAShare: costs and rates are real numbers, without rounding.
- BusResume.SerialResume: the event counter does not reach 2^64, where it would start again.
- Trace.RenderTrace: the default redactor's regular expressions are an arbitrary function.
- StreamTrace.StreamOutput: token estimates and prices in the final event are left out; the other callbacks of the handler publish fixed events.
- JSON parsing and line splitting of both streams: a line is an event of the kind the code decodes it to.
- Quoting of session keys, file stores and their formats: a conversation is a log under a key.
- HTTP clients, authentication, model catalogues, file tools, health checks, recorders, prompt templates and configuration validation.
