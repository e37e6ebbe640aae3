# Paged KV-cache scheduling with speculative decoding

A Dafny model of nano-vLLM's serving core: the prefix-sharing block pool
(`block_manager.py`), the continuous-batching scheduler with chunked prefill and
preemption (`scheduler.py`), the draft-and-verify decode cycle with its all-or-nothing
block leases (`speculative_plan.py`, `speculative_result.py`), the engine step, sessions
and streams (`llm_engine.py`), the packing of a batch into physical slots
(`model_runner.py`), and the histogram sort of the top-p benchmark.

`dafny verify dfyconfig.toml` checks the whole project.

## How it is organised

Every operation exists twice. A function on values (`Types.Row`, `Types.Pool`,
`Scheduling.Sys`) says what it does, and the deep theorems are about these functions. A
method of a class with the source's own fields (`Manager.Sequence`,
`Manager.BlockManager`, `Dispatch.Scheduler`, `Serving.Engine`, `Stream.StreamSession`,
`Drafting.Drafter`) does it in place, with the source's loops, and its `ensures` ties the
new state to the function.

| layer | modules |
|---|---|
| entities and arithmetic | `Arith`, `Types`, `Pools`, `Queues`, `States` |
| allocator and leases | `Allocator`, `Leases`, `Manager` |
| scheduling and commit | `Scheduling`, `Evolution`, `Progress`, `Commit`, `Requests` |
| speculative cycle | `Speculation`, `Burst`, `Transactions`, `Undo`, `Drafting` |
| the engine over all its runs | `Truth`, `TruthSteps`, `TruthBurst`, `Protocol`, `Safety`, `Accounts`, `Writes`, `Limits` |
| decisions and outcomes in both directions | `Lookup`, `Planning`, `Policy`, `Outcomes` |
| delivery and termination | `Delivery`, `Drain`, `Serving`, `Stream` |
| refinement | `Simulation`, `OneRow`, `Retry`, `RetryCase` |
| the scheduler as a class | `Dispatch` |
| physical slots, sort | `Slots`, `CountingSort` |

`Protocol.World` is the scheduler state, the contents of both physical caches, the point
of the engine step that was reached, and the history of requests, cancellations and
events. `Protocol.Step` covers admission, cancellation in any phase, scheduling, target
and draft passes that complete or stop half-way, planning, preparing, committing, handing
off and aborting. `Run` is any finite sequence of steps from a fresh engine: the
environment chooses the tokens, the acceptance, the failures and the order of requests.

What the engine decides is also stated apart from its code: when it admits, speculates,
preempts and refuses (`Lookup`, `Requests`, `Planning`, `Policy`), and what a commit leaves
of every row (`Outcomes`).

## What a retry after a failed decode cycle keeps

The undo of a failed decode cycle exists so that a caller can retry the same requests
(`nanovllm/engine/scheduler.py:871-911`). For the decode rows the failure is invisible:
`Retry.RetryInvisible` proves that the retry schedules the same rows on the same blocks,
although index entries were evicted meanwhile. For admission it is not invisible: when the
fill phase of the failed schedule reclaimed a half-prefilled request, another request is
now at the head of the waiting queue, and the retry may start its prefill.
`RetryCase.RetryCanPrefill` is a run from a fresh engine in which it does.
`Retry.RetryPrefill` gives the exact condition: the retry stays a pure decode batch if and
only if `AdmissionClosed` holds of the failed schedule, that is, no request is waiting, the
rows or the token budget are used up, or the head of the queue has no blocks and does not
fit. A schedule whose fill phase left the waiting queue alone always meets it
(`Retry.PureIsClosed`).

## Model

| member | source | states |
|---|---|---|
| `Protocol.CacheTruth` | nanovllm/engine/block_manager.py:128-306 | In every world of every run, for an injective hash: the slots behind every request hold target entries of its own tokens for its first `cached` positions and draft entries for its first `draft` ones, and every indexed block holds the tokens its hash names. Covers sharing, eviction, preemption, bursts, aborts and passes that failed half-way |
| `Protocol.StepKeepsInv` | nanovllm/engine/llm_engine.py:1155-1215 | The invariant behind it (queue shape, ownership, lease, truth of both caches) is kept by each of the fifteen kinds of step |
| `Safety.StepKeepsShape` | nanovllm/engine/scheduler.py:202-313 | The part that needs no assumption on the hash is kept by every step |
| `Safety.BlocksConserved` | nanovllm/engine/block_manager.py:128-146 | Over every run: free list without repetition, free and used partition the pool, and each reference count is the number of table entries naming the block |
| `Safety.IndexAndTablesAgree` | nanovllm/engine/block_manager.py:148-163 | Over every run: the prefix index agrees with the blocks, every full committed block of a table carries the chained hash and the tokens of exactly its own prefix, and every later block is unhashed and owned once |
| `Safety.QueuesSafe` | nanovllm/engine/scheduler.py:165-200 | Over every run: distinct ids, at most `max_num_seqs` requests, only the head of the waiting queue may hold blocks and then it is the mid-chunk one, and a scheduled batch repeats no request and stays within the row and token budgets |
| `Safety.CoverageBounded` | nanovllm/engine/scheduler.py:918-988 | Over every run, between steps: a running request has every token but the last in the target cache, a table of exactly the blocks these need, and draft coverage between 0 and length minus one |
| `Safety.NothingRaises` | nanovllm/engine/scheduler.py:202-313 | Over every run no operation raises: scheduling with work pending, committing with well-formed tokens or results, planning, preparing, handing off, aborting and cancelling all succeed in the phases where the engine calls them |
| `Writes.WritesIsolated` | nanovllm/engine/model_runner.py:1398-1493 | Over every run: a position a pass may write lies in a block of its own table that is in use, unhashed, owned by that request alone and absent from the index; two writes of one pass never share a slot |
| `Writes.BatchPackable` | nanovllm/engine/model_runner.py:1398-1493 | Over every run, the rows of a scheduled batch meet what the packing of ragged and decode batches reads from them |
| `Accounts.RunAccounts` | nanovllm/engine/llm_engine.py:1155-1215 | Over every run with admissions, cancellations, failures and aborts, the event log accounts for each request ever admitted: still queued with exactly its reported tokens after the prompt, finished with one closing event at its first stopping point, or cancelled with no closing event; and no event names anything else |
| `Accounts.OneState` | nanovllm/engine/sequence.py:78-84 | These three outcomes exclude each other |
| `Limits.LengthBounded` | nanovllm/engine/llm_engine.py:727-735 | Over every run: a queued request, with all completion tokens it may still get and all proposals under verification, fits the model length |
| `Limits.WritesWithinModel` | nanovllm/engine/model_runner.py:1398-1493 | Over every run: no pass writes a position at or beyond the model length |
| `Limits.RunAnswers` | nanovllm/engine/llm_engine.py:1155-1215 | Over every run, whatever failed, was preempted or speculated: an admitted request that is neither cancelled nor queued has its complete answer, with the stopping rule spelled out |
| `Progress.ScheduleProgress` | nanovllm/engine/scheduler.py:202-313 | With work pending an idle engine always schedules a non-empty batch without an error; the first running request is never preempted and leads the batch; a batch without prefill holds all running requests and nothing else |
| `Policy.DecodeKeepsMost` | nanovllm/engine/scheduler.py:217-239 | The decode phase in both directions: if the pool can hold all running rows with their next tokens, nothing is given up; otherwise the half-prefilled head goes first and then exactly the rows beyond the longest prefix that fits, youngest first, to the back of the waiting queue in that order |
| `Policy.FillServesMost` | nanovllm/engine/scheduler.py:241-313 | The fill phase: waiting requests join in order with all their work until no request, slot or token is left, the next one does not fit as a whole, gets the rest of the budget as a chunk, or was half-prefilled and lacks blocks for its chunk |
| `Policy.ScheduleServesMost` | nanovllm/engine/scheduler.py:202-313 | Both together, for a whole decision from an idle state |
| `Drain.StepDrains` | nanovllm/engine/llm_engine.py:1155-1215 | One engine step, in any of its modes and for any proper choice of tokens and results: succeeds, returns to an idle state, delivers what it commits and lowers a lexicographic measure of the work left |
| `Drain.Drains` | nanovllm/engine/llm_engine.py:1301-1319 | The drain loop ends with both queues empty whatever is chosen on the way, and its events deliver every request it started with |
| `Drain.ExactlyOnce` | nanovllm/engine/llm_engine.py:1301-1319 | In such a stream the events of one request are its completion up to the first stopping point, none earlier and none later, with the last one, and only it, marked finished |
| `Drain.DrainedAnswers` | nanovllm/engine/scheduler.py:1079-1081 | After a drain every request has a complete answer: within its limit, no unignored end-of-sequence token before the last, and that token or the limit at the end |
| `Retry.RetryInvisible` | nanovllm/engine/scheduler.py:673-682 | Plan, optional prepare, abort, schedule again: the same decode rows on the same blocks; prefill starts in the retry exactly when `AdmissionClosed` fails of the aborted schedule, and never when the fill phase had left the waiting queue alone |
| `Retry.RetryPrefill` | nanovllm/engine/scheduler.py:871-911 | The same if-and-only-if for the plain undo of a decode schedule, in any state where a mid-chunk head was left for lack of rows or budget |
| `Retry.RetryReplans` | nanovllm/engine/scheduler.py:202-239 | The decode phase after the undo rebuilds the undone state exactly: same pool, same free-list order, same tables |
| `Retry.PureIsClosed` | nanovllm/engine/scheduler.py:239-313 | A pure decode schedule that did not disturb the waiting queue leaves admission closed |
| `Retry.EvictionAdmitsNoMore` | nanovllm/engine/block_manager.py:1004-1026 | Dropping index entries never makes a request admissible that was not |
| `RetryCase.RetryCanPrefill` | nanovllm/engine/scheduler.py:673-682 | A run of twelve worlds from a fresh engine whose aborted pure decode cycle is retried as a batch with prefill |
| `OneRow.BurstSimulates` | nanovllm/engine/scheduler.py:693-786 | A speculative step of a lone running request equals one ordinary step per committed token: same events, same queues, same request up to draft coverage, same pool up to forgotten index entries, all of which name the head of the ordinary free list |
| `OneRow.BurstIsRun` | nanovllm/engine/scheduler.py:693-786 | The same for the commit alone, with any waiting queue, for a lease over one running request |
| `Simulation.BurstIsFold` | nanovllm/engine/scheduler.py:693-786 | For any number of rows a burst commit is the fold of ordinary single-token commits over each row, with the events in row order |
| `Simulation.FoldIsCommit` | nanovllm/engine/scheduler.py:1009-1095 | The fold is what the ordinary commit yields on a row with all but the last token appended |
| `Simulation.RunIsOneCommit` | nanovllm/engine/block_manager.py:1028-1047 | Appending, publishing and committing token by token gives the same pool and row as growing the table once, publishing once and committing once |
| `Simulation.PublishTwice` | nanovllm/engine/block_manager.py:1036-1047 | Publishing a prefix and then its extension is publishing the extension |
| `Allocator.AdmissionSound` | nanovllm/engine/block_manager.py:188-265 | For an admitted request the incremental allocation raises nothing and attaches exactly the blocks of the scheduled tokens, and every other owner keeps its blocks and contents |
| `Lookup.AdmissionExact` | nanovllm/engine/block_manager.py:148-163 | The admission test in both directions: it finds the longest cached prefix short of the last block, with digest and tokens compared, and refuses exactly when the free list is shorter than the blocks of the request not already in use |
| `Lookup.OneLongest` | nanovllm/engine/block_manager.py:148-163 | There is only one longest cached prefix, so the answer is determined |
| `Lookup.AdmissionAttaches` | nanovllm/engine/block_manager.py:188-265 | The table of an admitted request is the blocks of its longest cached prefix followed by the head of the rest of the free list, whose order is otherwise kept |
| `Lookup.GrowthTakes` | nanovllm/engine/block_manager.py:267-306 | An extension or an append takes its blocks from the head of the free list, in order |
| `Allocator.ExtendKeeps` | nanovllm/engine/block_manager.py:267-306 | Extending a chunk never raises; it refuses exactly when the free list is shorter than the blocks missing, and otherwise keeps the old table as a prefix |
| `Allocator.MayAppendKeeps` | nanovllm/engine/block_manager.py:1028-1034 | The append allocates one block or none, from the head of the free list, to the exact length the next token needs |
| `Allocator.HashBlocksKeeps` | nanovllm/engine/block_manager.py:1036-1047 | Publication hashes the newly filled blocks with their chain and touches no other owner, free list or used set |
| `Lookup.PublishedFound` | nanovllm/engine/block_manager.py:1036-1047 | Afterwards every newly full block is found under its chained digest (the last one, where digests repeat), and no other index entry has changed |
| `Lookup.ReleaseOrder` | nanovllm/engine/block_manager.py:308-328 | A table of unshared blocks goes to the back of the free list last block first, with contents and index intact |
| `Arith.AppendTest` | nanovllm/engine/block_manager.py:1028-1034 | The source's remainder test is the test whether one more token needs one more block |
| `Leases.ReserveTakes` | nanovllm/engine/block_manager.py:496-687 | Reservation is all-or-nothing: refused exactly when the rows together need more than the free list, else it takes its head in row order |
| `Leases.LeaseIsLive` | nanovllm/engine/block_manager.py:689-775 | A fresh lease passes the live check |
| `Leases.LiveIsExact` | nanovllm/engine/block_manager.py:689-775 | The live check in both directions: it accepts a state exactly when lists, index, covered blocks and the rows' claims are those the lease left |
| `Leases.RollbackExact` | nanovllm/engine/block_manager.py:777-802 | Rollback restores pool and rows exactly, free-list order included |
| `Leases.FinalizeKeeping` | nanovllm/engine/block_manager.py:804-1002 | Finalizing with per-row counts equals having granted only those prefixes from the start, and each row keeps its prefix |
| `Leases.FinalizeNothing` | nanovllm/engine/block_manager.py:804-1002 | Keeping nothing is the rollback |
| `Leases.PrepareEvicts` | nanovllm/engine/block_manager.py:1004-1026 | Preparing the target writes turns a lease on a pool into a lease on that pool without the index entries of the leased blocks, so a later rollback does not restore them |
| `Planning.PlanExact` | nanovllm/engine/scheduler.py:555-671 | The decision in both directions: a pure decode batch speculates exactly when the workspace is certified, some proposal length respects every row and the token budget, and the free list covers what the largest such length needs; that length is used under a live lease, and otherwise nothing changes |
| `Transactions.PrepareKeeps` | nanovllm/engine/scheduler.py:684-691 | Preparing is allowed on every live lease and keeps the transaction |
| `Planning.CommitAccepts` | nanovllm/engine/speculative_result.py:32-73 | The commit of a live lease accepts exactly the results with k in-range proposals, any accepted prefix of them and one further in-range token per row |
| `Transactions.CommitFitsLease` | nanovllm/engine/scheduler.py:693-786 | Every validated burst, cut at its first stop, needs a number of blocks between what the row had and what the lease granted |
| `Transactions.CommitKeeps` | nanovllm/engine/scheduler.py:693-786 | Every validated result commits, returns to an idle state, and commits each row to its cut burst on the blocks kept |
| `Outcomes.BurstExact` | nanovllm/engine/scheduler.py:693-786 | The running queue after a burst, spelled out: each row with its burst cut at the first stop, the leased blocks its coverage fills, and draft coverage up to its last verified proposal; finished rows gone; waiting queue untouched |
| `Undo.UndoKeeps` | nanovllm/engine/scheduler.py:871-911 | The undo of a decode schedule succeeds, touches only the rows it appended to and returns their blocks to the front of the free list |
| `Undo.UndoSafe` | nanovllm/engine/block_manager.py:330-429 | The group check suffices by itself: in any pool that is consistent with its owners, an undo that passes it gives back only blocks nobody else references |
| `Undo.AbortKeeps` | nanovllm/engine/scheduler.py:673-682 | Aborting a live transaction equals the undo of the schedule it was planned on, for a prepared lease up to the evicted entries |
| `Speculation.EffectiveKIsLargest` | nanovllm/engine/speculative_plan.py:368-455 | The derived K is the largest that the route, every row's length limit and the verified-token budget allow |
| `Speculation.DiscardKIsLargest` | nanovllm/engine/scheduler.py:375-552 | The same for the K of the compute-then-discard cycle and its own budget |
| `Burst.CutSpec` | nanovllm/engine/scheduler.py:693-786 | The committed part of a burst ends at its first stopping token or is the whole burst |
| `Truth.WriteIsolation` | nanovllm/engine/model_runner.py:1398-1471 | A pass, complete or not, that writes only where it may leaves every committed entry true |
| `Truth.ScheduleTruthful` | nanovllm/engine/scheduler.py:202-313 | Scheduling, with all its sharing and preemption, leaves both caches true of every request |
| `TruthSteps.PublishTrue` | nanovllm/engine/block_manager.py:1036-1047 | Publishing computed blocks leaves every index entry true (injective hash) |
| `TruthSteps.PostprocessTruthful` | nanovllm/engine/scheduler.py:1009-1095 | Whatever target and draft coverage the ordinary commit records, both caches hold it, given a pass that ran and staged coverage that the draft cache holds |
| `TruthSteps.EvictedTruthful` | nanovllm/engine/block_manager.py:1004-1026 | Dropping index entries leaves both caches true |
| `TruthSteps.DraftPassTruthful` | nanovllm/engine/model_runner.py:2322-2411 | A draft pass leaves the target cache and all true draft coverage as they were |
| `TruthSteps.UndoTruthful` | nanovllm/engine/scheduler.py:871-911 | The undo leaves both caches true |
| `TruthBurst.LeasedWriteIsolation` | nanovllm/engine/scheduler.py:684-691 | With a prepared lease the verification pass cannot damage an indexed or shared block |
| `TruthBurst.CommitTruthful` | nanovllm/engine/scheduler.py:693-786 | The burst commit publishes only blocks the verification computed and raises draft coverage only as far as the draft cache supports |
| `Requests.AdmitExact` | nanovllm/engine/llm_engine.py:673-755 | Admission in both directions: exactly when a slot is free, the prompt is not empty, every token is in range, and the request at its longest fits the model and the pool; a refusal names a condition that is not met |
| `Requests.AdmitKeeps` | nanovllm/engine/llm_engine.py:673-755 | The same condition, and an admitted request keeps the idle state and the truth of both caches |
| `Requests.CancelKeeps` | nanovllm/engine/scheduler.py:1097-1153 | Cancellation removes exactly the named requests, keeps the order of the others, releases their blocks, keeps the index, and reports the ids waiting first |
| `Outcomes.CommitExact` | nanovllm/engine/scheduler.py:1009-1095 | The ordinary commit, spelled out: refused exactly for a wrong number of tokens or one out of range; otherwise each running row has its token, its event and the draft coverage staged for it, or is gone if the token ended it; a scheduled chunk counts as cached; nothing else changes |
| `Outcomes.ShadowCovers` | nanovllm/engine/llm_engine.py:1127-1145 | After a step that ran a shadow cycle every surviving request of the batch has draft coverage of all its tokens but the last |
| `Outcomes.StepExact` | nanovllm/engine/llm_engine.py:1155-1215 | One engine step from its schedule, exactly: the cut bursts of a batch that speculates and is verified, the ordinary tokens with full draft coverage of one that speculates and is discarded, and just the ordinary tokens otherwise |
| `Delivery.OrdinaryDelivers` | nanovllm/engine/scheduler.py:1009-1095 | Its events deliver exactly what it appended, with a closing event for each request that left |
| `Delivery.SpeculativeDelivers` | nanovllm/engine/scheduler.py:693-786 | The same for a burst commit |
| `Drafting.LeasedDraftable` | nanovllm/engine/model_runner.py:2322-2411 | Every leased world of every run meets what the draft passes need from tables, coverage and caches |
| `Drafting.Drafter.Propose` | nanovllm/engine/model_runner.py:2322-2411 | The catch-up pass and the K proposal passes, writing slot by slot through block tables, change only slots a draft pass may, and leave true draft entries for the proposals they return |
| `Drafting.Drafter.CatchUp` | nanovllm/engine/model_runner.py:1976-2055 | The catch-up pass ends with each row's draft entries true up to its target coverage, and changes only slots a draft pass may |
| `Slots.RaggedSlots` | nanovllm/engine/model_runner.py:1398-1471 | The block-by-block slot loop yields exactly the physical slot of each position of the chunk |
| `Slots.PrepareRagged` | nanovllm/engine/model_runner.py:1398-1471 | Ragged packing: tokens, positions, slots, cumulative lengths and context lengths of the batch are those of its rows in order |
| `Slots.PrepareDecode` | nanovllm/engine/model_runner.py:1473-1493 | Decode packing: the last position of each row, at its own slot |
| `Slots.DecodeSlotIs` | nanovllm/engine/model_runner.py:1473-1493 | The source's short-cut formula over the last block gives the slot of the last position |
| `Stream.StepEvents` | nanovllm/engine/llm_engine.py:241-293 | In a delivering step, ids that leave are ids with a finished event; an event marked finished names a request that left |
| `Stream.StreamSession.constructor` | nanovllm/engine/llm_engine.py:111-186 | An opened stream is valid: it holds the lease, its requests are the live ones, nothing is delivered |
| `Stream.StreamSession.Next` | nanovllm/engine/llm_engine.py:241-293 | Steps the engine only when nothing is pending; never raises its foreign-event or early-finish error; yields the pending events one by one in order; and when it ends has delivered every request, closed once and given its lease back |
| `Stream.StreamSession.Refill` | nanovllm/engine/llm_engine.py:241-293 | The step loop ends with an event pending or with nothing left to wait for, and lowers the work left |
| `Stream.StreamSession.Close` | nanovllm/engine/llm_engine.py:299-335 | Closing cancels what is left, empties the engine and releases the lease once; closing again changes nothing |
| `Stream.StreamSession.Collect` | nanovllm/engine/llm_engine.py:237-239 | Iterating a fresh session to its end yields the whole delivery of its requests |
| `Stream.OpenStream` | nanovllm/engine/llm_engine.py:1248-1265 | A stream is opened exactly when no session and no request is live and every prompt is admissible within the slots; otherwise null, with the engine untouched or empty and the lease free |
| `Stream.Generate` | nanovllm/engine/llm_engine.py:1270-1345 | Answers exactly when no session and no request is live and every prompt is admissible within the slots; then each prompt has its complete answer, the finished ids are exactly the admitted ones, and the lease is free |
| `Serving.Engine.Step` | nanovllm/engine/llm_engine.py:1155-1215 | In place, through planning, drafting, verification, commit, shadow hand-off or ordinary pass: the step of `Outcomes.StepExact`, which never fails and delivers |
| `Serving.Engine.StepOn` | nanovllm/engine/llm_engine.py:1301-1319 | One turn of the drain loop: deliveries compose, the work left drops |
| `Serving.Engine.RunToEnd` | nanovllm/engine/llm_engine.py:1301-1319 | The drain loop in place: ends empty, having delivered everything |
| `Serving.Engine.Acquire` | nanovllm/engine/llm_engine.py:609-622 | A lease is granted exactly when there is no session and no request, and is a new one |
| `Serving.Engine.Release` | nanovllm/engine/llm_engine.py:624-630 | Only the holder, or anyone when nobody holds it, releases |
| `Serving.Engine.AdmitRequest` | nanovllm/engine/llm_engine.py:673-755 | Entered exactly when a slot is free and the request is admissible; ids are used once; a refusal changes nothing |
| `Serving.Engine.AdmitBatch` | nanovllm/engine/llm_engine.py:757-785 | Succeeds exactly when there are slots for all and each request is admissible; then all are queued in order, otherwise none is left queued |
| `Serving.Engine.Cancel` | nanovllm/engine/llm_engine.py:662-671 | Exactly the unnamed requests are left |
| `Manager.BlockManager.CanAllocate` | nanovllm/engine/block_manager.py:148-163 | The hash-walk loop with its early exit computes the admission test of `Lookup.AdmissionExact` |
| `Manager.BlockManager.AllocateIncremental` | nanovllm/engine/block_manager.py:188-265 | In place: the specified allocation, or an unchanged pool and sequence on refusal |
| `Manager.BlockManager.Extend` | nanovllm/engine/block_manager.py:267-306 | In place: the specified extension, or nothing changed |
| `Manager.BlockManager.Deallocate` | nanovllm/engine/block_manager.py:308-328 | In place: blocks released from the back of the table, counters cleared |
| `Manager.BlockManager.HashBlocks` | nanovllm/engine/block_manager.py:1036-1047 | In place: the specified publication |
| `Manager.BlockManager.MayAppend` | nanovllm/engine/block_manager.py:1031-1034 | In place: the specified append |
| `Manager.BlockManager.RollbackAppends` | nanovllm/engine/block_manager.py:330-429 | Checks every row before it touches any: undoes all, or changes nothing |
| `Manager.BlockManager.Reserve` | nanovllm/engine/block_manager.py:496-687 | In place: a second lease is refused, and refusal of any kind changes nothing |
| `Manager.BlockManager.ValidateLive` | nanovllm/engine/block_manager.py:689-775 | The live check accepts exactly the live lease |
| `Manager.BlockManager.Rollback` | nanovllm/engine/block_manager.py:777-802 | In place: restores and clears the lease, or changes nothing |
| `Manager.BlockManager.Finalize` | nanovllm/engine/block_manager.py:804-1002 | In place: keeps the prefixes and clears the lease, or changes nothing |
| `Manager.BlockManager.PrepareTargetWrites` | nanovllm/engine/block_manager.py:1004-1026 | Marks the lease prepared exactly when it is live |
| `Dispatch.Scheduler.Add` | nanovllm/engine/scheduler.py:196-200 | Queues at the back, or refuses at capacity with nothing changed |
| `Dispatch.Scheduler.CheckMid` | nanovllm/engine/scheduler.py:182-191 | Accepts exactly the consistent queues |
| `Dispatch.Scheduler.MakeRoomFor` | nanovllm/engine/scheduler.py:217-233 | The preemption loop: reclaims the mid-chunk head first, then running requests from the back, and gives up the row itself last |
| `Dispatch.Scheduler.Preempt` | nanovllm/engine/scheduler.py:990-1007 | Frees the blocks, clears the mid-chunk mark if it was its own, and requeues at the back |
| `Dispatch.Scheduler.Schedule` | nanovllm/engine/scheduler.py:202-313 | Both phases in place on the scheduler's own queues compute the schedule of `Policy.ScheduleServesMost` |
| `Dispatch.Scheduler.Postprocess` | nanovllm/engine/scheduler.py:1009-1095 | In place: the commit of `Outcomes.CommitExact` with its events, or nothing changed on malformed tokens |
| `Dispatch.Scheduler.Plan` | nanovllm/engine/scheduler.py:555-671 | In place: the decision of `Planning.PlanExact` with its lease; a bypass or failure changes nothing |
| `Dispatch.Scheduler.PrepareWrites` | nanovllm/engine/scheduler.py:684-691 | Prepares exactly a live lease |
| `Dispatch.Scheduler.CommitSpeculative` | nanovllm/engine/scheduler.py:693-786 | In place: the burst commit of `Outcomes.BurstExact` with the lease cleared, or nothing changed |
| `Dispatch.Scheduler.Handoff` | nanovllm/engine/scheduler.py:838-855 | In place: the lease released and the rows restored, or nothing changed |
| `Dispatch.Scheduler.Abort` | nanovllm/engine/scheduler.py:673-682 | In place: lease rollback, then the undo of the schedule |
| `Dispatch.Scheduler.UndoScheduled` | nanovllm/engine/scheduler.py:871-911 | In place: the undo, or nothing changed when a row drifted |
| `Dispatch.Scheduler.Cancel` | nanovllm/engine/scheduler.py:1097-1153 | In any phase: nothing happens when no named request is queued; otherwise a live transaction is aborted first and the named requests go |
| `CountingSort.KeysInvert` | benchmarks/topp_performance/topp_histogram.py:36-38 | The two bit maps between BF16 patterns and sort keys are inverse on all 65536 values |
| `CountingSort.KeysAreBitwise` | benchmarks/topp_performance/topp_histogram.py:82-89 | Both maps are the complement and sign-flip of the source, bit by bit |
| `CountingSort.KeyPreservesOrder` | benchmarks/topp_performance/topp_histogram.py:36-38 | Key order is value order on finite patterns; only the two zeros share a value |
| `CountingSort.Histogram` | benchmarks/topp_performance/topp_histogram.py:20-42 | The histogram counts each key's occurrences in the row |
| `CountingSort.ExclusiveSums` | benchmarks/topp_performance/topp_histogram.py:143-144 | Inclusive sums less the counts are the start positions |
| `CountingSort.Expand` | benchmarks/topp_performance/topp_histogram.py:45-79 | The masked chunked stores write every output position exactly once, with the value of its key |
| `CountingSort.SortRow` | benchmarks/topp_performance/topp_histogram.py:92-161 | The row sort is a permutation of the row in key order |
| `CountingSort.SortScaled` | benchmarks/topp_performance/topp_histogram.py:92-161 | For finite logits and a positive temperature the result is the ascending permutation of the scaled values |

## Left out

- A prefill, mixed or non-speculative decode pass that fails is not undone by the engine; the model goes on from it with another attempt at the pass, with cancellation (phase `Stalled`), or, for a decode batch, with the undo. Scheduling on top of such a batch is not modelled.
- Exceptions inside an operation: the `except BaseException` repair blocks of `block_manager.py` and `scheduler.py`, and cleanup failures recorded on other errors.
- Threads and processes: execution locks, garbage-collection leases, finalizers, abandoned sessions, the multi-process runner.
- Clocks, metrics and progress bars.
- The legacy `allocate` of `block_manager.py`, which nothing calls, and `rollback_uncommitted_append`, a one-row call of the group undo.
- Speculation.DiscardKIsLargest: states the K of `plan_draft_discard` only; the compute-then-discard cycle itself is modelled in the form the engine runs it, plan, propose, hand off, ordinary pass and staged coverage.
- Route registries, workspace fingerprints and certificates, calibration and the adaptive policy: they enter as an arbitrary route cap and an arbitrary yes or no of the certificate.
- Weights, attention, sampling, random-number snapshots and CUDA graphs: a pass is an arbitrary choice of tokens together with its slot writes.
- Acceptance sampling: a burst is any result that `speculative_result.py` accepts; cycle ids, the bonus flag and fallback counters are omitted.
- Per-block objects: the pool's blocks are a sequence of values held in a field of `Manager.BlockManager`, so aliasing of two `Block` objects is not expressible.
- The hash: any function. It is taken to be injective only where a row says so; the stored-token comparison that the source makes on a hit is modelled.
- Slots.PrepareRagged: does not state the query-context tensor, the maximal lengths, or the warm-up rows without blocks beyond their empty slot lists.
- Stream.StreamSession.Next: does not model the check that a finished event's sequence object has the finished status, since the session holds ids.
- Serving.Engine.AdmitBatch: says that a batch was refused, not which of the reasons was reported.
- Manager.BlockManager.Reserve: does not say which of several simultaneous defects in its arguments is reported first.
- CountingSort.SortScaled: division over the reals, so FP32 rounding of the final division and the 32-bit width of the counts are not modelled; patterns that are not finite are ordered by key only.
- Engines without limits: the source also admits requests when the model length or the pool size is unknown to it; here both are always known, as they are in a configured engine.
- Tokenization, sampling-parameter normalization, configuration loading and model files. From configuration the model uses block size of at least two, at least one block, and a token budget of at least the row limit.
