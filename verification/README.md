# A model of the Telegram member migration engine

The repository moves members between Telegram groups: it scans participants into datasets, plans a
migration, and runs the plan one rate-limited RPC at a time, with every durable fact behind one SQLite
writer thread. This project models the parts that have to be right together, and proves what they promise
over whole runs.

| file | models |
|---|---|
| `DbWriter.dfy` | the single writer: FIFO queue, batched and critical transactions, STOP |
| `JobStore.dfy` | the rows of one job and the writes to them, tied to the writer |
| `CandidateBuffer.dfy` | the prefetching candidate iterator |
| `Scheduler.dfy`, `Attempt.dfy` | cadence, server waits, recovery ladder; error mapping and the retry loop |
| `Lifecycle.dfy`, `Handlers.dfy` | transitions, restart normalisation, the account gate; start and resume commands |
| `Engine.dfy` | one job as a small-step machine: the planner's three commits, rows, write queue, executor, delayed flush, crash, resume |
| `EngineShape.dfy`, `EngineFlow.dfy`, `EngineGate.dfy` | its invariants: lanes, where every result is, the server gate |
| `EngineLedger.dfy` | which items are in line, concluded or missed, and what each write does to that |
| `EngineRuns.dfy`, `EngineLife.dfy` | theorems over every life of a job |
| `EngineReplies.dfy` | what each reply does, and that every result is the one its last reply deserves |
| `EngineEndings.dfy`, `EngineDrive.dfy` | what the row says step by step, how runs end, and that they can always be brought to an end |
| `EngineWait.dfy`, `EngineRow.dfy` | a rate limit from its announcement, before it is persisted, to its end; what the row knows meanwhile |
| `EngineWriter.dfy` | the engine's rows are the writer's rows |
| `EngineWitness.dfy` | lives in which the code departs from its documents, with the exact conditions |
| `MemberStore.dfy`, `Ingest.dfy`, `IngestTables.dfy` | member identity, row merging, batch ingest, replay; the tables a batch leaves |
| `Scanner.dfy`, `ScanRuns.dfy` | the participant scan: bounded producer/consumer, checkpoints, crash and resume; how scans end and that they do |
| `Planner.dfy`, `Datasets.dfy`, `Paging.dfy` | plans, dataset combination, paged export |
| `Core.dfy` | shared enumerations and constants |

How the outside world appears: time is a real-valued clock that other steps may advance; the server is an
arbitrary sequence of replies, each after any delay; the participant list of a scan is fixed; asyncio is a sequence of steps between
awaits, in any order; a crash discards RAM and everything not committed. Exceptions are reduced to which of the
mapper's token lists they meet and to their wait attributes.

## Where the code and its documents differ

The model follows the code, and the difference is a theorem.

- The planner commits the job row, the items and its checkpoint one after the other, the row is READY from the
  first of them on, and every executor checkpoint replaces the planner's. So a run reads the planned action back
  exactly if the plan was INVITE or the checkpoint is the planner's: `EngineLife.PlannedActionIsReadBack`. Every
  REMOVE plan has a life that runs as INVITE after a resume (`EngineWitness.RemovePlanRunsAsInvite`) and one after
  a crash in planning (`EngineWitness.CrashInPlanningLosesTheAction`).
- A completed job leaves pending exactly the items its last run missed: `EngineRuns.CompletionMeansAllConcluded`.
  They are missed when a delayed flush is rejected, which nobody sees
  (`EngineWitness.RejectedFlushIsNeverSeen`), or when the run starts before they are added
  (`EngineWitness.EarlyStartMissesTheItems`). A crash in planning can leave a job that completes with a total and
  no items (`EngineWitness.CrashInPlanningCompletesEmpty`); `EngineRuns.TwoLanesKeepOrder` says exactly when the
  total is right.
- The overriding gate lookup ignores PAUSED jobs. `EngineLife.BaseLookupRespectsGate` holds for the base lookup;
  `EngineWitness.OverridingLookupLosesTheGate` shows the early RPC for every plan with the override, and
  `EngineLife.GateIsRespected` says which launches are safe with either.
- A rate limit binds from its announcement exactly as long as no crash comes before its commit:
  `EngineWait.RateLimitIsHonoured` for every other life, and `EngineWitness.CrashWhileUnderwayLosesTheLimit` for a
  crash in any reachable state in between.
- Cadence is not carried over to the next run, whose scheduler is new. It holds over a whole life if no launch can
  send too early (`EngineLife.CadenceAcrossRuns`), and any launch that can, from any reachable state, breaks it
  (`EngineWitness.EarlyLaunchBreaksCadence`). `EngineWitness.ResumeBreaksCadence`: a connection error, a pause and
  a resume send one item twice at the same instant.
- The completion label is read while a delayed flush may be in flight: `EngineWitness.CompletionLabelIsExact`
  (if and only if) and `EngineWitness.CompletionLabelCanBeStale`.
- A completed scan's offset can fall behind the list: pages whose ids were all seen before are absorbed but not
  saved. `ScanRuns.CompletedOffset` gives the exact offset, which is the length of the list if no Telegram id
  repeats; `ScanRuns.OffsetCanFallBehind` completes a list of 401 with the offset 400.
- A row merge leaves the stored counts of other datasets too large: `Ingest.OtherCountsDrift` gives the exact
  drift, `Ingest.StoredCountGoesStale` an instance built from an empty store.
- Intersecting a dataset with itself gives the empty set: `Datasets.GroupingIsAlgebra`.
- A REMOVE plan records KNOWN_ABSENT for users who are in the target: `Planner.PlannedPresence`.
- The recovery ladder can be faster than the target when the target is above 8 seconds:
  `Scheduler.LadderIsCautious`.
- Marking an item RETRY does not recount: `JobStore.CountersExactAfter` says exactly when that is harmless, and
  `EngineRuns.TwoLanesKeepOrder` that the counters stay exact in every life.

## Model

| member | source | states |
|---|---|---|
| DbWriter.WriterRefinesSequentialStore | src/tms/runtime/db_writer.py:72-177 | in every interleaving of submits, timeouts and STOP the database is the fold, in submission order, of exactly the operations whose futures succeeded, with the results those futures report; futures settle in submission order; batch and queue limits hold |
| DbWriter.FuturesAreFinal | src/tms/runtime/db_writer.py:117-142 | a settled future never changes again |
| DbWriter.StopDrainsTheQueue | src/tms/runtime/db_writer.py:104-115 | once the loop has left, exactly the submissions queued before STOP are settled |
| DbWriter.StopIsReached | src/tms/runtime/db_writer.py:104-115 | with STOP put behind q entries, q + 1 turns of the loop, whatever is submitted in between, leave it with exactly the submissions before STOP settled |
| DbWriter.BatchIsAllOrNothing | src/tms/runtime/db_writer.py:123-173 | a turn that closes a batch (timeout, STOP, a critical operation, the 250th entry) resolves all of its futures, each to its own operation's value with the store moved through the operations in order, if and only if the transaction begins and commits and the operations run through from the store before; otherwise it rejects them all and leaves the store; a critical operation of that turn runs alone after it; any other turn settles nothing |
| DbWriter.SoundHistoryRejectsNothing | src/tms/runtime/db_writer.py:123-173 | if no operation raises and every transaction begins and commits, no future is ever rejected |
| DbWriter.SubmitMeaning | src/tms/runtime/db_writer.py:72-86 | a submission is accepted exactly if the writer has not stopped and fewer than 5000 entries are queued, and is last in line then |
| DbWriter.CriticalIsIsolated | src/tms/runtime/db_writer.py:163-168 | the batch before a critical operation settles as a timeout would have settled it, and the critical operation depends only on the database that batch left |
| DbWriter.CommitSettles | src/tms/runtime/db_writer.py:123-142 | one transaction over the next submissions settles exactly them and keeps the store sequential |
| DbWriter.SerialBatch | src/tms/runtime/db_writer.py:131-142 | a committed batch is the same store as running its operations one at a time |
| DbWriter.Writer.CommitBatch | src/tms/runtime/db_writer.py:123-142 | the in-place commit is the specified transaction, database and futures |
| DbWriter.Writer.Turn | src/tms/runtime/db_writer.py:150-173 | one turn of the thread's loop is the specified turn |
| DbWriter.Writer.Drive | src/tms/runtime/db_writer.py:144-177 | the object driven by any script reaches the specified state, so every theorem above is about it |
| JobStore.CountersExactAfter | src/tms/jobs/repository.py:119-202 | which writes keep total = number of items and processed = success + skipped + failed = concluded items: marking RETRY exactly when the item was pending, adding items exactly when not fewer than there are, all others always |
| JobStore.TalliedAfter | src/tms/jobs/repository.py:144-202 | the same for the result counters alone, which hold even while the items are missing |
| JobStore.TotalIsConserved | src/tms/jobs/repository.py:119-186 | with exact result counters, total = processed + READY + RETRY exactly when total is the number of items |
| JobStore.ResultsGrow | src/tms/jobs/repository.py:147-178 | a batch of results for distinct pending items raises the recount by exactly its length |
| JobStore.BatchMeaning | src/tms/jobs/repository.py:172-184 | a result batch leaves the last update's ordinal as the whole checkpoint, an empty one the checkpoint before |
| JobStore.RetryMeaning | src/tms/jobs/repository.py:188-202 | the marked row is RETRY with the given attempts, everything else as before |
| JobStore.StateMeaning | src/tms/jobs/repository.py:77-107 | deadline and checkpoint change exactly where the call names or clears them |
| JobStore.PutHere | src/tms/jobs/repository.py:147-161 | a row that exactly one update of a batch names takes that update |
| JobStore.PutElsewhere | src/tms/jobs/repository.py:147-161 | a row that no update of a batch names stays as it is |
| JobStore.RowsFollowSubmissionOrder | src/tms/jobs/repository.py:77-202 | over every history of the writer, whatever failed, the rows are the writes whose futures succeeded, folded in submission order |
| JobStore.Tables.AddItems | src/tms/jobs/repository.py:119-127 | existing rows stay, missing ordinals up to the count become READY with no attempts, and total is the count |
| JobStore.Tables.SaveCheckpoint | src/tms/jobs/repository.py:109-114 | replaces the whole checkpoint and nothing else |
| JobStore.Tables.UpdateItemsBatch | src/tms/jobs/repository.py:144-186 | the in-place batch is the specified commit: items, recount, checkpoint |
| JobStore.Tables.MarkForRetry | src/tms/jobs/repository.py:188-202 | only the marked item changes and nothing is recounted |
| JobStore.Tables.Transition | src/tms/jobs/repository.py:77-107 | state, deadline and checkpoint change exactly where the call says |
| CandidateBuffer.PrefetchRefinesIterator | src/tms/migration/candidate_buffer.py:36-107 | whenever background reads and result writes happen, pops yield exactly the items pending at the start, ascending, each once, then None; the queue never exceeds the chunk, which is 100 to 500 |
| CandidateBuffer.ChunkSplit | src/tms/jobs/repository.py:129-142 | a chunk and the rows after its last ordinal are exactly the pending rows |
| CandidateBuffer.PendingMeaning | src/tms/jobs/repository.py:129-142 | a candidate is listed exactly if its row is READY or RETRY, with the attempts of the row |
| CandidateBuffer.RefillsInTime | src/tms/migration/candidate_buffer.py:104-106 | a pop that leaves at most 50 rows or a quarter of a chunk has a read under way unless the rows are exhausted; a pop that leaves more starts none |
| CandidateBuffer.ReadsAChunk | src/tms/migration/candidate_buffer.py:46-55 | a read brings a whole chunk or everything there is |
| CandidateBuffer.WritesBehindKeep | src/tms/migration/candidate_buffer.py:57-107 | writes to loaded rows do not change what the buffer will yield |
| CandidateBuffer.TakeRowsKeeps | src/tms/migration/candidate_buffer.py:61-93 | taking in a finished read keeps what will be yielded; an empty read means nothing is left |
| CandidateBuffer.Prefetcher.FinishFill | src/tms/migration/candidate_buffer.py:57-93 | in place: what will be yielded is unchanged, and an empty queue afterwards means nothing is left |
| CandidateBuffer.Prefetcher.Pop | src/tms/migration/candidate_buffer.py:99-107 | in place: returns the head of what was to be yielded, None exactly when nothing was |
| Scheduler.CadenceStaysInRange | src/tms/migration/scheduler.py:7-23 | whatever is called, intervals stay within 3 to 10 seconds and deadlines never move earlier |
| Scheduler.DelayMeaning | src/tms/migration/scheduler.py:13-14 | the delay is zero exactly when cadence and server deadline have both passed, and sleeping it out suffices |
| Scheduler.RecoveryLadder | src/tms/migration/scheduler.py:10-19 | after a wait the effective stable candidates set the interval to 10, 8, target, whatever else is called |
| Scheduler.RecoveryEnds | src/tms/migration/scheduler.py:17-23 | the third ends the recovery at the target in force at the wait; it is the current one exactly if not reset meanwhile |
| Scheduler.LadderIsCautious | src/tms/migration/scheduler.py:11 | the rungs are 10, 8 and the target, each at least the target if and only if the target is at most 8 |
| Scheduler.WaitMeaning | src/tms/migration/scheduler.py:10-11 | a wait lasts its seconds from now unless a longer one is under way, and starts the rungs 10, 8, target anew |
| Scheduler.InviteScheduler.Retarget | src/tms/migration/scheduler.py:20-23 | a target outside 3 to 10 is refused without effect; the interval follows only outside a recovery |
| Scheduler.InviteScheduler.StableCandidate | src/tms/migration/scheduler.py:17-19 | the in-place step is the specified one |
| Attempt.MapError | src/tms/telegram/error_mapper.py:8-22 | a duration is present exactly for RATE_LIMIT and is at least 1; rate-limit tokens take precedence |
| Attempt.ReplyMeaning | src/tms/telegram/error_mapper.py:11-22 | mapper, classifier and branches together, as conditions on what the exception carries, each in both directions |
| Attempt.NextVerdict | src/tms/migration/executor.py:77-92 | which replies leave a candidate undecided, and that R rate limits allow at most R+3 RPCs |
| Attempt.FinalStateIsEarned | src/tms/migration/result_classifier.py:9-15 | the final state is SUCCESS without exception, SKIPPED for a user that cannot be acted on, FAILED otherwise |
| Attempt.Respond | src/tms/migration/executor.py:75-92 | each verdict's ending or next turn, whether the sleep after it was cut short by a control, and the exact time passed; the return after the back-off branch is unreachable |
| Attempt.Pace | src/tms/migration/executor.py:68-70 | an attempt starts at the latest of now, the server deadline and the last attempt plus the interval, never earlier or later |
| Attempt.Run | src/tms/migration/executor.py:63-92 | counts its sleeps: one before each RPC sent or cut off, one after each rate limit and back-off; it is interrupted if and only if the control is set at the last of them, and at none before, so a control set from the start sends nothing; otherwise it ends on the first decisive reply after at most R+3 RPCs, with attempts = persisted + RPCs, the state the last reply earned, and RPCs spaced and behind the deadline |
| Lifecycle.NormalizationIsSound | src/tms/migration/recovery.py:16-46 | after a restart no job is RUNNING, exactly the RUNNING rows and the WAITING_SERVER rows without a deadline ahead became PAUSED and recovered, every other row is untouched, action, last ordinal and deadline are kept, only allowed transitions happen, and a second pass changes nothing |
| Lifecycle.RecoverableIdsMeaning | src/tms/jobs/repository.py:231-236 | the RUNNING, WAITING_SERVER, PAUSED and RATE_LIMITED jobs, each once, ascending |
| Lifecycle.RecoveryService.NormalizeAfterRestart | src/tms/migration/recovery.py:16-46 | the loop normalises exactly the recoverable rows and reports them |
| Lifecycle.AccountWaitingUntil | src/tms/jobs/repository.py:65-75 | the latest deadline among the account's consulted jobs, None exactly when there is none, for both lookups |
| Lifecycle.GatesMeaning | src/tms/jobs/repository.py:65-75 | a row is consulted if it is the account's, has a deadline, and is WAITING_SERVER or, for the base lookup only, PAUSED |
| Lifecycle.RemainingWaitMeaning | src/tms/runtime/command_handlers.py:615-625 | zero exactly without a deadline or once it has come, otherwise exactly the time to it |
| Handlers.OneExecutorPerJob | src/tms/runtime/command_handlers.py:649-717 | after any commands each job has at most one live executor, and a live job cannot be started or resumed |
| Handlers.StartRefusalMeaning | src/tms/runtime/command_handlers.py:649-678 | who is let through to a start, and what each refusal says, in terms of the row, the account, the target and the interval |
| Handlers.ResumeRefusalMeaning | src/tms/runtime/command_handlers.py:692-717 | the same for resuming, from PAUSED or WAITING_SERVER |
| Handlers.CommandHandlers.StartMigration | src/tms/runtime/command_handlers.py:649-678 | the guards in order; a launch happens only when no executor was live, and then exactly one is |
| Handlers.CommandHandlers.ResumeMigration | src/tms/runtime/command_handlers.py:692-717 | the same for resuming |
| Handlers.CommandHandlers.RunFinished | src/tms/runtime/command_handlers.py:116-127 | the finishing callback removes the entry of the ended run and no other |
| EngineShape.NextKeepsShape | src/tms/migration/executor.py:46-59 | lane discipline of every step: at most one write in flight per lane, result batches non-empty and bounded, delayed before main |
| EngineFlow.NextKeepsFlow | src/tms/migration/executor.py:46-106 | every step keeps every result in exactly one place: durable, in flight or buffered, in ordinal order, with the buffer yielding exactly the rest of the pending items that are not missed |
| EngineLedger.CommitBatch | src/tms/jobs/repository.py:144-186 | committing the oldest results takes exactly their items out of the line, raises processed by their number, and leaves every other item as it was |
| EngineLedger.RejectBatch | src/tms/migration/executor.py:52-55 | a rejected delayed batch moves exactly its items from the line to the missed ones and leaves the counters exact |
| EngineLedger.NewLine | src/tms/jobs/repository.py:129-142 | a new run has every pending item in line again, so nothing stays missed |
| EngineLedger.AddedTooLate | src/tms/migration/planner.py:72-74 | items added after the run has found the table empty are all missed, and the counters stay exact |
| EngineFlow.AddItemsKeepsFlow | src/tms/migration/planner.py:72-74 | adding the items, before, during or after a run, keeps every result in its one place and every pending item in line or missed |
| EngineFlow.LaunchKeepsFlow | src/tms/runtime/command_handlers.py:692-717 | a new run's buffer will yield exactly the items not concluded |
| EngineRuns.ResumeIsContinuation | src/tms/migration/executor.py:63-106 | over any runs without a crash or a rejected flush the concluded items are 0, 1, 2, ...: each once, none skipped; every RPC is for the first item not concluded, so ordinals never decrease and the interrupted item comes first; a completed job counts all of them |
| EngineRuns.TwoLanesKeepOrder | src/tms/migration/executor.py:46-55 | in every reachable state, from the first commit of the planner on, at most 39 results are not durable, they are for distinct pending items in order, and the result counters are exact; unless a flush was rejected they continue the durable items without gap; total = processed + READY + RETRY if and only if the items are in the table or the plan is empty |
| EngineRuns.RowChangesFollowResults | src/tms/migration/executor.py:56-59 | PAUSED, CANCELLED, RATE_LIMITED, WAITING_SERVER and completion commit after every earlier result |
| EngineRuns.CompletionMeansAllConcluded | src/tms/migration/executor.py:105-106 | a completed job leaves pending exactly the items its last run missed; nothing is pending if and only if none was missed; the whole plan is processed if and only if, besides, its items are in the table |
| EngineRuns.CrashCostIsBounded | src/tms/migration/executor.py:46-55 | a crash costs at most 39 results and no durable one, a rejected flush at most 19: with c crashes and r rejections at most n + 39c + 19r conclusions happen; the candidate in hand is never a durable one |
| EngineRuns.AttemptsAreAccounted | src/tms/migration/executor.py:66-92 | in every reachable state the attempts of the candidate in hand are its persisted ones plus rate limits plus at most three transient failures plus the unanswered RPC |
| EngineReplies.EveryReplyIsAnswered | src/tms/migration/executor.py:75-92 | from every reachable state, by what the exception carries: success, an exception about the user and a lasting one add the hand's result SUCCESS, SKIPPED or FAILED with its attempts to the pipe and tell the scheduler; a limit, a barred account and a passing failure conclude nothing, with the exact writes owed and the wait |
| EngineReplies.ResultsAreDeserved | src/tms/migration/executor.py:64-92 | in every life each result, durable or on its way, has the state its item's last word deserves (SUCCESS, SKIPPED, FAILED, FAILED after the third passing failure, FAILED without keys) and the attempts counted then |
| EngineReplies.AttemptsAreCarriedOver | src/tms/migration/candidate_buffer.py:66-92 | in every life a popped candidate is pending and carries the attempts its row holds |
| EngineReplies.EveryResultIsFlushedInTime | src/tms/migration/executor.py:46-49 | the step that concludes an item submits and awaits the whole buffer if it is the twentieth or the last flush is overdue, and nothing otherwise |
| EngineEndings.RowFollowsRun | src/tms/migration/executor.py:56-106 | in every life, when the coroutine awaits no write: the row is RUNNING while the run goes on, without deadline once a limit was slept out for the candidate; WAITING_SERVER with exactly the deadline the scheduler sleeps out; and the state the run was told once it is to end, with all its results durable |
| EngineEndings.RunEndsAsTold | src/tms/migration/executor.py:56-59 | in every life a run not cut off by a crash leaves CANCELLED after a stop, PAUSED after a pause or a barred account, RATE_LIMITED without a duration, and its summary's label otherwise; stopped and completed jobs have no deadline |
| EngineEndings.LaunchableAsCommanded | src/tms/runtime/command_handlers.py:649-717 | a run can be launched exactly from the rows that the start or the resume command lets through |
| EngineEndings.RestartNormalizes | src/tms/migration/recovery.py:36-44 | the restart step of the engine does to the row exactly what normalisation does, and nothing else |
| EngineDrive.EveryRunCanEnd | src/tms/migration/executor.py:93-106 | from every reachable state with a live run the run's own steps, the writer's commits and time bring it to its end: in the state it was told, or completed with exactly the missed items pending |
| EngineDrive.EveryJobCanFinish | src/tms/migration/executor.py:93-106 | from every reachable state without a run whose row is READY, PAUSED or WAITING_SERVER, whatever was lost before, a launch and undisturbed steps complete the job with nothing pending, and the whole plan if its items are in the table |
| EngineGate.NextKeepsGate | src/tms/migration/executor.py:56-92 | the invariant behind the gate: whoever may send knows the persisted deadline |
| EngineLife.GateIsRespected | src/tms/runtime/command_handlers.py:615-632 | if every launch is safe no RPC precedes the last persisted deadline, over rate limits, pauses, crashes, restarts and resumes |
| EngineLife.BaseLookupRespectsGate | src/tms/jobs/repository.py:65-75 | with the base lookup no RPC ever precedes it |
| EngineLife.CadenceIsKept | src/tms/migration/executor.py:37-45 | over every life intervals lie within 3 to 10 seconds, consecutive RPCs of a run are at least the current interval apart, and no RPC precedes the launch of its run |
| EngineLife.RateIsBounded | src/tms/migration/executor.py:67-70 | over every life k RPCs of one run span at least 3(k-1) seconds |
| EngineLife.CadenceAcrossRuns | src/tms/runtime/command_handlers.py:634-646 | if no launch can send before last RPC + interval, all RPCs of the life are the interval apart, over pauses, crashes and resumes |
| EngineWitness.EarlyLaunchBreaksCadence | src/tms/runtime/command_handlers.py:634-646 | the other half of the condition: from every reachable state in which a job with a pending item can be launched too early, a continuation starting with that launch breaks the cadence |
| EngineWitness.ResumeBreaksCadence | src/tms/runtime/command_handlers.py:692-717 | every non-empty plan has a life without a crash in which a connection error, a pause and a resume send the same item twice at the same instant |
| EngineLife.TerminalStatesAbsorb | src/tms/jobs/state_machine.py:3-5 | a terminal state never changes again, and once the planner is done nothing of the job does, although no writer validates |
| EngineLife.EveryTransitionIsAllowed | src/tms/jobs/state_machine.py:4-5 | every step of every life makes only accepted transitions |
| EngineLife.PlannedActionIsReadBack | src/tms/bootstrap.py:52-53 | a run reads back the planned action if and only if the plan was INVITE or the planner's checkpoint has committed and no executor checkpoint has replaced it; otherwise it reads INVITE; recovery keeps it |
| EngineWait.RateLimitIsHonoured | src/tms/migration/executor.py:77-80 | with either lookup, over any life whose launches are safe, no RPC follows a rate limit of s seconds within s seconds, counted from the reply itself and over flushes, pauses, stops, crashes, restarts and resumes, if no crash comes before the deadline is committed |
| EngineWait.NextKeepsTold | src/tms/migration/executor.py:78 | every step keeps an announced deadline owed, in flight or persisted until it lies behind |
| EngineRow.NothingRemembersIt | src/tms/migration/executor.py:78 | while an announced deadline is not committed the row is RUNNING and holds no other deadline ahead |
| EngineWitness.CrashWhileUnderwayLosesTheLimit | src/tms/migration/executor.py:78 | the other half of the condition: from every reachable state in which an announced deadline is owed or in flight, some continuation starting with a crash sends before it |
| EngineWitness.EveryPlanCanBeUnderway | src/tms/migration/executor.py:78 | every non-empty plan reaches such a state, a minute before its deadline |
| EngineWitness.PausedResumeIsEarly | src/tms/jobs/v12_repository.py:5-8 | from any state paused inside a server wait, the override lets the next run send early |
| EngineWitness.OverridingLookupLosesTheGate | src/tms/jobs/v12_repository.py:5-8 | every non-empty plan has a life of rate limit, pause and resume that sends before the deadline |
| EngineWitness.RemovePlanRunsAsInvite | src/tms/bootstrap.py:52-53 | every non-empty REMOVE plan has a life without a crash in which a later run performs INVITE |
| EngineWitness.CrashInPlanningLosesTheAction | src/tms/migration/planner.py:72-74 | every REMOVE plan has a life in which a crash between the last two commits makes it run as INVITE before any executor checkpoint |
| EngineWitness.CrashInPlanningCompletesEmpty | src/tms/migration/planner.py:72-74 | every plan has a life in which a crash between the first two commits makes it end COMPLETED with its total, nothing processed and no items |
| EngineWitness.EarlyStartMissesTheItems | src/tms/migration/planner.py:72-74 | every plan has a life without a crash that ends COMPLETED with all its items pending |
| EngineWitness.RejectedFlushIsNeverSeen | src/tms/migration/executor.py:52-55 | a one-item plan can end COMPLETED with its item pending after a rejected delayed flush |
| EngineWriter.RowsAreTheWritersRows | src/tms/runtime/db_writer.py:144-177 | in every reachable state the rows are the committed writes folded in order, and some history of the writer settles exactly those writes and holds exactly those rows |
| EngineWriter.WritersRowsAreTheRows | src/tms/runtime/db_writer.py:144-177 | every history of the writer that accepted those writes, whatever else failed, holds those rows |
| EngineWriter.CommitTakesOldest | src/tms/runtime/db_writer.py:150-173 | committed writes followed by the queue are the writes submitted: a commit only moves the border |
| EngineWriter.SubmitIsNewest | src/tms/migration/executor.py:46-49 | a flush of either lane appends its whole buffer as the newest submission |
| EngineWriter.PutIsNewest | src/tms/migration/executor.py:31-32 | a row change is the newest submission |
| EngineWitness.CompletionLabelIsExact | src/tms/migration/executor.py:106 | the label agrees with the final failures exactly if one is already counted or none is in flight |
| EngineWitness.CompletionLabelCanBeStale | src/tms/migration/executor.py:106 | a one-item plan can end COMPLETED with its item FAILED |
| MemberStore.MergeUnitesDatasets | src/tms/members/repository.py:34-59 | after a merge the canonical row is in exactly the datasets of either row, the fallback in none, others unchanged |
| MemberStore.MergedSize | src/tms/members/repository.py:34-59 | a dataset shrinks by one exactly if it held both rows |
| MemberStore.UpsertKeeps | src/tms/members/repository.py:61-151 | every upsert keeps one row per Telegram id and per id-less lowered username, never changes or deletes an assigned id, never violates the planned items' foreign key, and leaves the member's own row |
| MemberStore.UpsertMeaning | src/tms/members/repository.py:61-151 | which row an upsert writes, whole: the id's row, else the username-only row of the name, which is upgraded in place, else the next new one; a username-only row is merged away exactly if the id has another row |
| MemberStore.OtherRowsStay | src/tms/members/repository.py:61-151 | no row but the upserted and the merged one changes |
| MemberStore.UpsertUids | src/tms/members/repository.py:61-151 | a dataset's Telegram ids change only by the upserted id, where its row belongs |
| MemberStore.UpsertSize | src/tms/members/repository.py:61-151 | an upsert never grows a dataset and shrinks it exactly when it merges two of its rows |
| MemberStore.CleanMeaning | src/tms/members/repository.py:27-32 | blanks around a username go first, then the at signs in front; None if nothing is left |
| MemberStore.LowerMeaning | src/tms/members/repository.py:61-151 | two usernames fold to the same exactly if they agree up to the case of ASCII letters |
| Ingest.IngestAccounting | src/tms/members/repository.py:168-237 | the dataset grows by accepted minus the merges that found both rows in it; its stored count is exact; every member is either listed or invalid |
| Ingest.OtherCountsDrift | src/tms/members/repository.py:223-230 | the stored count of another dataset drifts by exactly the merges that collapsed two of its rows |
| Ingest.StoredCountGoesStale | src/tms/members/repository.py:34-59 | from an empty store, four operations leave a dataset of one member with a stored count that was exact and is now 2 |
| Ingest.IngestUids | src/tms/members/repository.py:168-237 | the dataset's Telegram ids gain exactly the batch's |
| IngestTables.BatchTables | src/tms/members/repository.py:189-200 | provenance and memberships after a batch, of all datasets: what was there, moved along the merges, plus exactly one row per row of an identified member, in the batch's dataset, without source dataset, with the batch's group and label; every entry ends at a row that exists |
| IngestTables.BatchHints | src/tms/members/repository.py:201-222 | the account's hint of each user is the last one of the batch, with its hash and cleaned name; every other hint stays |
| IngestTables.BatchIds | src/tms/members/repository.py:180-188 | one id per identified member, in order; for a Telegram id the id of that user's row |
| Ingest.MissingDatasetAborts | src/tms/storage/schema.sql:71-80 | a batch into a missing dataset is refused exactly if some member has an identity |
| Ingest.ReplayChangesNothing | src/tms/members/repository.py:168-237 | re-ingesting members with Telegram ids accepts nothing and changes no row, membership, provenance, peer hint or count |
| Ingest.IdentityOverRuns | src/tms/members/repository.py:34-237 | over every sequence of batches and plans: uniqueness, references, planned rows stay, counts never too small |
| Ingest.MemberRepository.MergeFallbackRow | src/tms/members/repository.py:34-59 | copying then deleting is moving; raises exactly for a planned fallback |
| Ingest.MemberRepository.UpsertOne | src/tms/members/repository.py:61-151 | the in-place upsert is the specified one, never raises, and returns an id exactly for an identified member |
| Ingest.MemberRepository.IngestBatch | src/tms/members/repository.py:179-235 | the loop computes the specified summary and tables |
| Scanner.AbsorbMeaning | src/tms/telegram/participant_scanner.py:189-197 | a page adds exactly its unseen ids to the batch, and loses none |
| Scanner.AbsorbPage | src/tms/telegram/participant_scanner.py:189-197 | the loop over a page is the specified one |
| Scanner.NextKeeps | src/tms/telegram/participant_scanner.py:97-201 | every step keeps pages consecutive in transit and everything passed either stored or in the batch |
| Scanner.CheckpointIsDurable | src/tms/telegram/participant_scanner.py:122-161 | in every reachable world the saved offset covers only participants durably ingested, and the queue holds at most 4 |
| Scanner.CompletedScanIsComplete | src/tms/runtime/command_handlers.py:371-406 | after any crashes, recoveries and resumes a completed scan gives the same Telegram ids as ingesting the list once |
| Scanner.ScanNeverStalls | src/tms/telegram/participant_scanner.py:97-201 | a live scan can always take a step of its own, and each uses up bounded work |
| ScanRuns.ScanEndsAsAsked | src/tms/telegram/participant_scanner.py:209-210 | over every life a scan ends CANCELLED if and only if the user asked for it while it was live, COMPLETED otherwise |
| ScanRuns.CancelStopsTheProducer | src/tms/telegram/participant_scanner.py:108-109 | a cancelled scan fetches no further page |
| ScanRuns.DrivenScanCompletes | src/tms/telegram/participant_scanner.py:97-210 | a live scan nobody cancelled, in any reachable world, driven by its own steps until it is not live, is COMPLETED with the ids of the list in the dataset and the offset the list determines, the length of the list if no id repeats |
| ScanRuns.EveryScanCanComplete | src/tms/telegram/participant_scanner.py:97-210 | such a drive exists from every such world |
| ScanRuns.EveryScanCanRestart | src/tms/runtime/command_handlers.py:371-406 | from every reachable world without a live scan that is not over, normalising, starting and such a drive complete it |
| ScanRuns.CompletedOffset | src/tms/telegram/participant_scanner.py:122-161 | the exact saved offset of a completed scan: everybody behind it is a repeat, and nobody is if no id repeats |
| ScanRuns.OffsetCanFallBehind | src/tms/telegram/participant_scanner.py:198-201 | a channel of 401 members, the last one a repeat, completes with offset 400, into any dataset of any store |
| ScanRuns.CheckpointCounts | src/tms/telegram/participant_scanner.py:122-161 | a batch raises `accepted` by the dataset's growth plus the merges inside it and `invalid` by the members without identity, and that is what the next checkpoint saves |
| ScanRuns.FailureIsFinal | src/tms/telegram/participant_scanner.py:244-256 | an exception leaves FAILED with the checkpoint in RAM, after the batch already queued, and nothing changes it later |
| ScanRuns.StartMeaning | src/tms/telegram/participant_scanner.py:71-86 | a scan starts at the saved offset and counts, and its first write drops the saved count of invalid members |
| Planner.LabelsRoundTrip | src/tms/migration/planner.py:19-21 | joining and splitting labels returns the non-empty ones if and only if none contains character 31 |
| Planner.SourceFilterMeaning | src/tms/migration/planner.py:43-51 | the filter sees exactly the member's non-empty lowered provenance labels |
| Planner.FateMeaning | src/tms/migration/planner.py:31-52 | what becomes of a row by its columns and the request's flags alone: one reason per flag, and the earlier row for the same user |
| Planner.PicksMeaning | src/tms/migration/planner.py:91-115 | the items are exactly the rows passing the combined predicate, in row order |
| Planner.RowsArePartitioned | src/tms/migration/planner.py:116 | total = filtered + already + invalid + ready |
| Planner.PickedUsersAreDistinct | src/tms/migration/planner.py:97-106 | no user is planned twice |
| Planner.CreatePlan | src/tms/migration/planner.py:77-119 | the loop computes the declarative items and summary |
| Planner.CreateRemovePlan | src/tms/migration/planner.py:121-155 | the same for REMOVE; refused exactly when the target could not be read |
| Planner.PicksFromStore | src/tms/migration/planner.py:14-29 | on rows from a sound store the duplicate test never fires: exactly the wanted rows are picked |
| Planner.PlanFromStore | src/tms/migration/planner.py:92-95 | planned members are ascending rows of the dataset with a Telegram id, so the store's references stay sound |
| Planner.ReadTarget | src/tms/migration/precheck.py:19-43 | ids of every page read; COMPLETE exactly without failure, UNAVAILABLE exactly when a failed read found nobody; sound for whoever the pages came from |
| Planner.ReadIsSound | src/tms/migration/precheck.py:19-43 | ids read from pages of a member list belong to it, and a complete read has all of them |
| Planner.PlannedPresence | src/tms/migration/planner.py:107-151 | after reading pages of the target's members: KNOWN_ABSENT for INVITE exactly after a complete read, and then truly absent; REMOVE only users really there, who are all recorded as KNOWN_ABSENT |
| Planner.AddItems | src/tms/jobs/repository.py:119-127 | the stored total equals the rows, item i at ordinal i, exactly when the members are distinct |
| Datasets.GroupingIsAlgebra | src/tms/datasets/service.py:13-15 | grouping and counting equals union, intersection and difference, except for a non-empty dataset intersected with itself, which gives the empty set |
| Datasets.ParseOpMeaning | src/tms/datasets/service.py:8-9 | which texts, letter by letter in either case, name which operation |
| Datasets.CombineMeaning | src/tms/datasets/service.py:11-20 | the statements together give the members, exact count and provenance, touch no other dataset and keep the store sound |
| Datasets.DatasetService.Combine | src/tms/datasets/service.py:7-21 | an unknown operation changes nothing; otherwise the new dataset has the selected members, its size as count, and provenance from exactly the sources holding each member |
| Paging.AscendingMeaning | src/tms/members/repository.py:261-269 | the listing holds each member once, ascending |
| Paging.IterDatasetRows | src/tms/members/repository.py:272-284 | for any chunk size the chunks together are every member once in id order; each but the last has exactly 1000 rows for sizes from 1000 up (the default of 2000 too), the size asked for below, 1 below that; the loop ends |

## Left out

- The exception path of a run (FAILED) and a write of its main coroutine that fails; a delayed flush may fail in the model, and restart and planner writes succeed or the process is gone.
- The watchdog's limit of 30 seconds on one RPC: a reply comes after any delay, and a timeout is a transient failure like any other.
- Submits after STOP, restarting the writer thread, futures cancelled by their owner, a rollback that itself fails, and the limit of `stop()`'s join.
- Account-state writes, events and metrics between the modelled writes; they do not touch the job's rows.
- Several jobs on one account competing for the mutation lock: `Lifecycle.AccountWaitingUntil` covers the lookup over many jobs, the engine theorems one job alone on its account.
- The V1.2 executor subclass and gateway beyond the planned action; the base executor is modelled.
- Two clocks: the scheduler's monotonic clock and the UTC deadline are one clock, read once per step.
- The order of ticks inside a sleep: the engine lets a back-off end at any time, which only adds behaviours.
- `submit_upsert_many`, the RAM peer cache, and clearing of usernames in the caller's `Member` objects.
- Provenance labels NULL and "" are one key, as in the null-safe unique index; timestamps and error texts are not kept.
- Python's Unicode lower-casing and stripping; names fold ASCII letters and trim blanks as SQLite does.
- Two live scans of one job (a second resume before the first write commits) and participant lists that change during a scan.
- A gateway that raises inside `normalize_member`, group resolution, login, import and export files, settings and the user interface.
- Scanner.CompletedScanIsComplete: speaks of Telegram-id members; members known only by username are stored by the same ingest but may be upserted again after a crash.
- Datasets.DatasetService.Combine: takes the new id as a parameter that no dataset and neither source uses, which AUTOINCREMENT provides for existing sources.
- Handlers.CommandHandlers.StartMigration: an exception of the gate lookup after the executor is stored, which would leave the entry behind, is not modelled.
- The root-level copies of the packages.
