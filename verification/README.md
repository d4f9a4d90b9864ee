# browser-sqlite: a verified model of its coordination layer

browser-sqlite runs SQLite in a pool of workers, in several tabs at once. This
project models the parts that decide what a caller sees: which connection may
serve a read, which writes a transaction keeps, who gets a worker and when, what
crosses the wire and in what form. Each part is either a state machine whose
steps are one uninterruptible piece of the source's code or one message arriving,
with theorems over every run, or an imperative class or method proved against a
specification with properties of its own. The files named `Outcomes` say what each
operation leads to without the specification's own functions.

| files | what they model |
|---|---|
| `Basics.dfy` | an optional value, sequences, decimal notation |
| `EpochNames.dfy`, `EpochProtocol.dfy`, `EpochOutcomes.dfy`, `EpochClient.dfy` | commit epochs: marker names, the protocol of many realms and connections, its promises told by its steps, the client's own cells |
| `Savepoints.dfy`, `Transaction.dfy`, `TransactionRunner.dfy`, `TransactionData.dfy`, `TransactionInvariant.dfy`, `TransactionMeaning.dfy`, `TransactionNesting.dfy`, `TransactionOutcomes.dfy` | the library's copy of SQLite's savepoint stack; the transaction as a machine, and the runner's own variables; its data against its log, what a COMMIT makes visible, where the library's savepoint stands, and how each way on ends |
| `SchedulerModel.dfy`, `SchedulerInvariant.dfy`, `SchedulerTheorems.dfy`, `SchedulerOutcomes.dfy`, `Scheduler.dfy` | the worker scheduler: its machine, what every step keeps, what runs promise, what each operation does to whom, and the object whose methods are those steps |
| `TransportModel.dfy`, `TransportDelivery.dfy`, `TransportStale.dfy`, `TransportEnds.dfy`, `Transport.dfy` | one worker's transport with credits: the machine, delivery, a generator the next query left behind, how a query leaves its loop and drains, and the two ends |
| `Unicode.dfy`, `Wire.dfy`, `ParamsCodec.dfy`, `RowsCodec.dfy`, `RowObjects.dfy` | the hand-written UTF-8 decoder, the tagged values, params and rows, and rows as objects |
| `SqlText.dfy`, `SqlTemplate.dfy`, `SqlFragments.dfy`, `SqlOutcomes.dfy` | the `sql` tag: its scanner, its builder, queries of any depth, and what they read as |
| `Flatten.dfy` | rows out of chunks, with calls that overlap |
| `StatementCache.dfy`, `Verdicts.dfy` | the two-bound statement cache and the verdict memo; asking for a verdict |
| `Bulk.dfy` | `bulkWrite()` |
| `Supervisor.dfy`, `Startup.dfy`, `StartupOutcomes.dfy` | the restart policy; startup, its retry round, and losses; each case of them |
| `RunPool.dfy` | the keyed job pool of the scripts |

Where a promise does not hold in every run, the model keeps the code as it is, a
lemma exhibits a run that breaks it, and another says exactly when it holds:

- a write abandoned by its caller bumps the epoch before its worker is idle, so a
  commit that lands later is missed by the connections that caught up in between
  (`LateCommitIsSafeIff`, `LateCommitCanBeMissed`);
- taking out the designated worker serves no queue, so a queued write can wait
  beside a free worker, and be overtaken (`TakeOutConservesIff`, `StrandedWriter`);
- a worker is free for the next query as soon as `done` has come; posting it then
  drops the chunks the first query's consumer has not read, and gives that
  consumer the next query's rows if it goes on (`EarlyPostLosesIff`, `StraysIff`,
  `EarlyPostLosesAChunk`, `FirstConsumerIsGivenTheSecondsRows`); a client lease
  holds its worker until idle, and for those runs delivery is proved complete;
- inside a transaction a COMMIT means what was posted unless one of four events
  occurred, and each of them can break it (`CommitMeaningIff`): a statement or a
  savepoint posted after an end of the handle failed having left the transaction
  (`FailedEndStaysInsideIff`, `AfterFailedCommitStatementsLand`), a ROLLBACK that
  failed having forgotten the undo of a write (`FailedRollbackKeepsIff`,
  `FailedRollbackForgetsTheUndo`), and a write abandoned behind the COMMIT already
  posted (`AbandonUndoesIff`, `AbandonedBehindTheCommit`);
- the library's savepoint stands above every one of the consumer's unless a
  ROLLBACK of the handle came to nothing having forgotten a conclusion, because
  it failed on the open transaction or because the pool refused it while the
  write was on the worker; each can leave one under a consumer's, and nothing
  else does (`NestingIff`, `FailedRollbackNestsIff`, `RefusedRollbackNestsIff`,
  `FailedRollbackLeavesItsSavepoint`, `RefusedRollbackLeavesItsSavepoint`); the
  data is kept all the same, but for the forgotten undo above;
- the statement cache's byte bound says nothing of a budget of zero (`BoundedIff`,
  `NoBudgetBoundsNothing`), and a key set to another handle loses the one it had
  (`HandleIsLostIff`, `SetAgainLosesTheHandle`);
- a batch of `bulkWrite()` stays within `maxVariables` exactly when one row does
  (`BatchesBindWithinIff`, `WideRowStartsABatch`);
- src/binary.ts says a column named `__proto__` is never assigned, and skips only
  the first: a second one that is null or a blob sets the row's prototype
  (`PrototypeIsKeptIff`, `NullTakesThePrototype`); behind a null one a third is a
  key (`ProtoIsAKeyIff`, `ProtoBecomesAKey`); behind a blob a column with a number
  for its name can be lost, and one named `length` makes the decoder throw
  (`ColumnIsAKeyIff`, `ThrowsIff`, `NumberedColumnIsLost`, `LengthThrows`).

The comment at src/client.ts:1759-1763 says a read is not sure to see another
tab's write; under the assumptions listed below the code gives more than that
comment promises (`ReadYourOwnWrites`).

## Model

| member | source | states |
|---|---|---|
| EpochNames.MaxEpochIn | src/epochs.ts:64-74 | the loop returns the highest epoch published under the prefix, whatever the order of the names |
| EpochNames.OnlyOwnMarkersAreRead | src/epochs.ts:53-69 | a marker is read under a prefix exactly when VFS and file are its own, even when file names hold colons |
| EpochNames.HoldingRaises | src/epochs.ts:137-143 | holding one more marker makes the origin maximum the larger of the two |
| EpochNames.DroppingKeeps | src/epochs.ts:144-144 | dropping a marker below the maximum leaves the maximum |
| EpochProtocol.StepKeeps | src/client.ts:885-925 | every step of every realm and connection keeps the protocol's invariant: who covers which commits |
| EpochProtocol.EpochSafety | src/epochs.ts:149-169 | in every reachable state each connection has absorbed every counted commit whose epoch is at most its `seen` |
| EpochProtocol.OriginNeverDips | src/epochs.ts:137-145 | new before old: no step lowers the highest epoch readable in the origin |
| EpochProtocol.OneWriterInTheOrigin | src/client.ts:1007-1039 | with Web Locks, at most one write lease is between its grant and its unlock, and the unlock comes no sooner than its write is published and settled |
| EpochProtocol.ReadYourOwnWrites | src/client.ts:1101-1121 | when a query runs, its connection has absorbed every commit of every write that had resolved, in any realm, when the query was issued |
| EpochProtocol.LateCommitIsSafeIff | src/client.ts:1672-1687 | a commit landing after its write's bump is covered by every connection exactly when none has caught up past that epoch |
| EpochProtocol.LateCommitCanBeMissed | src/client.ts:1672-1687 | a reachable run in which a connection is current and has missed a commit |
| EpochOutcomes.ReadYourOwnCommits | src/client.ts:1101-1121 | a commit that landed, whose write then bumped and resolved, is absorbed by the connection of every query issued after that, in any realm |
| EpochOutcomes.TargetOutcome | src/client.ts:890-895 | a lease owes a barrier exactly when its connection has seen less than the realm or the origin says |
| EpochOutcomes.WriterStaysCurrentIff | src/client.ts:914-916 | a write leaves its connection current exactly when it was, with no bump in its realm meanwhile |
| EpochOutcomes.NextLeaseOwesNoBarrier | src/epochs.ts:149-169 | after a write by a current connection, with no bump since, its next lease runs without a barrier, in any run |
| EpochOutcomes.BarrierCatchesUp | src/client.ts:896-911 | a barrier that succeeds leaves everything committed before it absorbed and its query ready |
| EpochOutcomes.NewConnectionPays | src/epochs.ts:149-169 | the first lease on a new connection always pays a barrier |
| EpochOutcomes.LockComesFree | src/client.ts:1007-1039 | a published write gives the origin's lock back |
| EpochClient.EpochCell.Bump | src/epochs.ts:128-131 | the counter grows by one and is returned |
| EpochClient.EpochCell.RaiseTo | src/epochs.ts:132-134 | the counter becomes the larger of the two, never lower |
| EpochClient.PoolWorker.CaptureTarget | src/client.ts:890-895 | the target is the larger of the realm's counter and the origin's epoch, captured before the barrier; a barrier is owed exactly when the worker has seen less |
| EpochClient.PoolWorker.AfterWrite | src/client.ts:914-916 | the protocol's bump: `seen` advances only over a commit it was current for |
| Savepoints.NameAddresses | src/transaction.ts:1366-1390 | among open savepoints distinct for SQLite a name addresses the one that carries it |
| Savepoints.AcceptedNameIsNew | src/savepoints.ts:51-66 | a name that is not refused is new to SQLite, whatever case folding the library uses beyond ASCII |
| Savepoints.GeneratedNameIsNew | src/savepoints.ts:47-49 | a generated name clashes with no open savepoint |
| Savepoints.SavepointStack.OpenSavepoint | src/savepoints.ts:45-71 | opens exactly the acceptable names, and the copy equals SQLite's stack after it |
| Savepoints.SavepointStack.Release | src/savepoints.ts:101-109 | closes it and all above, keeps the data, addresses that savepoint; answers without SQL when already released, refuses when rolled back |
| Savepoints.SavepointStack.Rollback | src/savepoints.ts:111-127 | the data is again what it was at the opening; `ROLLBACK TO`, then `RELEASE` when asked; closed entries never reopen |
| Transaction.StepKeeps | src/transaction.ts:1404-1526 | every event of the runner, the handle, the worker and a crash keeps the transaction's bookkeeping |
| Transaction.StepMovesEnding | src/transaction.ts:212-227 | `ending` moves only from unset to a value, or from died to committed |
| Transaction.StepAfterLanding | src/transaction.ts:364-370 | data a COMMIT made visible stays, and after a recorded commit nothing more is sent |
| Transaction.CleanEnding | src/transaction.ts:1458-1524 | on every run, the lease goes back with the connection outside a transaction or its worker removed and `ending` set; a COMMIT took effect exactly when `ending` says committed or the handle's COMMIT has its reply and is about to say so |
| TransactionRunner.Runner.Via | src/transaction.ts:395-420 | the conclusion owed leaves with the message that is posted, once, as in the machine |
| TransactionRunner.Runner.CommitSettles | src/transaction.ts:364-370 | the machine's step, for the handle's COMMIT and the runner's own: one that succeeded is recorded over a death |
| TransactionRunner.Runner.RollbackSettles | src/transaction.ts:371-382 | the machine's step, for the handle's ROLLBACK and the runner's own: it is not |
| TransactionRunner.Runner.OwnEndRefused | src/transaction.ts:1458-1502 | the runner's own COMMIT or ROLLBACK fails: a death, or an end if it was the one a failure owed |
| TransactionRunner.Runner.DieIfConnectionLeft | src/transaction.ts:578-590 | the machine's step: dies exactly when the connection reports it has left |
| TransactionRunner.Runner.Conclude | src/transaction.ts:1445-1455 | sends exactly what the machine's runner sends |
| TransactionRunner.Runner.OwesRollback | src/transaction.ts:1476-1478 | a ROLLBACK is owed exactly when the machine sends one |
| TransactionData.ConsumerFinds | src/worker/worker.ts:1354-1370 | a consumer's name finds the same savepoint, with the same ones below it, whether or not the library's stand between |
| TransactionData.ConcludedIsMeant | src/worker/worker.ts:1364-1370 | the pending conclusion leaves exactly the data and the consumer's savepoints the log means: the abandoned write undone, any other kept |
| TransactionData.StatementArrives | src/transaction.ts:395-420 | a posted statement takes the conclusion with it and opens its own savepoint on top |
| TransactionData.StatementSucceeds | src/transaction.ts:702-746 | its data and its place in the log change together |
| TransactionData.AbandonRelated | src/transaction.ts:490-491 | abandoning the last posted write turns its release into an undo |
| TransactionData.OperationSucceeds | src/transaction.ts:1347-1394 | a consumer's savepoint operation does to all savepoints what it means on the consumer's own |
| TransactionData.ForgottenIff | src/transaction.ts:371-378 | forgetting what is owed leaves the data right exactly when that was not the undo of a write that did something |
| TransactionInvariant.StepKeepsGood | src/transaction.ts:364-420 | every event that is not wild keeps messages, data, savepoints and log together |
| TransactionMeaning.CommitMeaning | src/transaction.ts:702-746 | on every run without a wild event, what is committed is what the log means: the posted statements that succeeded and were not abandoned, in post order; nothing without a COMMIT |
| TransactionMeaning.WildBreaks | src/transaction.ts:364-382 | after each wild event some way on commits what the log does not mean |
| TransactionMeaning.CommitMeaningIff | src/transaction.ts:364-420 | an event can break that meaning if and only if it is wild |
| TransactionMeaning.PostsStayInside | src/transaction.ts:578-590 | while the handle may post, the connection is in its transaction unless an end of the handle's failed having left it; a message then finds the data and the consumer's savepoints the log means, and none of the library's unless a ROLLBACK came to nothing having forgotten one |
| TransactionMeaning.AbandonUndoesIff | src/transaction.ts:490-491 | an abandoned write will be undone exactly when no COMMIT was posted behind it, or it changed nothing |
| TransactionMeaning.FailedRollbackKeepsIff | src/transaction.ts:371-378 | after a ROLLBACK that fails on an open transaction a COMMIT is right exactly when it had not forgotten the undo of a write that did something |
| TransactionMeaning.FailedEndStaysInsideIff | src/transaction.ts:1304-1346 | when the handle's COMMIT or ROLLBACK fails, alone or having left the transaction, the next statement runs inside it, and commits nothing at once, exactly when the connection reports it is still in it |
| TransactionMeaning.AfterFailedCommitStatementsLand | src/transaction.ts:1304-1328 | a reachable run: a COMMIT fails having left the transaction, which the connection reports, and the next statement lands outside one |
| TransactionMeaning.FailedCommitLeftTheTransaction | src/transaction.ts:1304-1328 | the state of that run meets the lemma above and fails its condition |
| TransactionMeaning.FailedRollbackForgetsTheUndo | src/transaction.ts:371-378 | a reachable run: an abandoned write is committed after a ROLLBACK that failed |
| TransactionMeaning.AbandonedBehindTheCommit | src/transaction.ts:1445-1454 | a reachable run: a write abandoned behind the posted COMMIT is committed |
| TransactionNesting.NeatRunsNest | src/transaction.ts:371-420 | on every run with nothing wild and nothing forgotten the library's savepoint is never under a consumer's, and a message posted finds none of it |
| TransactionNesting.NestingIff | src/transaction.ts:371-382 | an event can leave the library's savepoint under a consumer's if and only if it is a ROLLBACK that fails on the open transaction, or is refused, having forgotten a conclusion |
| TransactionNesting.FailedRollbackNestsIff | src/transaction.ts:371-378 | after a ROLLBACK that fails on the open transaction the library's savepoint stays, under the consumer's next one, exactly when something was pending as it was called |
| TransactionNesting.RefusedRollbackNestsIff | src/transaction.ts:371-378 | the same of a ROLLBACK the pool refuses while a statement is on the worker, however that ends |
| TransactionNesting.RefusedRollbackKeepsTheData | src/transaction.ts:376-377 | a refused ROLLBACK leaves the next COMMIT to make visible what the log means |
| TransactionNesting.AbandonedAfterTheRefusal | src/transaction.ts:490-491 | a write abandoned after the refusal is undone, and its savepoint goes with it |
| TransactionNesting.FailedRollbackLeavesItsSavepoint | src/transaction.ts:371-378 | a reachable run: after a ROLLBACK that failed the library's savepoint stands under a consumer's |
| TransactionNesting.RefusedRollbackLeavesItsSavepoint | src/transaction.ts:757-773 | a reachable run: the same after a ROLLBACK the pool refused, the queue's tail having been cleared by a statement aborted in it |
| TransactionOutcomes.BeginRunsTheCallback | src/transaction.ts:1424-1428 | a BEGIN that succeeds runs the callback inside a transaction over what was committed |
| TransactionOutcomes.FailedBeginRunsNothing | src/transaction.ts:1424-1478 | one that fails runs nothing, owes nothing and keeps nothing |
| TransactionOutcomes.AutoCommitKeepsAll | src/transaction.ts:1445-1456 | the callback returned: an automatic COMMIT that succeeds ends committed, with all the log means and nothing else |
| TransactionOutcomes.AutoRollbackKeepsNothing | src/transaction.ts:1445-1456 | without automatic commit the end is a ROLLBACK and nothing is kept |
| TransactionOutcomes.FailureKeepsNothing | src/transaction.ts:1458-1478 | the callback failed: one ROLLBACK, nothing kept, the worker still in the pool |
| TransactionOutcomes.FailedRepairEvicts | src/transaction.ts:1479-1502 | that ROLLBACK fails: the worker is removed and nothing is kept |
| TransactionOutcomes.CommitKeepsAll | src/transaction.ts:1304-1330 | `commit()` that succeeds keeps all the log means |
| TransactionOutcomes.RollbackKeepsNothing | src/transaction.ts:1331-1349 | `rollback()` that succeeds keeps nothing |
| TransactionOutcomes.EndedIsConcluded | src/transaction.ts:1445-1456 | what the handle ended the runner does not end again |
| TransactionOutcomes.StatementLeavesItOpen | src/transaction.ts:578-590 | a message that succeeds or fails alone leaves the transaction open, but a failed savepoint operation is its death |
| TransactionOutcomes.LeavingIsADeath | src/transaction.ts:578-590 | a statement whose end leaves the transaction is its death, and nothing is kept |
| TransactionOutcomes.StatementCounts | src/transaction.ts:702-746 | a statement that succeeds counts, behind all before it; one that fails does not |
| TransactionOutcomes.AbandonedCountsForNothing | src/transaction.ts:490-513 | one abandoned while it runs counts for nothing, however it ends, and the transaction goes on |
| TransactionOutcomes.OperationMeans | src/transaction.ts:1347-1394 | a savepoint operation does to what is meant what SQLite does |
| SchedulerModel.Lowest | src/scheduler.ts:425-430 | the lowest free index that may serve, when there is one |
| SchedulerModel.FirstShared | src/scheduler.ts:484-487 | the first verdict waiter that is not free-only, when there is one |
| SchedulerInvariant.ChoiceIsFree | src/scheduler.ts:397-442 | an acquire takes a free worker that may serve it, never the designated one; none only when none may |
| SchedulerInvariant.HandOverKeeps | src/scheduler.ts:323-355 | a worker coming back is free or leased once, and the designation stays with a worker in use |
| SchedulerInvariant.StepKeeps | src/scheduler.ts:460-630 | every operation keeps availability, leases, queues and designation consistent |
| SchedulerTheorems.LeasesAreExclusive | src/scheduler.ts:357-395 | an index has at most one live lease, on the worker that is there, and is then not available |
| SchedulerTheorems.OneWriter | src/scheduler.ts:305-317 | at most one live undemoted write lease, on the designated worker, which no reader holds |
| SchedulerTheorems.StaleReleaseIsInert | src/scheduler.ts:380-392 | a stale, borrowed or released lease gives nothing back and gives no designation up |
| SchedulerTheorems.NextGoesWhereTheWriteWas | src/scheduler.ts:403-423 | with nobody waiting, the caller after a write is served on the worker that wrote |
| SchedulerTheorems.RemovedLeaseStaysStale | src/scheduler.ts:445-458 | a lease older than a removal is never live again, in any run |
| SchedulerTheorems.SettledOnce | src/scheduler.ts:532-630 | an acquire ends in one lease, abort or shutdown, and that never changes |
| SchedulerTheorems.NoOvertaking | src/scheduler.ts:313-314 | while a caller waits, nobody behind it in its queue is granted |
| SchedulerTheorems.ImmediateGrantPassesNobody | src/scheduler.ts:582-583 | an acquire granted at once finds its own queue empty |
| SchedulerTheorems.StepConserves | src/scheduler.ts:323-355 | no reader or verdict waits while a worker is free; a writer only for the designated worker or for want of one that may be designated |
| SchedulerTheorems.TakeOutConservesIff | src/scheduler.ts:445-458 | a removal strands queued writers exactly when it takes the designated worker while another free one may be designated |
| SchedulerTheorems.StrandedWriter | src/scheduler.ts:445-458 | a reachable run in which a queued writer waits beside a free worker, and a later write gets that worker |
| SchedulerTheorems.StepKeepsStop | src/scheduler.ts:505-519 | after shutdown nothing more is leased, and its promise has settled exactly when nothing is |
| SchedulerTheorems.RunKeeps | src/scheduler.ts:460-630 | all of it over every run |
| SchedulerOutcomes.AbortOutcome | src/scheduler.ts:608-624 | an abort answers a caller that waits and takes it out of its queue, all others in their places; any other caller it leaves alone |
| SchedulerOutcomes.AbortedIsNeverGranted | src/scheduler.ts:608-624 | a caller aborted while it waits is never granted a worker, in any run |
| SchedulerOutcomes.ReleaseOutcome | src/scheduler.ts:323-355 | a lease released: its worker serves the first verdict, else the first writer it may take, else the first reader, else it is free |
| SchedulerOutcomes.AddOutcome | src/scheduler.ts:461-481 | a worker that joins serves in the same order, or is free |
| SchedulerOutcomes.ProceedOutcome | src/scheduler.ts:397-442 | an acquire past the gate: served on the last writer's worker or else the lowest free one that may serve it; else last in its queue |
| SchedulerOutcomes.AcquireOutcome | src/scheduler.ts:532-583 | refused once shut down or aborted; else through the gate, or waiting for it |
| SchedulerOutcomes.DemoteOutcome | src/scheduler.ts:368-379 | a demoted write gives the designation up, and the head writer gets a free worker that may be designated, if there is one |
| SchedulerOutcomes.OfferOutcome | src/scheduler.ts:483-489 | a lent worker goes to the first verdict that takes one, and to nobody else |
| SchedulerOutcomes.TakeOutOutcome | src/scheduler.ts:445-458 | a worker taken out is gone and its leases dead; nobody else is touched |
| SchedulerOutcomes.ShutdownOutcome | src/scheduler.ts:505-519 | every caller in a queue is refused, and no lease is touched |
| Scheduler.WorkerScheduler.TakeAvailable | src/scheduler.ts:397-442 | the free worker of the specification: the designated, the last writer, then the lowest index |
| Scheduler.WorkerScheduler.ServeWriterFirst | src/scheduler.ts:305-317 | serves the writer queue exactly when the worker may hold the designation |
| Scheduler.WorkerScheduler.HandOver | src/scheduler.ts:323-355 | the step of the machine: verdict, writer, reader, or back to the pool |
| Scheduler.WorkerScheduler.Add | src/scheduler.ts:461-481 | the step of the machine, invariant kept |
| Scheduler.WorkerScheduler.Acquire | src/scheduler.ts:532-606 | the step of the machine, invariant kept |
| Scheduler.WorkerScheduler.Abort | src/scheduler.ts:608-624 | a queued waiter is removed; a granted one left alone |
| Scheduler.WorkerScheduler.ReleaseLease | src/scheduler.ts:380-394 | the step of the machine, invariant kept |
| Scheduler.WorkerScheduler.DemoteLease | src/scheduler.ts:368-379 | the step of the machine: the designation given up, the head writer served elsewhere |
| Scheduler.WorkerScheduler.Offer | src/scheduler.ts:483-489 | lends to the first verdict waiter that may have it |
| Scheduler.WorkerScheduler.TakeOut | src/scheduler.ts:445-458 | the step of the machine, invariant kept |
| Scheduler.WorkerScheduler.Shutdown | src/scheduler.ts:505-519 | every waiter refused, once |
| TransportDelivery.StepKeeps | src/pool.ts:645-715 | every message and every turn of the loop keeps channels, credits, inbox and data consistent |
| TransportDelivery.CreditsAreConserved | src/credits.ts:62-91 | worker credits, chunks under way, inbox, the chunk in hand and credits under way make the window, at every moment |
| TransportDelivery.Delivery | src/pool.ts:891-929 | a query held until idle is given its own chunks in order, none lost or repeated, before its count or its error |
| TransportDelivery.StopsAreForThisQuery | src/credits.ts:75-78 | a stop read while a query runs is about that query, though the gate does not look at the call |
| TransportDelivery.NoStall | src/pool.ts:895-911 | the loop never waits for a wake-up that nothing can bring |
| TransportDelivery.EarlyPostLosesIff | src/pool.ts:672-677 | posting at `done` loses chunks exactly when the inbox holds some |
| TransportDelivery.EarlyPostLosesAChunk | src/pool.ts:672-677 | a reachable run in which a chunk is lost with nothing failed or stopped |
| TransportStale.StraysIff | src/pool.ts:891-929 | a consumer can be given another query's rows exactly when that query, which has rows, was posted while the consumer's own was open |
| TransportStale.StaleCreditIsExtra | src/pool.ts:922-929 | the credit that consumer's next pull sends is one too many for the query it goes to |
| TransportStale.HeldNeverStrays | src/pool.ts:945-951 | while queries hold their worker until idle no generator is left behind and no chunk strays |
| TransportStale.FirstConsumerIsGivenTheSecondsRows | src/pool.ts:891-929 | a reachable state from which the first consumer can be given the second query's rows |
| TransportEnds.OutcomeIsHonest | src/pool.ts:891-929 | in every held run, a query that left its loop completed, or was failed by SQLite, or lost its transport, or was interrupted or left, as its outcome says; with none of the last three it completed with all its rows |
| TransportEnds.NothingAfterAStop | src/pool.ts:912-918 | once interrupted, or its transport broken, a query gives nothing more |
| TransportEnds.ErrorComesLast | src/pool.ts:691-699 | SQLite's error waits for the chunks that came before it |
| TransportEnds.QueryDrains | src/pool.ts:946-990 | a query that left its loop and lost no message drains, in boundedly many moves of the worker and the channels |
| Transport.CreditGate.Grant | src/credits.ts:69-73 | a credit counts for its own call only |
| Transport.CreditGate.Take | src/credits.ts:80-91 | goes with one credit spent, stops with a stop, waits only without either |
| Transport.ClientTransport.Post | src/pool.ts:777-866 | refused while a query is in flight; else a fresh query, the inbox emptied |
| Transport.ClientTransport.OnMessage | src/pool.ts:645-715 | the handler's step: stale calls ignored, chunks queued, the count behind them |
| Transport.ClientTransport.Turn | src/pool.ts:895-920 | the loop's step: a value in order, or the way out a stop or a failure asks for |
| Unicode.ScalarsAreEncoded | src/binary.ts:195-246 | the grammar of RFC 3629 section 4 describes exactly encodings of scalar values |
| Unicode.EncodedIsWellFormed | src/binary.ts:122-124 | every encoded text is well formed and decodes to its scalar values |
| Unicode.UnitsPaired | src/binary.ts:124-124 | UTF-16 units survive exactly when every surrogate has its half |
| Unicode.EncodeFits | src/binary.ts:122-123 | three bytes for each unit always hold the encoded text |
| Unicode.DecodedEncodes | src/binary.ts:186-246 | what is decoded from bytes encodes to the same bytes |
| Unicode.EncodedDecodes | src/binary.ts:122-124 | what is encoded decodes to itself exactly when every surrogate has its half |
| Unicode.ChecksAreTheGrammar | src/binary.ts:207-232 | the decoder's range and tail checks accept exactly the grammar's characters, with their values |
| Unicode.ShortText | src/binary.ts:195-246 | returns a string exactly for well-formed bytes, and then their UTF-16 form, within the fixed buffer |
| Unicode.LoneIsReplaced | src/binary.ts:124-124 | exactly the surrogates without their half are replaced, each by U+FFFD |
| Unicode.Examples | src/binary.ts:124-124 | the characters of RFC 3629 section 7, and a lone surrogate, in bytes |
| Wire.IntRoundTrip | src/binary.ts:106-120 | 32-bit and 64-bit integers are read back as written |
| Wire.Layout | src/worker/binary.ts:49-78 | the tags, low bytes first, and lengths before texts and blobs |
| Wire.ReadWritten | src/worker/binary.ts:49-78 | a value that fits its tag is read back, and nothing behind it |
| Wire.ManyRoundTrip | src/worker/binary.ts:49-78 | values written one after the other are read back in order, wherever the reader stops |
| ParamsCodec.ParamsWriter.Room | src/binary.ts:62-69 | room for the bytes, everything written and marked unchanged |
| ParamsCodec.ParamsWriter.Mark | src/binary.ts:71-76 | the mark is what is written so far |
| ParamsCodec.ParamsWriter.Rollback | src/binary.ts:78-92 | exactly the marked values and bytes are left, whatever chunks were filled since |
| ParamsCodec.ParamsWriter.Write | src/binary.ts:98-135 | the value's bytes are added and nothing else changes, marked bytes included |
| ParamsCodec.ParamsWriter.Finish | src/binary.ts:137-149 | the chunks put together are the values written |
| ParamsCodec.BindBlock | src/worker/binary.ts:19-88 | binds the first values the block holds, as many as the statement has parameters, and refuses unknown tags |
| ParamsCodec.BoundAreWritten | src/worker/binary.ts:19-88 | the values bound are the values written, whatever chunks carried them |
| Wire.ReadsBackIff | src/worker/binary.ts:49-78 | a value comes back from its bytes if and only if it fits its tag |
| ParamsCodec.ReadBackIff | src/values.ts:81-88 | the worker reads back the value given if and only if the client lets it through and its length is one of 32 bits: the refusal of a bigint is exact |
| ParamsCodec.TooBigComesBackNegative | src/values.ts:81-88 | what the refusal is for: 2^63 would come back as the least integer |
| ParamsCodec.EncodeParams | src/binary.ts:153-168 | the block holds the values, in order, however they were cut into chunks |
| ParamsCodec.CellIsGiven | src/binary.ts:98-135 | what SQLite is given for each kind of value: true as 1 and false as 0, a number, a bigint, bytes as they are, a text but for lone surrogates |
| ParamsCodec.ParamsAreBound | src/worker/binary.ts:19-88 | end to end, each value is bound as its kind is to be given, as many as the statement has parameters |
| RowsCodec.HalvesFit | src/worker/binary.ts:131-135 | the high half repeats the low one's sign exactly when 32 bits are enough |
| RowsCodec.HalvesWritten | src/worker/binary.ts:137-141 | two 32-bit halves are the 64-bit integer's bytes |
| RowsCodec.RowWriter.Room | src/worker/binary.ts:111-122 | the buffer grows by doubling and keeps what it has |
| RowsCodec.RowWriter.Row | src/worker/binary.ts:125-180 | one row's cells are added, in order, unchanged through growth |
| RowsCodec.NumberIsExact | src/binary.ts:281-285 | a Number exactly in [-2^53, 2^53), and every step of its sum exact |
| RowsCodec.DecodeText | src/binary.ts:290-296 | the short decoder and the platform's agree on every text |
| RowObjects.PrototypeIs | src/binary.ts:299-299 | the prototype a row has, from its columns' names and values alone |
| RowObjects.ProtoIsAKeyIff | src/binary.ts:260-299 | `__proto__` is a key exactly when such a column follows one, itself not the first, that is null |
| RowObjects.ColumnIsAKeyIff | src/binary.ts:299-299 | any other name is a key exactly when a column of it was not swallowed by a blob as prototype |
| RowObjects.KeyHoldsTheLast | src/binary.ts:262-300 | a key holds the last value of its name |
| RowObjects.ThrowsIff | src/binary.ts:299-299 | decoding a row throws exactly when a blob as prototype refuses a column's name |
| RowObjects.EveryColumnIsAKeyIff | src/binary.ts:260-300 | every column but `__proto__` is a key, exactly when |
| RowObjects.EveryColumnIsAKey | src/binary.ts:260-300 | so whenever no `__proto__` column but the first holds a blob, and each with its last value |
| RowObjects.PrototypeIsKeptIff | src/binary.ts:260-299 | when a row's prototype is left alone, exactly |
| RowObjects.NullTakesThePrototype | src/binary.ts:260-299 | two columns `__proto__`, the second null: the row has no prototype |
| RowObjects.ProtoBecomesAKey | src/binary.ts:260-299 | a third one is then a key |
| RowObjects.NumberedColumnIsLost | src/binary.ts:299-299 | behind a blob a column named `5` is lost |
| RowObjects.LengthThrows | src/binary.ts:299-299 | behind a blob a column named `length` throws |
| RowsCodec.DecodeRows | src/binary.ts:249-304 | every row of the block as an object of its cells, or a throw exactly when one of them throws |
| RowsCodec.RowsRoundTrip | src/worker/binary.ts:125-180 | the rows decoded are the rows written, in order |
| RowsCodec.ColumnIsShown | src/binary.ts:262-298 | what the page sees of each kind of column: an integer as its own number, a Number exactly in [-2^53, 2^53) |
| RowsCodec.RowsAreDecoded | src/binary.ts:249-304 | from SQLite's columns to the page's objects, end to end: every key shows the last column of its name |
| SqlText.ScanJoin | src/sql.ts:203-210 | texts that do not fuse scan, joined, as one after the other |
| SqlText.ScanText | src/sql.ts:130-177 | the scanner's loop: refused exactly for a placeholder of its own, else the state it ends in |
| SqlText.TemplateError | src/sql.ts:120-186 | accepts exactly the usable templates, and tells whether one ends in a line comment |
| SqlTemplate.Render | src/sql.ts:23-33 | the text of the parts and numbered placeholders |
| SqlTemplate.RenderedReadsBack | src/sql.ts:23-33 | the text ends outside every literal and comment, and its placeholders, outside them too, are the slots' numbers in order |
| SqlTemplate.GlueReads | src/sql.ts:204-210 | glued texts open no comment between them |
| SqlTemplate.SlotFor | src/sql.ts:230-238 | an object is one param however often it appears, a primitive one each time |
| SqlTemplate.BuiltComposes | src/sql.ts:212-264 | a template of closed queries is closed or refused, and binds the values written, inlined ones in their place |
| SqlTemplate.Build | src/sql.ts:212-264 | the building loop computes the specification's query |
| SqlFragments.QuotedReadsBack | src/utils.ts:163-172 | a quoted name is read back as that name, whatever it holds |
| SqlFragments.TemplateComposition | src/sql.ts:204-264 | at any depth of `sql`, `sql.id` and `sql.list`: placeholders outside every literal and comment, and the k-th bound value is the k-th written |
| SqlOutcomes.BuiltReads | src/sql.ts:212-264 | a built template reads, character by character and value by value, as it is written, with a space where texts would open a comment, `jsonb(…)` around JSON, and a line end behind a line comment |
| SqlOutcomes.PlainTemplateParts | src/sql.ts:212-264 | without anything inlined the parts are the template's own strings |
| SqlOutcomes.RenderedGrows | src/sql.ts:23-33 | the text is the parts with the slots' numbers between them, a digit kept off |
| SqlOutcomes.BuildsIff | src/sql.ts:212-264 | a query builds if and only if its templates can be used and its names quoted, at every depth |
| SqlOutcomes.LiteralScans | src/sql.ts:132-152 | a literal or a quoted name swallows all up to its end |
| SqlOutcomes.LineCommentScans | src/sql.ts:153-158 | a line comment all up to the line end |
| SqlOutcomes.BlockCommentScans | src/sql.ts:159-164 | a block comment all up to its end |
| StatementCache.NothingEvictedNeedlessly | src/worker/statement-cache.ts:82-93 | one eviction fewer would break a bound |
| StatementCache.KeptIsBounded | src/worker/statement-cache.ts:74-93 | within the count, and under the budget but for one entry |
| StatementCache.SetMovesNobodyElse | src/worker/statement-cache.ts:82-96 | setting an entry leaves all others in their order |
| StatementCache.BoundedIff | src/worker/statement-cache.ts:86-86 | the byte bound holds exactly for a budget above zero |
| StatementCache.NoBudgetBoundsNothing | src/worker/statement-cache.ts:86-86 | a budget of zero and one statement that weighs something: it is kept, over the bound |
| StatementCache.HandleIsLostIff | src/worker/statement-cache.ts:69-83 | a handle is lost exactly when its key is set to another |
| StatementCache.SetAgainLosesTheHandle | src/worker/statement-cache.ts:69-83 | a key set twice to two handles: the first is neither kept nor reported |
| StatementCache.Touched | src/worker/statement-cache.ts:97-105 | using an entry makes it the last in order of use, and keeps all told apart |
| StatementCache.Cache.Set | src/worker/statement-cache.ts:82-106 | evicted and kept are the two ends of the entries in order of use: the least recently used go, each handle kept or reported once |
| StatementCache.Cache.Get | src/worker/statement-cache.ts:97-105 | the entry found becomes the youngest |
| StatementCache.Cache.Delete | src/worker/statement-cache.ts:107-107 | the entry goes, out of the total too |
| StatementCache.Cache.Drain | src/worker/statement-cache.ts:108-113 | every live handle, once |
| StatementCache.VerdictMemo.Set | src/verdicts.ts:44-51 | what the cache's order and count keep; longer texts are not stored |
| Verdicts.AskVerdict | src/verdicts.ts:103-154 | at most four workers are asked, each given back once; the answer is the last one's, and a failed prepare surfaces only after a second failure |
| Verdicts.FourAreEnough | src/verdicts.ts:103-154 | however the workers answer, asking stops after one worker more than the patience left: four from the start |
| Verdicts.FourMayBeAsked | src/verdicts.ts:103-154 | workers for which the asking takes four |
| Flatten.Flattened.Enqueue | src/flatten.ts:165-193 | a call waits for the one made just before it, a delivery included |
| Flatten.Flattened.HandOut | src/flatten.ts:63-73 | with nothing pending a buffered row is handed out at once, in order |
| Flatten.Flattened.Deliver | src/flatten.ts:74-107 | the row taken is delivered one turn later, unless an abort came meanwhile |
| Flatten.Flattened.ServeNext | src/flatten.ts:210-237 | every case: once done the end; a buffered row, unless aborted; else the source's next row, its end with every row delivered, or its failure thrown |
| Flatten.Flattened.ServeEnd | src/flatten.ts:112-145 | a return or a throw ends it, with the rows delivered so far a prefix of the source's |
| Bulk.BulkWriter.BatchesBindWithinIff | src/bulk.ts:148-148 | the writer's batches bind at most `maxVariables` each exactly when one row does |
| Bulk.WideRowStartsABatch | src/bulk.ts:297-297 | a writer of two columns and one variable starts a batch that binds two |
| Bulk.BulkWriter.Enqueue | src/bulk.ts:275-303 | one row more, or exactly the reason it was refused; parked only behind a batch that has not settled |
| Bulk.BulkWriter.Finish | src/bulk.ts:229-264 | a batch counts as written whole or not at all; an abort is no failure, and marks the batch it cut short, which may commit after all |
| Bulk.BulkWriter.CloseAnswers | src/bulk.ts:304-318 | done is answered only when every row it answers for was written |
| Bulk.BulkWriter.WrittenArePrefix | src/bulk.ts:166-172 | rows enqueued are written, not written, queued and buffered ones, and those written are the first, whether or not the batch an abort cut short commits after all |
| Supervisor.RestartPolicy.Report | src/supervisor.ts:52-121 | the policy's decision, within the restart budget |
| Supervisor.ReportOutcome | src/supervisor.ts:52-121 | a slot that was ready and has budget left is restarted, any other that dies is lost, and the client fails with the last one |
| Startup.StepKeeps | src/client.ts:2149-2195 | every worker that opens, declines, dies or serves keeps startup, supervisor and announcements consistent |
| Startup.LossesAreTold | src/client.ts:609-655 | no loss is told twice, none is owed when the client fails, nothing follows that, and a working client has a worker |
| Startup.AnnouncedStaysGone | src/client.ts:1981-1995 | a slot announced lost never holds a worker again |
| Startup.StartupWaitsForSomeone | src/scheduler.ts:232-263 | while the gate is closed some slot it waits for is opening |
| Startup.OneRetryRound | src/client.ts:597-606 | one retry round, for slots whose worker died |
| Startup.RestartsStayInBudget | src/supervisor.ts:108-116 | between two queries served, a slot restarts at most `maxWorkerRestarts` times |
| StartupOutcomes.DeathOutcome | src/client.ts:1981-1995 | a worker dies while the pool serves: its slot restarted untold, or its loss told, and the client failed only for want of another |
| StartupOutcomes.NobodyReady | src/client.ts:597-606 | the first round ends with no worker open: the client fails |
| StartupOutcomes.RetryRound | src/client.ts:597-606 | it ends with some: exactly the slots without a worker, declined ones aside, are spawned again and waited for |
| StartupOutcomes.GateOutcome | src/client.ts:609-655 | the last slot settles: the gate opens, and the client fails exactly when no worker is left or worker 0 is lost before its answer |
| RunPool.FindFree | scripts/parallel.ts:227-233 | the first pending item that is free |
| RunPool.StepKeeps | scripts/parallel.ts:224-257 | every turn of a lane and every worker that ends keeps items, keys and waits consistent |
| RunPool.LanesExclude | scripts/parallel.ts:206-261 | never above the concurrency, no item twice, no two items of one key together |
| RunPool.ResultIsItsWorkers | scripts/parallel.ts:247-254 | an item's result is the outcome of the one worker called on it, and stays |
| RunPool.EndedMeansDone | scripts/parallel.ts:258-261 | when the lanes have ended, one worker was called on each item and its outcome is in the item's own place |
| RunPool.NeverStuck | scripts/parallel.ts:236-238 | no wake-up is lost: a lane waits only while another's worker runs |
| RunPool.RunsEnd | scripts/parallel.ts:224-261 | runs are bounded: the pool ends if every worker does |
| RunPool.JobPool.Turn | scripts/parallel.ts:224-244 | the lane's step: a free keyed item first, then any free one, else a wait |
| RunPool.TurnOutcome | scripts/parallel.ts:224-244 | of the items that can run now the first with a key is taken, else the first without one; with none the lane waits, with no item it ends |
| RunPool.CompleteOutcome | scripts/parallel.ts:245-256 | a worker that ends gives its key back and lets every waiting lane go on |

## Left out

Assumptions of the epoch protocol:

- Publishing an epoch succeeds, no realm dies while it holds the highest marker, and a barrier read absorbs every commit made before it starts.
- A write's origin lock and its pool lease are taken in one step; a connection is a set of commits absorbed, its pages are not modelled.
- EpochProtocol.ReadYourOwnWrites: the commits of a write that bumped while its worker still ran are not covered; LateCommitIsSafeIff says when they are.

Assumptions of the transaction runner:

- BEGIN, COMMIT and ROLLBACK are atomic, the worker reports `inTransaction` accurately, and the ROLLBACK the worker runs after a failed conclusion succeeds.
- Statements reach the model when they are posted: waiting in the queue and retries are not steps of it, nor is the pool's refusal of a busy worker, which leaves everything as it was, but for the handle's ROLLBACK, whose refusal is one. That one may come whenever a message is on the worker.
- The client's reactions to one reply run before the next reply is read.
- TransactionMeaning.CommitMeaning: for runs without a wild event, which is as many as it holds for: CommitMeaningIff.
- Read-only transactions are runs that post no abandonable write; a transaction's bulk writer is its statements.

Assumptions and limits elsewhere:

- A grant (the waiter resolved and its lease made) is one step of the scheduler, and `add` only fills a fresh or emptied slot. The readiness gate opens by an event there; how slots settle it is in `Startup.dfy`. `onIdle` and `stats()` are not modelled.
- SchedulerTheorems.StepConserves: the writers' half holds for removals that do not strand a writer; TakeOutConservesIff says which do.
- SchedulerTheorems.NoOvertaking: a verdict that wants a free worker may be passed when a worker is lent.
- TransportDelivery.Delivery: for queries that hold their worker until idle; EarlyPostLosesIff and StraysIff say what happens to the others. A query posted between a stopped query's `done` and its generator's own return is not modelled. A worker's death, the drain timeout, verdict messages and the write path's `affected` message are not modelled.
- `#` fields of the writers that are views of one buffer are one array here; `setInt32` and its like are the bytes they store, and bit operations are the arithmetic they do.
- A double is its eight bytes; -0 is sent as the integer 0, as in the source.
- RowsCodec.DecodeRows: for blocks a writer wrote; the platform's TextDecoder is a parameter that agrees with RFC 3629 on well-formed text.
- Objects behave as ECMA-262 (2024) says, with `Object.prototype` as the platform made it; which names are canonical numeric strings is a parameter. Editions before 2022 put a numbered column's value into the blob's own array instead of the row.
- Flatten.Flattened.ServeNext: a source lets an error thrown into it through; one that catches it is not modelled.
- SqlFragments.TemplateComposition: `sql.raw` is not covered, nor a named placeholder formed where a `:` meets an inlined name; error texts, the memo of scanned call sites and the JSON text of a `sql.list` are not modelled.
- The transaction, the client's lease protocol and its startup are machines on values: a field of the state stands for a closure's variable, and interleaving for the awaits between its pieces. `TransactionRunner.dfy` and `EpochClient.dfy` give the pieces that only assign those variables; the update in place of the rest is not modelled.
- The client's startup is modelled on values, each callback run inside the step that triggers it; a failure of the client from elsewhere (`close()`, pragmas, the connection lock) is not a step.
- Startup.LossesAreTold: a slot that has opened once does not decline later, and slot 0 never declines.
- `bulkWrite()`: the SQL text, `output()` and its staging tables are left out; a real number given as `queueSize` is a natural number here.

Not modelled: worker threads, wa-sqlite, WebAssembly memory, OPFS and IndexedDB; timers and deadlines, which are events; `src/locks.ts` beyond what epochs need; abandonment through FinalizationRegistry; debug, logging, inspection, capability and classification tables; the other scripts.
