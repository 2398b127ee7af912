# Verified model of the environment alarm pipeline

The program watches environmental samples of devices, raises and recovers alarms, keeps a
local store of events and durable tasks, and carries every external effect out at most as
often as it should, across crashes, retries and restarts.  This project models that core in
Dafny 4.11 and proves what it promises over whole runs.  `dafny verify dfyconfig.toml`
checks everything.

Times are integers, ids are natural numbers, tables are maps.  A crash is a step that drops
uncommitted and in-memory state.  Each table operation has a specification function on the
table value; a class performs it in place and its `ensures` ties the new state to that
function; the lemmas over runs are about the functions.  What the functions mean is said a
second time, over columns alone, by further clauses of these methods and by the lemmas whose
names end in `InColumns` or `ByColumns`.  All local steps run under one re-entrant lock in the
original, so one operation is one step here.

| module | what it holds |
|---|---|
| `Transactions` | the frame stack of units and write scopes over BEGIN and SAVEPOINT: what it computes for every block, when that is nested atomicity, bounded retry |
| `TaskStore`, `TaskRuns` | the durable task table, its claim order, leases, dedupe keys, activation epochs; runs of it |
| `Scheduler` | one scheduler pass, with handlers that may leave any table behind |
| `AlarmLifecycle` | the four-state alarm machine and its runs |
| `EventStore` | the local event table: cycles, remote bindings, POST reservation, effect markers |
| `CreateProtocol` | workers, requests and a remote table: at most one remote row per event |
| `EffectHandling` | handling of CREATE, UPDATE and RECOVERED actions with sticky proof of success, each call a legal sequence of the protocol's acts |
| `MonitorProjection` | one sample as an atomic local unit plus the external write, with crash points; runs over all devices |
| `VerificationTasks` | the tie from alarm states to verification tasks over histories |
| `Standards`, `StandardStore` | selection and validation of standards; the immutable version and snapshot store, written through a `Transactions` connection; synchronisation runs |
| `Reminders` | overdue reminders of open operations |
| `Prewarning` | rounding, compliance of one sample, the near-limit warning and its episode |

## What turned out conditional

- Validation compares device ids as written, selection compares them trimmed and upper-cased.
  A validated snapshot can therefore still conflict at run time; it never does for a
  vocabulary of device ids exactly when trimming and upper-casing keep its ids apart
  (`Standards.SafeIffInjective`).
- A stay within the exit margin of one limit does not by itself mean one notification: another
  limit may start the episode and end it.  An active episode survives the band of a limit
  exactly when that limit is one of its reasons or the exit margin adds nothing
  (`Prewarning.BandHoldsExactly`), and the promise for all runs holds exactly in the second
  case (`Prewarning.BandPromiseExactly`).
- Every CREATE opens a fresh event exactly when the verification window or the recovery window
  is positive; with both zero, two cycles at one instant share an event key
  (`MonitorProjection.FreshIffPositive`).
- `commit_sqlite` called directly inside a write scope ends that scope's frame early.  A later
  failure then keeps the work before the commit at the top, keeps everything under a unit, and
  under another write scope takes that scope's frame and all of its work too
  (`Transactions.CommitSplitsScope`).  However a scope goes on, its failure restores the entry
  state exactly when no commit reached it, directly or through write scopes only, or when it
  merely left work pending at the top (`Transactions.FailureRestoresExactly`).
- A registration record that returns with a newer creation time starts the operation anew, but a
  live reminder of the old start still carries the same record and goes out for the new one.  An
  acceptance keeps the reminders in time exactly when every live reminder of the device with that
  record carries number 0 and cannot be handled before the new deadline
  (`Reminders.AcceptanceKeepsBoundExactly`); a failing run is
  `Reminders.ReDatedRecordIsRemindedEarly`.
- A claim leaves an external task RUNNING exactly when the runtime context isolates nothing (none
  installed, or Active without an epoch) or does not find the task outdated
  (`TaskRuns.ClaimAdmitsExactly`).
- The task of a verification or recovery window is a new one exactly when no earlier window of the
  same device, kind and instant was opened; otherwise it is that window's old task, finished or
  not (`VerificationTasks.WindowTaskIsNewExactly`).
- `claim_external_create` also grants a cycle that is bound, since binding clears the owner; bound
  cycles are kept out by its callers alone (`EventStore.BoundCycleIsGranted`).

## Model

| member | source | states |
|---|---|---|
| `Transactions.Connection.Begin` | repositories/sqlite.py:36-45 | a frame is pushed that remembers the working image; inside a transaction it has a new savepoint name, outside it opens the transaction |
| `Transactions.Connection.FinishFrame` | repositories/sqlite.py:48-59 | exactly the top frame goes; found by its savepoint name, rollback restores the image at its start; the outermost frame commits or rolls back everything |
| `Transactions.Connection.CommitSqlite` | repositories/sqlite.py:62-70 | under a unit a commit is deferred and changes nothing; otherwise it ends the top frame or persists |
| `Transactions.Connection.RollbackSqlite` | repositories/sqlite.py:73-82 | under a unit nothing happens; otherwise the top frame, or the open transaction, is undone |
| `Transactions.Connection.Execute` | repositories/sqlite.py:30-131 | for every block, commits anywhere, the frames, savepoints and images end as the pure frame machine says |
| `Transactions.Connection.Run` | repositories/sqlite.py:30-131 | for every well-nested block the result is its nested-atomic meaning and the stack is as it was, unless a BaseException leaks |
| `Transactions.NestedBlocksAreAtomic` | repositories/sqlite.py:30-131 | the frame machine refines the nested-atomic meaning on every well-nested block |
| `Transactions.StackFate` | repositories/sqlite.py:48-131 | every block leaves the units around it and the durable data under them alone; one that does not leak only takes frames off, and does so exactly when a commit reaches the scope on top |
| `Transactions.Connection.RunUnit` | repositories/sqlite.py:85-109 | a unit ends as the frame machine says and with the stack it found, whatever its body did and however it failed |
| `Transactions.Connection.RunTxn` | repositories/sqlite.py:111-131 | a write scope ends as the frame machine says, whatever its body did: the frame on top by then is committed, rolled back on an ordinary exception, or left alone when a BaseException leaks |
| `Transactions.Connection.RunWithRetry` | repositories/sqlite.py:189-237 | at most five attempts; every attempt before the last raised a lock error in a write scope of its own and left the durable world alone; the result is that of the last attempt alone, rolled back if it raised; without a caller transaction an error that ends the call early is no lock error, and inside one there is a single attempt |
| `Transactions.InnerBlocksArePlain` | repositories/sqlite.py:36-59 | inside an open transaction a composition has the plain atomic-block effect and nothing becomes durable |
| `Transactions.OutermostUnitIsAtomic` | repositories/sqlite.py:85-109 | the outermost unit makes all of its plain effect durable or leaves the world as it was |
| `Transactions.OutermostTxnIsAtomic` | repositories/sqlite.py:111-131 | the same for the outermost write scope, with the exact exception of a refused COMMIT |
| `Transactions.RetriedScopeIsAtomic` | repositories/sqlite.py:189-237 | a retried write scope took effect once, as one of its attempts, or not at all |
| `Transactions.CommitSplitsScope` | repositories/sqlite.py:62-131 | what survives the failure of a scope with a commit directly inside it: at the top, under a unit and under another scope |
| `Transactions.FailureRestoresExactly` | repositories/sqlite.py:111-131 | a scope's failure restores the entry state, however it goes on, if and only if no commit reached it or it left work pending at the top |
| `TaskStore.TaskRepository.SetRuntimeContext` | repositories/automation_tasks.py:153-208 | staying Active keeps epoch and cutover, entering Active installs new ones, leaving clears them |
| `TaskStore.TaskRepository.QuarantineLegacy` | repositories/automation_tasks.py:697-754 | a row is LEGACY_PENDING afterwards exactly if it was, or was external, unfinished and of another mode or epoch or from before the cutover; such a row loses worker and lease and keeps its first error, every other row is unchanged, and the count is that of the rows hit |
| `TaskStore.TaskRepository.RecoverStale` | repositories/automation_tasks.py:757-803 | exactly the expired RUNNING and long overdue PENDING rows become PENDING and due now, keeping key and attempts; every other row is unchanged, and the count is that of the rows hit |
| `TaskStore.TaskRepository.CreateOrGet` | repositories/automation_tasks.py:844-917 | an existing owner of the key is returned unchanged, otherwise a new row stamped with mode and epoch owns it |
| `TaskStore.TaskRepository.CreateOrGetUnfinished` | repositories/automation_tasks.py:919-1126 | the winner of the class is reused or a row is created; waiting duplicates are cancelled, the key moves to the returned row, a former owner gets a history key; it fails only for a blank type, entity or key, or when that history key is in use, and then changes nothing |
| `TaskStore.WinnerInColumns` | repositories/automation_tasks.py:986-1027 | the row reused for a request: none exactly when no unfinished row has its type and entity, or for a status projection its key; else a RUNNING one if there is one, and of equals the earliest due |
| `TaskStore.AdoptionInColumns` | repositories/automation_tasks.py:1028-1096 | reusing a row gives it the key and, while it waits, the earlier of the two due times; waiting duplicates are cancelled, a former owner of the key is renamed, no other column changes |
| `TaskStore.CreationInColumns` | repositories/automation_tasks.py:1098-1126 | without unfinished work the request becomes a new waiting row that owns the key, and other rows keep everything but that key |
| `TaskStore.RetryKeepsItsBackoff` | repositories/automation_tasks.py:956-1058 | a reconciliation of the same key, of a retry of it or of the same event goes on untouched, and only its waiting duplicates are cancelled |
| `TaskStore.TaskRepository.ReleaseKey` | repositories/automation_tasks.py:1146-1161 | only the other owner of the key is archived; a clash with an existing history key is an error that changes nothing |
| `TaskStore.TaskRepository.SelectDue` | repositories/automation_tasks.py:1196-1237 | distinct claimable rows in their turn - verification, reconciliation, synchronisation and notification work first, comparisons due within the last minute last, then the earlier due time, then the smaller id - as many as allowed, none left behind whose turn came first, and none left out while there is room |
| `TaskStore.TaskRepository.ClaimDue` | repositories/automation_tasks.py:1170-1254 | after the claim-time quarantine exactly the rows whose turn it is become RUNNING under this worker, column by column, with a lease of the given length and one more attempt; a claim below its limit leaves no due or abandoned row |
| `TaskStore.BatchIsInTurn` | repositories/automation_tasks.py:1196-1237 | a batch in queue order is in turn by task type, due time and id, against each other and against every claimable row left behind |
| `TaskStore.TaskRepository.RescheduleRunning` | repositories/automation_tasks.py:1272-1285 | only the current worker of a RUNNING row can park it as PENDING with a new due time and payload |
| `TaskStore.TaskRepository.CancelTask` | repositories/automation_tasks.py:1304-1328 | only unfinished rows are cancelled; unknown and finished rows are errors that change nothing |
| `TaskStore.TaskRepository.FinishTask` | repositories/automation_tasks.py:1330-1365 | a verdict needs a RUNNING row, the worker that holds it and an unexpired lease |
| `TaskRuns.ShapeHolds` | repositories/automation_tasks.py:1170-1365 | in every run a row has a worker and a lease exactly while it is RUNNING |
| `TaskRuns.VerdictByLatestClaimer` | repositories/automation_tasks.py:1330-1365 | in every run a SUCCEEDED or FAILED verdict is written strictly before the lease of the row's latest claim ends, and by that claim's worker whenever the call names a worker |
| `TaskRuns.TerminalIsFinal` | repositories/automation_tasks.py:757-803 | in every run SUCCEEDED, FAILED, CANCELLED and LEGACY_PENDING are never left |
| `TaskRuns.NoTaskCrossesEpochs` | repositories/automation_tasks.py:697-754 | with fresh epoch ids and an installed context, an external task that becomes RUNNING was created in the epoch current at its claim, and the runtime was Active in that epoch at every step in between |
| `TaskRuns.EpochIsUnbroken` | repositories/automation_tasks.py:153-208 | if two moments of a run lie in one epoch, so does every moment between them |
| `TaskRuns.ClaimAdmitsExactly` | repositories/automation_tasks.py:1196-1254 | a due external row can be among the claimed ones, and runs if it is, if and only if the context isolates nothing or does not find it outdated; otherwise the claim parks it |
| `TaskRuns.RunKeepsKeysUnique` | repositories/automation_tasks.py:919-1161 | in every run no two rows own one dedupe key |
| `TaskRuns.UnfinishedIsUnique` | repositories/automation_tasks.py:1009-1126 | the returned row alone owns the key; every other unfinished row of its type and entity is RUNNING, and none exists if the returned row is PENDING |
| `TaskRuns.UnfinishedIsIdempotent` | repositories/automation_tasks.py:1009-1126 | asking again for the same work succeeds, returns the same row and adds none |
| `TaskRuns.OnlyRestartDelays` | repositories/automation_tasks.py:1075-1094 | over all operations a waiting row's due time moves later only when a restart requeues a long overdue row |
| `Scheduler.TaskScheduler.RunOnce` | scheduler/worker.py:57-143 | ends, never handles one id twice, takes each task in its turn, claimed = succeeded + failed + skipped with each count that of its verdicts, stops with an error only at a row that vanished, and a pass below its limit has handled everything claimable at its last claim, whatever the handlers do to the table |
| `Scheduler.TaskScheduler.Dispatch` | scheduler/worker.py:75-143 | by the columns of the row the handler left: still RUNNING under this worker with a live lease it is finished, SUCCEEDED and a success for a handler that returned, FAILED and a failure for one that raised or is missing; parked by a raising handler it is a failure and left alone; otherwise it is skipped and left alone |
| `AlarmLifecycle.CreatedIffVerified` | domain/alarm_state_machine.py:70-136 | in every run an alarm is created exactly by a violation at least `verify_after` into a window that an earlier violation opened and no normal sample closed |
| `AlarmLifecycle.CreateAndRecoverAlternate` | domain/alarm_state_machine.py:96-233 | creations and recoveries alternate starting with a creation; the difference is one exactly in ALARM and RECOVERY |
| `AlarmLifecycle.RecoveredIffCalm` | domain/alarm_state_machine.py:138-233 | with a positive recovery window a recovery is marked exactly by a normal sample at least `recovery_after` into a violation-free stretch that a normal sample began |
| `AlarmLifecycle.UpdatedIffViolatedAgain` | domain/alarm_state_machine.py:138-233 | in every run an event is updated exactly by a violation while one is created and not recovered, every request names that event, and an undecided sample changes nothing |
| `AlarmLifecycle.WindowActions` | domain/alarm_state_machine.py:70-233 | in every run a verification task is asked for exactly when a violation opens a window, cancelled when a normal sample ends it, completed by the creation; a recovery window starts exactly with a normal sample in the alarm |
| `AlarmLifecycle.AlarmKeepsItsTimes` | domain/alarm_state_machine.py:96-233 | in every run a raised alarm carries the time of the sample that created its event and the start of that window, through recovery windows that came to nothing |
| `EventStore.EventRepository.CreateOrGetActive` | repositories/environment_events.py:117-176 | an event with the key, else the device's active one, is returned unchanged, otherwise a new OPEN one is added |
| `EventStore.EventRepository.ReserveExternalPost` | repositories/environment_events.py:271-306 | a POST is reserved exactly when the event is unbound and none was tried or the last was recorded retryable |
| `EventStore.EventRepository.MarkExternalCreateOutcome` | repositories/environment_events.py:308-354 | an unbound cycle whose POST was tried may post again exactly if the outcome is RETRYABLE; one never tried still may |
| `EventStore.EventRepository.BindExternalRecord` | repositories/environment_events.py:356-426 | granted exactly if every other event of the record is closed, of the same device and opened earlier and the cycle has no other record; then the cycle is bound and each of them is superseded by it, column by column; a refused bind changes nothing |
| `EventStore.BindsExactly` | repositories/environment_events.py:356-426 | for every table a binding succeeds if and only if nothing bound to the record is on another device, still going on or not opened earlier, and what it does to every row |
| `EventStore.EventRepository.MarkExternalRecordMissing` | repositories/environment_events.py:206-240 | the cycle is closed, keeping an earlier closing time, and asks for no binding, update or recovery any more |
| `EventStore.EventRepository.ClaimExternalCreate` | repositories/environment_events.py:645-682 | granted exactly if no lease of another claim lasts beyond now; then this owner holds it for at least a second |
| `EventStore.EventRepository.PatchExternalEffect` | repositories/environment_events.py:511-544 | a marker is written unless the one present is SUCCEEDED |
| `EventStore.LeaseExcludesOthers` | repositories/environment_events.py:645-682 | until a lease ends, owner and lease stay and every other claim is refused, in every history that records neither outcome nor binding for the cycle |
| `EventStore.BoundCycleIsGranted` | repositories/environment_events.py:356-426 | after a successful binding the next claim is granted, for every table and claim |
| `EventStore.HistoryKeepsOwnership` | repositories/environment_events.py:356-426 | every history of operations keeps the ownership invariant and one active event per device |
| `EventStore.EveryRecordHasOneOwner` | repositories/environment_events.py:356-426 | of the events bound to one remote record exactly one is not superseded; every other is CLOSED, on the same device, opened strictly earlier, and points to it |
| `EventStore.HistoryGrows` | repositories/environment_events.py:178-426 | over every history a binding never changes once made, a closed event stays closed and a SUCCEEDED marker is neither altered nor removed |
| `CreateProtocol.AtMostOneRemoteRow` | integrations/feishu_writers.py:908-944 | over every interleaving of workers, crashes, late executions and reports the remote table holds at most one row created for a local event |
| `CreateProtocol.ActKeepsInv` | repositories/environment_events.py:271-353 | each act keeps the protocol invariant: while a POST is open no request for the event is under way or executed |
| `CreateProtocol.AmbiguousFailureMayStillExecute` | integrations/feishu_writers.py:100-121 | after every failure other than "not persisted" there is a history in which the request can still be executed |
| `EffectHandling.EventWriter.CreateEvent` | integrations/feishu_writers.py:812-944 | a row found by key is handed back without a POST, an unresolved row is reopened and handed back unless a try is open, and otherwise - owner known and a POST allowed - exactly one POST is sent; the answer is its record, or the row found after its error, and any other failure is recorded with its outcome; another POST is allowed afterwards only if the failure was "not persisted" |
| `EffectHandling.EventWriter.CreateAndBind` | integrations/feishu_writers.py:1264-1294 | it succeeds exactly if the claim is free, a record is obtained and that record can be bound, and the cycle is then bound to it |
| `EffectHandling.PostTracks` | integrations/feishu_writers.py:908-944 | every branch of a create call that sends its POST is a legal sequence of protocol acts - reserve, send, perhaps execute, answer or fail, then report, bind or release - and leaves that sequence's table |
| `EffectHandling.EventWriter.HandleAlarmAction` | integrations/feishu_writers.py:1177-1447 | it returns normally exactly if the call names a known cycle and its effect is on record or no longer asked for, or its record can be had and written; a CREATE with a free claim and a bindable new record ends bound to that record after one POST; a proven effect is neither repeated nor changed; a POST is sent exactly when the table asks for one; the whole call is a legal sequence of protocol acts with that POST |
| `EffectHandling.EventWriter.Serve` | integrations/feishu_writers.py:908-944 | over any number of calls, with any acts of other workers and late executions in between, each call sends a request exactly when the table it finds asks for one, and of all requests sent for an event at most one made a remote row or still may |
| `EffectHandling.EventWriter.WriteEffect` | integrations/feishu_writers.py:1265-1447 | one remote write and no POST; its success, or the discovery that the record was deleted, which closes the cycle, leaves a SUCCEEDED marker, and a failed write leaves a FAILED one and is reported as failure |
| `EffectHandling.EventWriter.Replay` | integrations/feishu_writers.py:1233-1263 | over any sequence of calls with any other repository operations in between, each returns normally exactly when the table it finds lets it, and no call writes remotely for an effect that an earlier call completed |
| `MonitorProjection.GateAgreesWithQuarantine` | application/action_executor.py:261-312 | in an Active context the executor's epoch and cutover gate admits an action of a task exactly when the claim-time quarantine does not find the task outdated |
| `MonitorProjection.ReachesHandler` | application/action_executor.py:165-340 | an action reaches its handler if and only if mode, standards, scope and device agree, its origin is of the current epoch, the feature is on and there is a handler |
| `MonitorProjection.MonitorService.ProjectTasks` | application/monitor_service.py:1452-1506 | the task of a window that ends is finished unless the scheduler is running it; a window that opens gets the owner of its key, a new waiting task due at the window's end unless the key is taken; no other row changes |
| `MonitorProjection.OpenedInColumns` | application/monitor_service.py:1452-1506 | a window opens exactly at a first violation or, with a positive recovery window, at a first normal sample in the alarm, and its task is due one window later |
| `MonitorProjection.MonitorService.ProjectEvents` | application/monitor_service.py:1452-1602 | the event table changes as the transition's event action says and the alarm id names the created or reused event |
| `MonitorProjection.EventsInColumns` | application/monitor_service.py:1508-1602 | row by row: a creation adds one open event that asks for its remote row exactly under open gates, a recovery closes the alarm's event and asks for the remote recovery exactly under open gates, nothing else changes an event |
| `MonitorProjection.MonitorService.ArmReconciliation` | application/monitor_service.py:1177-1249 | a reconciliation task is unfinished for the event exactly when the gates are open and there is an event action; one that waited or ran already goes on with its due time, a new one is due at once |
| `MonitorProjection.MonitorService.LocalUnit` | application/monitor_service.py:266-353 | states, events and tasks change together or not at all, and not at all only if the alarm's event is gone or a task key cannot be archived |
| `MonitorProjection.MonitorService.HandleSample` | application/monitor_service.py:266-353 | a reconciliation task is committed exactly for a creation, update or recovery under open gates; when the action reaches its handler under stable gates that task is there already, and it stays unfinished through a crash anywhere unless the execution succeeded |
| `MonitorProjection.OpenEventsAreRaisedAlarms` | application/monitor_service.py:1452-1602 | after every history an open event belongs to a device in ALARM or RECOVERY whose alarm id names it, so no device has two |
| `MonitorProjection.FreshIffPositive` | application/monitor_service.py:1452-1602 | every creation of every history opens a fresh event if and only if one of the two windows is positive |
| `MonitorProjection.HistoryInv` | application/monitor_service.py:198-353 | every history of samples and of other event operations keeps the tie between alarm states and events |
| `VerificationTasks.StatesNameTheirTasks` | application/monitor_service.py:1470-1506 | after every history a device verifies exactly while its state names a VERIFY_ALARM task and recovers exactly while it names a VERIFY_RECOVERY task: the one with that window's key, on that device, not due before the window's end |
| `VerificationTasks.NoOtherTaskWaits` | application/monitor_service.py:1654-1671 | after every history the only unfinished verification tasks are those the states name and those a scheduler was running when they ended their window |
| `VerificationTasks.NoWindowIsCutShort` | application/monitor_service.py:1622-1652 | after every history a verification task can be claimed, first or again, only at or after the end of the window whose key it has |
| `VerificationTasks.WindowTaskIsNewExactly` | application/monitor_service.py:1490-1505 | over every history the task of an opened window is new, waiting and due at its end if and only if no earlier step opened a window of the same device, kind and instant |
| `VerificationTasks.KeysNameOneWindow` | application/actions.py:56-59 | no two windows share a dedupe key, whatever the device ids |
| `Standards.SelectStandard` | domain/standard_resolver.py:56-167 | the answer is the unique highest-ranked revision in force, not-found without candidates, a conflict exactly when a chain has no revision in force or no one ranks above all others |
| `Standards.SelectionByColumns` | domain/standard_resolver.py:56-167 | all three answers by columns alone: the selected revision is the newest of its chain and beats every other one in force by device match, then operation match, then the larger priority |
| `Standards.Latest` | domain/standard_resolver.py:111-138 | the revision of a chain later than all other candidates with their selector, or none exactly when there is no such revision |
| `Standards.OverlapIsCommonInstant` | application/standard_sync.py:37-47 | intervals overlap exactly when some instant lies in both |
| `Standards.ValidateStandardSnapshot` | application/standard_sync.py:50-149 | no errors exactly for a snapshot without duplicates, incomplete rows, clashing revisions or clashing peers |
| `Standards.PeersClashExactly` | application/standard_sync.py:126-148 | two enabled standards with consistently spelled devices clash in validation if and only if some query between them ends in a conflict |
| `Standards.RevisionsClashExactly` | application/standard_sync.py:100-124 | two revisions of one selector clash if and only if some query between them ends in a conflict; of two selectors, if and only if they share an instant |
| `Standards.ValidByColumns` | application/standard_sync.py:50-149 | a snapshot is valid if and only if it is not empty, every row is complete with increasing limits, no revision repeats and no pair clashes |
| `Standards.NormalizeTrimsAndRaises` | domain/standard_resolver.py:34-39 | a normal device id is the text between the outer blanks with a to z in upper case |
| `Standards.ValidNeverConflicts` | application/standard_sync.py:50-149 | a validated snapshot with consistent device spelling has no query that ends in a conflict |
| `Standards.SelectionIsUnique` | domain/standard_resolver.py:142-167 | a query has at most one answer |
| `Standards.SelectionIgnoresOrder` | domain/standard_resolver.py:56-167 | the answer does not depend on the order in which the standards are listed |
| `Standards.SafeIffInjective` | application/standard_sync.py:136-141 | validation rules out every conflict for a vocabulary of device ids if and only if normalisation is injective on it |
| `StandardStore.StandardRepository.InsertOrValidate` | repositories/standard_resolver.py:294-361 | a stored revision with other business columns is refused, with equal ones only its provenance moves, a new one is added |
| `StandardStore.StandardRepository.CreateSnapshot` | repositories/standard_resolver.py:363-403 | a snapshot of exactly these versions becomes active and last known good; a used id, a repeated member or a failing statement is an error |
| `StandardStore.StandardRepository.ApplySnapshot` | repositories/standard_resolver.py:193-261 | versions, snapshot, pointers and audit row change together or not at all, whichever statement fails, from the audit insert to the COMMIT, alone or inside a caller's transaction |
| `StandardStore.StandardRepository.Resolve` | repositories/standard_resolver.py:657-683 | the answer is a selection over the active standards; the fallback never alters it |
| `StandardStore.StandardRepository.Sync` | application/standard_sync.py:168-235 | the store becomes the specified next store, `changed` says whether the active pointer moved, and one audit row records source, verdict, count, time and the active snapshot of a success |
| `StandardStore.IncorporateKeepsHistory` | repositories/standard_resolver.py:294-361 | incorporation succeeds exactly when no revision is seen with two contents; then it holds every standard and no old business column changed |
| `StandardStore.SyncStep` | application/standard_sync.py:168-235 | after a success exactly the fetched standards are active and the pointer moved exactly when they differ from those before; after a failure nothing changed; no stored snapshot ever reaches other standards |
| `StandardStore.SuccessInColumns` | repositories/standard_resolver.py:294-403 | after a success every fetched standard carries its source and validation time, a new one its creation time; a moved pointer names a new snapshot of exactly these versions |
| `StandardStore.RemoteByText` | repositories/standard_resolver.py:100-101 | a source is allowed if and only if its text after outer blanks begins with the prefix in upper or lower case |
| `StandardStore.SucceedsExactly` | repositories/standard_resolver.py:193-261 | a synchronisation succeeds exactly when the snapshot is valid, the source is allowed, the storage serves all its statements and no stored revision differs |
| `StandardStore.ActiveIsLastSuccess` | application/standard_sync.py:168-235 | over every run the active standards are those of the last success, both pointers are equal, and business columns of stored revisions never change |
| `StandardStore.ResolverFollowsLastSuccess` | repositories/standard_resolver.py:657-683 | whatever order the store lists them in, the resolver's answer is the selection over the last successfully fetched list, never a conflict |
| `Reminders.OperationRepository.Apply` | application/operation_sync.py:47-75 | a registration replaces the current one exactly if it is strictly newer, and then resets or closes it column by column; the same record may fill in missing metadata and nothing else |
| `Reminders.OperationRepository.SaveCurrent` | repositories/runtime_state.py:661-798 | a start resets the reminder columns, an end closes the operation and keeps them |
| `Reminders.OperationRepository.RefreshInitiator` | repositories/runtime_state.py:596-658 | known metadata is never replaced and a skipped reminder becomes possible again |
| `Reminders.OperationRepository.UpdateOverdueNotification` | repositories/runtime_state.py:872-915 | delivery is recorded only while the same operation is open; only SENT and RETRY_EXHAUSTED move the reminder time |
| `Reminders.ReminderRuntime.EnsureOverdueTasks` | runtime/shadow_runner.py:1239-1309 | a pass is a run of arming steps within the scope, one for every open operation unless the store refuses one, which only an unarchivable key or a nameless device can cause |
| `Reminders.ReminderRuntime.Arm` | runtime/shadow_runner.py:1263-1309 | at its deadline, and one interval after a delivery, an operation has an unfinished reminder of the right number that may go out now; before that, after a final failure or a skip, and while a pending number still waits, nothing changes |
| `Reminders.ReminderRuntime.HandleOverdueNotification` | runtime/shadow_runner.py:799-907 | for every reply and crash point the columns of the operation row, the task row and the attempts: SENT with its time, FAILED_FINAL, SKIPPED_NO_INITIATOR or PENDING with a retry after the backoff, and only while the same operation is open |
| `Reminders.BackoffDoublesToAnHour` | runtime/shadow_runner.py:799-907 | retries wait half a minute, doubled each time, up to an hour |
| `Reminders.RunKeepsInv` | runtime/shadow_runner.py:799-907 | in every run with harmless acceptances a live task carries the current number or, after a delivery, the next, and may go out as soon as it can be handled; one unfinished reminder per device |
| `Reminders.RemindersAreTimely` | runtime/shadow_runner.py:1239-1309 | in every run with harmless acceptances number k goes out no earlier than start + grace + k intervals, numbers never decrease, and every smaller number was delivered before, one interval per number earlier |
| `Reminders.AcceptanceKeepsBoundExactly` | application/operation_sync.py:47-75 | an accepted registration keeps every later reminder in time if and only if each live reminder of the device with the same record carries number 0 and cannot be handled before the new deadline |
| `Reminders.ReDatedRecordIsRemindedEarly` | application/operation_sync.py:47-75 | a run from an empty store in which a re-dated record is reminded before its deadline |
| `Reminders.OnceIsCareful` | domain/operation.py:53-59 | runs in which each record is accepted once per device have only harmless acceptances |
| `Prewarning.RoundIsNearestTenth` | domain/monitor_engine.py:55-62 | rounding gives the one nearest tenth, the outer one on a tie |
| `Prewarning.ViolationIsOutside` | domain/monitor_engine.py:135-330 | a sample is a violation if and only if it is judged and the nearest tenth of a limited value lies outside its limits; normal if and only if it is judged and all lie inside |
| `Prewarning.EvaluatePrewarning` | domain/monitor_engine.py:65-130 | the reasons, in order, are those of the limits the compliant sample is near; otherwise none |
| `Prewarning.WarnsExactlyNear` | domain/monitor_engine.py:83-130 | a limit is a reason exactly when the sample is compliant and within the margin that hysteresis selects |
| `Prewarning.NearByNumbers` | domain/monitor_engine.py:83-130 | each of the four warnings by its own limit, value and margins: the nearest tenth is on the allowed side and no further than the margin |
| `Prewarning.StepKeepsSane` | application/monitor_service.py:362-482 | a notification exactly marks an episode's activation, a recovery notice its end by a clear sample, and an episode that stays active keeps identity and start |
| `Prewarning.EpisodeFollowsSample` | application/monitor_service.py:362-482 | what each kind of sample does to the episode: a breach only switches it off, an unclosed event ends it silently, a compliant sample sets or ends it with its notices, an undecided one leaves it unless the standard does not apply |
| `Prewarning.ActiveMeansAtRest` | application/monitor_service.py:362-482 | in every run an active episode means lifecycle NORMAL with an id, a start and non-empty reasons |
| `Prewarning.FormalStateIsIndependent` | application/monitor_service.py:253-263 | the advisory episode never influences the formal alarm state |
| `Prewarning.BreachKeepsEpisode` | application/monitor_service.py:372-393 | a breach that is over before it becomes an alarm keeps the episode's identity and start for the next warning |
| `Prewarning.BandKeepsEpisode` | domain/monitor_engine.py:108-119 | once a limit is a reason, a run within its exit margin gives neither notification nor recovery notice and keeps the one episode |
| `Prewarning.BandFromEntry` | domain/monitor_engine.py:108-119 | a stay within the exit margin that begins within the entry margin gives at most one notice, at its first sample |
| `Prewarning.BandHoldsExactly` | domain/monitor_engine.py:108-119 | an active episode survives every sample in a limit's exit margin if and only if the limit is one of its reasons or the exit margin is not wider |
| `Prewarning.BandPromiseExactly` | domain/monitor_engine.py:65-130 | one notice per stay, for all standards and runs, if and only if the exit margin is not wider than the entry margin |

## Left out

- SQL text, schema migrations, indexes, purge, health summaries and readiness counts.
- ISO time text: times are integers, so comparisons that mix offsets or text forms are not modelled.
- Floating point and the text form of numbers: readings, limits and margins are real numbers.
- SHA-256 effect keys: effect keys are opaque strings compared for equality.
- Python's full whitespace set and Unicode upper-casing: `Standards.Normalize` trims spaces and maps a-z.
- A blank area in `select_standard`, an argument error raised before any standard is looked at.
- Type checks of standard fields and finiteness of limits: the datatypes admit only typed, finite values; low not above high is required of constructed standards only where a claim needs it.
- `updated_at` of a standard version, which always equals its validation time, and the error texts of a failed synchronisation.
- Readiness of standards, the Active mode and the device scope of the executor, which enter as parameters.
- Notification tasks of alarms and the ids attached to them by position.
- Uniqueness of unfinished rows for the reconciliation and device-status task types: the first matches by key, prefix or payload, which is no equivalence.
- Runtime epochs are new when they are installed, as random ids are; `Reminders` and `TaskRuns.NoTaskCrossesEpochs` rely on it.
- `entity_type` of tasks, `active_epoch` passed explicitly to the quarantine, and payload entries nothing reads back.
- A BaseException that leaks outside a unit leaves frames behind; the model says which, but no later cleanup is modelled.
- Failure of a bare COMMIT outside every scope.
- `StandardStore.StandardRepository.ApplySnapshot`: inside a caller's transaction the original uses its own SAVEPOINT beside the frame stack; here it is a frame with the same statements.
- `StandardStore.StandardRepository.Sync` is called with no transaction open, as its task handler does; a failing audit insert of a failed synchronisation is not modelled.
- Other connections: the bare rollback after an insert race in the event repository, and errors they could cause.
- `create_event` without a local event id, which bypasses the reservation.
- `EventStore.Patch` holds the entries that callers merge into an event's projection; the original would merge any entry, and no caller passes create state, binding or effect markers.
- Translation of the remote table's fields, message texts, recipients, cell unwrapping and the closing form of an event.
- Peak values, durations and other columns of event projections that only copy sample data.
- `TaskStore.Id`: ids are natural numbers ordered as numbers, where the original orders random hexadecimal text.
- Interleaving inside one handler: the runtime lock covers a handler, so other parties act between calls, not within one.
- Device ids in `Reminders` are taken as already upper-cased; two spellings of one device are two devices there.
- Margins and windows come from settings; hot changes of the margins are covered because every input carries its own.
- HTTP routes, dashboards, the collector, token cache, storage of raw samples, configuration parsing.
