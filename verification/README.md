# ThreadWeave in Dafny

ThreadWeave accepts jobs, queues them, matches each with a live worker, records an execution, delivers the
assignment, hands it to a runtime session and reports its progress back to the control plane. This project
models that path and proves what holds over every run of it.

| module | what it models |
|---|---|
| `Assignments`, `PendingBroker` | the worker's assignment broker: as values with a step relation, and as the class that changes in place |
| `AssignmentTraces`, `AssignmentHistory` | the language of accepted broker calls on one assignment; its record as a function of those calls |
| `Wakeups` | runtime sessions sleeping on `Notify`, and which interleavings lose a wake-up |
| `RuntimeService`, `SessionReports`, `WorkerLoop` | session events turned into broker calls and reports, over one event and over whole runs; the worker's consume loop |
| `Core` | the job table, `accept` and `report_execution` |
| `Scheduling` | `schedule_one` and the loop around it |
| `Protocol`, `ProtocolPlaces`, `ProtocolLinks`, `ProtocolViews`, `ProtocolTheorems` | all of these together as one machine of interleaved steps, its invariants, and the end-to-end theorems |
| `ProtocolReach`, `ProtocolBackend`, `ProtocolHandlers` | which jobs can still be delivered; the result backend over whole runs; the machine's steps as the handlers they come from |
| `WorkerRegistry`, `RegistryHistory`, `RegistryBoundary`, `RedisListing`, `Membership` | worker membership with generations and a TTL: memory and Redis registries, the SCAN listing, Core's handlers |
| `IncarnationId`, `GlobPattern`, `MemorySize`, `Text` | the incarnation id, the escaped SCAN pattern, memory sizes, and the text and UTF-8 functions they use (section 3 of RFC 3629) |
| `ExecutionStore`, `StoreHistory` | the memory and Redis execution stores; their answers as a function of the calls before |

Calls of the outside world are parameters: clock readings, drawn UUIDs, broker and store answers, SCAN replies.
The end-to-end machine rests on these assumptions:

- there is one control plane, and UUIDs are fresh and not blank;
- the broker is atomic, an error of it means that nothing was published, and a failed store call changes nothing;
- encoding and decoding of messages is lossless, and locks are not poisoned;
- events of one assignment are handled one after another (one session loop awaits each event; the broker itself
  does not check which session an event comes from);
- a forward that failed is not processed by Core later.

Some results are about behaviour a reader might not expect:

- A wake-up can be lost. `Wakeups.LostExactlyWhen` says which step loses it: the end of a session that puts
  nothing back while work is queued, no notification is stored or due, and every other session sleeps;
  `Wakeups.RunsAreCoveredExactlyWhen` says it for whole runs.
  `Wakeups.AbandoningCanLoseAWakeup` gives a run from the start that ends there.
- The result backend can end up with the placeholder of `accept` although the job has finished, because `accept`
  stores it after publishing. `ProtocolBackend.BackendAgreesUnlessLate` gives the exact condition on the order of
  the two steps and `ProtocolBackend.LatePlaceholderOverwritesResult` a run.
- Core accepts reports that take a finished execution back to Running or replace one outcome by another; only the
  worker's lifecycle checks prevent them. `Core.ReportMovesForwardExactlyWhen` says exactly which accepted reports
  move an execution forward or leave it, with `Core.LateRunningReportMovesBackward` and
  `Core.SecondOutcomeReplacesTheFirst` as examples. `Core.ReportAgreesExactlyWhen` says exactly when execution and
  job still agree afterwards. `ProtocolTheorems.NoBackwardMoves` shows that the session path never gets there.
- Two registries in one Redis database can see each other's workers. `RedisListing.ForeignKeysMatchExactlyWhen` says
  for which prefixes: those where one prefix with ":worker:" begins the other, such as "a" and "a:worker:b".

In the registries a TTL is a positive number of whole milliseconds, the clock never goes back, and every operation
uses one reading. Redis drops a key `lag` milliseconds after its deadline. With `lag` 0 the two registries agree on
every trace; with a positive `lag` they agree exactly on the traces without a call that concerns a worker whose TTL
has passed by less than `lag` (`RegistryBoundary.RegistriesAgreeExactlyWhen`).

`dafny verify dfyconfig.toml` checks the whole project.

## Model

| member | source | states |
|---|---|---|
| `Assignments.StepKeepsInv` | src/worker/runtime.rs:60-299 | every lock-protected section keeps the broker invariant: the queue is duplicate-free and holds exactly the Pending ids, and each record carries exactly the owner, sequence number, start time and duration its lifecycle state allows |
| `Assignments.RunsKeepInv` | src/worker/runtime.rs:60-299 | the broker invariant holds in every state reachable by any history of calls |
| `Assignments.InternalErrorsAreUnreachable` | src/worker/runtime.rs:97-299 | in every reachable state a queued id has a record, and no event is refused with "execution was not started" |
| `Assignments.DisconnectConservesWork` | src/worker/runtime.rs:121-151 | for any visiting order, the old queue stays as a prefix, exactly the ids Assigned to the session are appended, once each; no Running or finished record changes beyond its owner; nothing stays owned by the session; other sessions' records are untouched |
| `AssignmentHistory.RecordIsHistory` | src/worker/runtime.rs:60-299 | over every run every field of a record is what the accepted calls say: its assignment from its enqueue, its owner and state, the number of the last event, the time of its start, its samples in order, and as its duration the time from accepted start to accepted finish; no accepted progress is out of range |
| `AssignmentHistory.EnqueuedIsKept` | src/worker/runtime.rs:60-151 | over every run an enqueued assignment stays in the table, unchanged |
| `AssignmentHistory.HandleAnswersExactlyWhen` | src/worker/runtime.rs:186-299 | the exact condition for each answer to an event: accepted, out of range, unknown, mismatched, stale, or not in the right state |
| `AssignmentHistory.EnqueueAnswersExactlyWhen` | src/worker/runtime.rs:60-87 | the exact condition for each answer to an enqueue, and that it adds one record and one queue entry |
| `PendingBroker.PendingExecutions.Enqueue` | src/worker/runtime.rs:60-87 | the in-place method appends a Pending record, or refuses blank and known ids and changes nothing; keeps the invariant |
| `PendingBroker.PendingExecutions.RegisterSession` | src/worker/runtime.rs:89-95 | adds the session and keeps the invariant |
| `PendingBroker.PendingExecutions.TryNext` | src/worker/runtime.rs:97-114 | hands out the oldest queued assignment to the session, and nothing exactly when the queue is empty; the record lookup cannot fail |
| `PendingBroker.PendingExecutions.Disconnect` | src/worker/runtime.rs:121-151 | the loop over the owned records, in whatever order, achieves the disconnect relation, and asks for a notification exactly when something was requeued |
| `PendingBroker.PendingExecutions.Cancel` | src/worker/runtime.rs:153-184 | a command is sent exactly when the owner is a registered session whose channel is open, and which error otherwise; it goes to that owner, names an Assigned or Running execution and carries the reason |
| `PendingBroker.PendingExecutions.Validate` | src/worker/runtime.rs:186-208 | an event passes exactly when the record exists, the execution id agrees and the number is newer; which error otherwise |
| `PendingBroker.PendingExecutions.Started` | src/worker/runtime.rs:210-228 | in place, the start of an Assigned execution as the lifecycle function says, or its error and no change |
| `PendingBroker.PendingExecutions.Progress` | src/worker/runtime.rs:230-251 | in place, progress of a Running execution, or its error and no change |
| `PendingBroker.PendingExecutions.Metrics` | src/worker/runtime.rs:253-270 | in place, a metrics sample of a Running execution, or its error and no change |
| `PendingBroker.PendingExecutions.Terminal` | src/worker/runtime.rs:272-299 | in place, the end of a Running execution with its duration, or its error and no change; the missing start time never occurs |
| `AssignmentTraces.TraceHasShape` | src/worker/runtime.rs:60-299 | after any number of calls, the accepted calls on an id are a word of the language that ends where the record says |
| `AssignmentTraces.AcceptedCallsFormAWord` | src/worker/runtime.rs:97-299 | for every call history, the accepted calls on an assignment are: enqueue, hand-outs separated by a disconnect of the holder, at most one start, updates, at most one finish; sequence numbers strictly increase |
| `AssignmentTraces.EveryWordOccurs` | src/worker/runtime.rs:60-299 | conversely, every word of the language is the trace of some run, so the description is exact |
| `AssignmentTraces.ReportsAreOneRunningThenOneTerminal` | src/worker/runtime.rs:210-299 | the accepted starts and finishes of an assignment are at most one start followed by at most one finish |
| `SessionReports.SentIsTheTrace` | src/worker/runtime.rs:341-467 | over every broker run the reports that sessions send for an assignment carry exactly the states its accepted calls stand for, in order, and its id |
| `SessionReports.SessionsSendOneRunningThenOneTerminal` | src/worker/runtime.rs:341-467 | so the reports sent for an assignment are at most one Running followed by at most one terminal report |
| `Wakeups.LostExactlyWhen` | src/worker/runtime.rs:84-151 | a step from a covered state loses the wake-up if and only if it is the end of a session that requeues nothing while work is queued, nothing is stored or due, all other sessions sleep, and one does |
| `Wakeups.NoLostWakeup` | src/worker/runtime.rs:97-114 | in every interleaving in which no session ends without requeueing while work is queued, queued work beside a sleeping session has a permit, a due notification or a session that is awake |
| `Wakeups.RunsAreCoveredExactlyWhen` | src/worker/runtime.rs:84-151 | every moment of a run is covered if and only if no action of it is such an end of a session |
| `Wakeups.HelpEndsExactlyWhen` | src/worker/runtime.rs:472-505 | counting as help only sessions that will look at the queue again or have work to put back: a step from a helped state leaves queued work beside a sleeper without help if and only if a session leaves its loop with nothing to put back while work is queued, nothing is stored or due, and no other session helps |
| `Wakeups.HelpIsOnItsWay` | src/worker/runtime.rs:472-505 | so help is on its way in every run in which sessions leave their loop only with work to put back or while the queue is empty, whatever is enqueued before they disconnect |
| `Wakeups.RunsAreHelpedExactlyWhen` | src/worker/runtime.rs:472-505 | every moment of a run is helped if and only if no action of it is such a departure |
| `Wakeups.OwnersAreRegistered` | src/worker/runtime.rs:472-505 | in every interleaving of session loops the broker invariant holds and every stored owner is a registered session |
| `Wakeups.LeaveIsDisconnect` | src/worker/runtime.rs:121-151 | the machine's disconnect with an explicit requeue order is exactly the disconnect relation |
| `Wakeups.StuckNeedsOutsideHelp` | src/worker/runtime.rs:97-114 | once work is queued, everyone sleeps and nothing is due, only a new enqueue, connection or inbound event can happen, and the work stays queued |
| `Wakeups.AbandoningCanLoseAWakeup` | src/worker/runtime.rs:472-505 | a run from the initial state, for any two sessions and assignments, that loses a wake-up |
| `RuntimeService.HandleEvent` | src/worker/runtime.rs:326-380 | one event: malformed ones are refused with their own error and change nothing, the broker decides next; a report with the event's ids, number, time and outcome is sent exactly for an accepted start or finish; then the answer is Ok exactly if Core accepted it, with the matching error otherwise, and the broker keeps the event's effect whatever the reply |
| `RuntimeService.Completed` | src/worker/runtime.rs:382-414 | the same for a completion, with the missing and the contradictory result refused first |
| `RuntimeService.FailedExecution` | src/worker/runtime.rs:416-446 | the same for a failure, with missing failure information refused first |
| `RuntimeService.ReplyDecidesOnlyTheAnswer` | src/worker/runtime.rs:326-339 | Core's reply has no influence on the broker or on what is sent, and none on the answer when nothing is sent |
| `RuntimeService.SessionReportsAreWellFormed` | src/worker/runtime.rs:382-467 | a report sent by a session never fails Core's checks of the message, a success carries no failure, and it names the assignment, execution and number of the broker call |
| `WorkerLoop.Worker.ExecuteOne` | src/worker/worker.rs:397-427 | one envelope leaves the list and is queued at the end, or which of the three errors says why not, the broker being unchanged |
| `WorkerLoop.Worker.AssignmentLoop` | src/worker/worker.rs:357-361 | assignments are queued in list order until the first error, which is the one the pass at that envelope gives and costs at most that envelope |
| `WorkerLoop.EnqueueAllInOrder` | src/worker/worker.rs:357-427 | queueing one assignment after another appends their ids to the queue in that order |
| `Core.CoreExecutionService.Accept` | src/api/grpc.rs:135-224 | Ok exactly when broker and backend answered, with the accepted job that is now in the table, its task last on the list and its placeholder stored; "broker unavailable" exactly when nothing changed; "backend unavailable" exactly when job and task exist and the backend is unchanged |
| `Core.CoreExecutionService.MarkJobRunning` | src/api/grpc.rs:101-113 | the job runs with attempt 1, or "job not found" and no change |
| `Core.CoreExecutionService.StoreJobResult` | src/api/grpc.rs:116-133 | the job ends as its outcome says with attempt at least 1, or "job not found" and no change |
| `Core.CoreExecutionService.ReportExecution` | src/api/grpc.rs:242-307 | the handler's ordered store calls compute the report function under every combination of failing calls |
| `Core.ReportIsAllOrNothing` | src/api/grpc.rs:242-307 | an accepted report sets its execution's state and its job's state, attempt and result, and touches no other; "job not found" has set the execution only; any other failure changes neither |
| `Core.ReportAnswersExactlyWhen` | src/api/grpc.rs:242-307 | the exact condition for each answer to a report, under every combination of failing store calls |
| `Core.ReportStoresExactlyWhen` | src/api/grpc.rs:267-290 | the backend is written exactly for a supported terminal report whose write does not fail, with the outcome under the execution's id |
| `Core.ReportAgreesExactlyWhen` | src/api/grpc.rs:258-299 | after an accepted report execution and job agree if and only if a job reported Running has no result, a success carries no failure and a finished job's attempt was at most 1; if they agreed before, if and only if a finished execution is not reported Running and a success carries no failure |
| `Core.ReportMovesForwardExactlyWhen` | src/api/grpc.rs:258-299 | an accepted report leaves the execution or moves it forward if and only if it was Assigned or Running, or is reported in the state it has |
| `Core.LateRunningReportMovesBackward` | src/api/grpc.rs:259-266 | Core alone takes a finished execution back to Running |
| `Core.SecondOutcomeReplacesTheFirst` | src/api/grpc.rs:267-299 | Core alone turns a success into a failure, execution and job agreeing before and after |
| `Scheduling.RoundKeepsOrder` | src/scheduler/scheduler.rs:66-159 | a deferred round consumes, records and publishes nothing; an assigned one consumes and publishes exactly one, in order |
| `Scheduling.RunKeepsOrder` | src/scheduler/scheduler.rs:54-159 | in every run up to the first error tasks are consumed in arrival order, assignments are published in that order with their execution on record, and consumed and published counts differ by at most one |
| `Scheduling.ChosenWorkerIsLeast` | src/scheduler/scheduler.rs:67-82 | the worker of every published assignment is the least id of the sorted listing it was chosen from |
| `Scheduling.OutcomeExactlyWhen` | src/scheduler/scheduler.rs:66-159 | the exact condition for each outcome of a round: deferred exactly for an empty listing, assigned exactly if someone was listed, a task was consumed and decodes, and create and publish succeeded, and which error otherwise |
| `Scheduling.EffectExactlyWhen` | src/scheduler/scheduler.rs:83-159 | what a round consumes, records and publishes, with the job id of the envelope or a fresh one |
| `Scheduling.RunStopsExactlyWhen` | src/scheduler/scheduler.rs:54-64 | the loop has stopped if and only if one of its rounds ended with an error or waits for a task that never comes |
| `Scheduling.StoppedLoopIsLeft` | src/scheduler/scheduler.rs:54-64 | a stopped loop is as the round that stopped it left it |
| `Scheduling.EmptyListingNeverStops` | src/scheduler/scheduler.rs:57-81 | a round without workers never stops the loop and leaves every task on the list |
| `Scheduling.Scheduler.ScheduleRound` | src/scheduler/scheduler.rs:66-159 | the in-place round does what the round function says, for every failing call |
| `Scheduling.Scheduler.RunRounds` | src/scheduler/scheduler.rs:54-64 | the loop stops at the first error and leaves the histories in order |
| `ProtocolTheorems.RunsKeepAll` | src/api/grpc.rs:135-307 | every interleaved run keeps the invariants about places, links, nodes and views together |
| `ProtocolTheorems.Conservation` | src/scheduler/scheduler.rs:54-159 | in every run each published job is in exactly one place: task list, scheduler's hand, one worker's list, that worker's hand, its assignment table |
| `ProtocolPlaces.StepMovesForward` | src/worker/worker.rs:357-427 | a step leaves a published job where it is or takes it to the next of those places |
| `ProtocolTheorems.NoDuplication` | src/scheduler/scheduler.rs:111-153 | in every run a job has at most one execution, and at most one assignment at one worker |
| `ProtocolTheorems.LossIsBounded` | src/scheduler/scheduler.rs:54-64 | in every run the published jobs in the hands of stopped loops number at most one for the scheduler and one per stopped worker |
| `ProtocolTheorems.LossIsPermanent` | src/worker/worker.rs:357-361 | a job in the hand of a stopped loop at some moment of a run is there at every later one |
| `ProtocolReach.DeliverableExactlyWhen` | src/scheduler/scheduler.rs:54-159 | at every moment of every run some continuation brings a published job into an assignment table if and only if it is in one, or in the list or hand of a running worker, or in a running scheduler's hand for such a worker, or in a running scheduler's task list |
| `ProtocolReach.OpenBefore` | src/worker/worker.rs:357-427 | a step brings a job to a place it can get on from only from such a place, so a job behind a stopped loop stays there |
| `ProtocolTheorems.WorkersNeverRefuse` | src/worker/runtime.rs:60-87 | in every run a worker can queue the assignment in its hand, so duplicates and blank ids never stop its loop |
| `ProtocolTheorems.ReferentialIntegrity` | src/api/grpc.rs:176-265 | in every run, rollbacks included, every envelope, execution and assignment names a known job, every delivered assignment has its execution with the same ids, and a report never meets "not found" |
| `ProtocolTheorems.ViewAgreement` | src/api/grpc.rs:101-133 | while no report of an execution is in flight its state matches its job's, attempt 0 goes exactly with Accepted, and a result exactly with a finished execution, whichever store calls failed |
| `ProtocolTheorems.CoreIsNeverAhead` | src/api/grpc.rs:258-299 | Core's execution state is never ahead of the worker's assignment state |
| `ProtocolTheorems.StepMovesStateForward` | src/api/grpc.rs:258-299 | one step leaves an execution's state or moves it forward |
| `ProtocolTheorems.NoBackwardMoves` | src/worker/runtime.rs:210-446 | between any two moments of a run an execution stays or moves forward along Assigned, Running, finished, and a finished one never changes |
| `ProtocolBackend.BackendAgreesUnlessLate` | src/api/grpc.rs:205-218 | in every run the backend holds a finished job's result if and only if no placeholder step of the job comes after the step that persisted the result |
| `ProtocolBackend.StepKeepsSpentJob` | src/worker/runtime.rs:272-299 | once a job's result was persisted its assignment has ended and no further terminal report of it is on its way, whatever step follows |
| `ProtocolBackend.LatePlaceholderOverwritesResult` | src/api/grpc.rs:205-218 | for any ids and any outcome, success or failure, a run in which a finished job's result is overwritten by the placeholder |
| `ProtocolTheorems.RunningStepsAreOneReport` | src/api/grpc.rs:259-266 | the machine's steps of a Running report add up to Core's handler, with and without a failing store |
| `ProtocolTheorems.PersistIsHalfAReport` | src/api/grpc.rs:267-299 | the first step of a terminal report is the handler with a failing state update |
| `ProtocolTheorems.TerminalStepsAreOneReport` | src/api/grpc.rs:267-299 | the three steps of a terminal report add up to Core's handler |
| `ProtocolHandlers.AcceptSteps` | src/api/grpc.rs:176-218 | the accept steps add up to `accept`, with a failing publish, a failing backend and none |
| `ProtocolHandlers.IdleRounds` | src/scheduler/scheduler.rs:66-90 | a round that ends before a task is consumed changes nothing the machine sees |
| `ProtocolHandlers.ConsumeStep` | src/scheduler/scheduler.rs:83-133 | the consume step is a round whose store call fails |
| `ProtocolHandlers.ScheduleSteps` | src/scheduler/scheduler.rs:83-159 | the consume, create and publish steps add up to a round that assigns, and without the last to one whose publish fails |
| `ProtocolHandlers.ExecuteSteps` | src/worker/worker.rs:397-427 | the consume and enqueue steps add up to one pass of the worker's loop, whose error leaves the item in hand |
| `ProtocolHandlers.ForwardIsHandledEvent` | src/worker/runtime.rs:341-446 | a forward step is possible exactly when the start or finish event is accepted, leaves the same broker and sends the same report |
| `ProtocolHandlers.SessionCallIsHandledEvent` | src/worker/runtime.rs:230-270 | a silent session step is possible exactly when the progress or metrics event is accepted, and leaves the same broker |
| `WorkerRegistry.LazyExpiryRefinesEagerExpiry` | src/worker_registry.rs:122-369 | over every timed trace the Redis registry answers like the memory registry, the TTL being longer by Redis's lag (equal for lag 0), whatever stale entries the map still holds |
| `WorkerRegistry.SameRuns` | src/worker_registry.rs:122-369 | moreover the database holds exactly the live memory entries with the same contents |
| `RegistryBoundary.RegistriesAgreeExactlyWhen` | src/worker_registry.rs:122-369 | with the same TTL the answers agree if and only if no call concerns a worker that, by the calls before it, is alive under the TTL plus the lag and not under the TTL |
| `RegistryBoundary.LagShowsExactlyWhenNoticed` | src/worker_registry.rs:123-191 | the same for the memory registry under two TTLs, with the same entries on both sides as long as nothing was noticed |
| `RegistryBoundary.RegistriesAgreeOffTheBoundary` | src/worker_registry.rs:122-369 | so they agree on every trace without a call in the window after an earlier call's TTL |
| `RegistryBoundary.RegistriesDifferAtTheBoundary` | src/worker_registry.rs:160-176 | a heartbeat after a registration is answered differently if and only if it falls into that window |
| `WorkerRegistry.MemoryWorkerRegistry.RegisterWorker` | src/worker_registry.rs:123-158 | refreshes a live entry of the same generation, otherwise stores a new one, and tells new from replaced |
| `WorkerRegistry.MemoryWorkerRegistry.ReportHeartbeat` | src/worker_registry.rs:160-176 | refreshes a live entry of the same generation; unknown, expired and stale ones are refused without a change |
| `WorkerRegistry.MemoryWorkerRegistry.AvailableWorkers` | src/worker_registry.rs:181-191 | drops the expired entries and returns the others' ids in order |
| `WorkerRegistry.RedisWorkerRegistry.RegisterWorker` | src/worker_registry.rs:247-288 | the registration script on the keys that have not expired |
| `WorkerRegistry.RedisWorkerRegistry.ReportHeartbeat` | src/worker_registry.rs:290-317 | the heartbeat script on the keys that have not expired |
| `RegistryHistory.MembershipIsHistory` | src/worker_registry.rs:123-191 | a worker is a live member under a generation exactly when a streak of that generation, unbroken by another generation or by a gap of a TTL, reaches to now |
| `RegistryHistory.HeartbeatExactlyWhenAlive` | src/worker_registry.rs:160-176 | a heartbeat succeeds exactly when such a streak reaches to now |
| `RegistryHistory.EntryIsHistory` | src/worker_registry.rs:123-176 | the stored registration and its time are those of the call that began the current streak, and the stored heartbeat is the last one since |
| `RegistryHistory.AnswersAreHistory` | src/worker_registry.rs:123-191 | over every timed trace every answer of the memory registry follows from the calls before: a registration is new exactly if no generation of the worker is alive, idempotent exactly if its own is, a replacement exactly if another is; likewise the three answers to a heartbeat; a listing holds exactly the workers with a live generation, in order |
| `RegistryHistory.RedisAnswersAreHistory` | src/worker_registry.rs:247-369 | the same for the Redis registry, for the TTL with Redis's lag |
| `RegistryHistory.OneGenerationAtATime` | src/worker_registry.rs:123-176 | at most one generation of a worker has an unbroken streak |
| `RedisListing.AvailableWorkers` | src/worker_registry.rs:322-368 | for any SCAN replies, with repeats and with keys coming and going, the result is strictly sorted, contains every worker that a key under the prefix names throughout and only workers named at some moment; with every hash under its own key, every worker live throughout and only workers live at some moment |
| `RedisListing.ListingIsRight` | src/worker_registry.rs:322-368 | the ids read by the loop are sound and complete in both senses |
| `RedisListing.RegistryIsWellKeyed` | src/worker_registry.rs:247-317 | after any timed trace the registry holds every hash under its worker's own key |
| `RedisListing.ForeignKeysMatchExactlyWhen` | src/worker_registry.rs:221-223 | a key of a registry with another prefix can match the pattern if and only if one prefix with ":worker:" begins the other |
| `RedisListing.SharedDatabaseIsWellKeyedExactlyWhen` | src/worker_registry.rs:322-368 | whatever two registries hold in one database, every matching hash is under its worker's own key, if and only if their prefixes are equal or do not interfere |
| `Membership.RegisterWorker` | src/api/grpc.rs:343-368 | accepted exactly when a registration is present and neither id is blank, with the registry's outcome; otherwise nothing changes |
| `Membership.ReportHeartbeat` | src/api/grpc.rs:315-342 | a malformed runtime id changes nothing; otherwise the registry's answer, mapped to the status |
| `Membership.AcceptedWorkersCanHeartbeat` | src/api/grpc.rs:315-368 | every registration Core accepts can be named by a heartbeat: accepted before the TTL has passed, unknown from then on |
| `Membership.ReplacedGenerationIsRefused` | src/api/grpc.rs:315-368 | the printed id of a replaced generation is refused as stale and changes nothing |
| `IncarnationId.ParseExactly` | src/worker_registry.rs:390-401 | an id parses to a pair if and only if both parts are non-empty and it is a numeral of the worker id's byte length, a colon, and the two parts |
| `IncarnationId.RoundTrip` | src/worker_registry.rs:386-401 | parsing a printed id returns the pair, for multi-byte text and ids with digits or colons |
| `IncarnationId.PrintIsInjective` | src/worker_registry.rs:386-388 | different pairs never print alike |
| `IncarnationId.PrintIsCanonical` | src/worker_registry.rs:386-388 | a printed id is the byte length of the worker id without leading zeros, a colon, and the two parts |
| `GlobPattern.SequentialEscapeIsPerCharacter` | src/worker_registry.rs:371-377 | the four replacements in a row equal escaping each character once |
| `GlobPattern.LiteralThen` | src/worker_registry.rs:371-377 | an escaped literal matches exactly itself and leaves the rest of the key to the rest of the pattern |
| `GlobPattern.PatternMatchesPrefix` | src/worker_registry.rs:326-326 | the SCAN pattern matches, as bytes, exactly the keys that start with the prefix and ":worker:" |
| `GlobPattern.PatternMatchesTextPrefix` | src/worker_registry.rs:221-223 | the same for keys that are text |
| `GlobPattern.EscapingIsNeededExactlyWhen` | src/worker_registry.rs:371-377 | without escaping, the pattern matches exactly the prefix keys if and only if the prefix holds none of the four escaped characters |
| `MemorySize.RoundTripExactly` | src/worker/worker.rs:430-443 | a printed size parses back, without overflow, exactly when it is a positive multiple of 1024; every other u64 prints to text that is rejected |
| `MemorySize.TableOrderIsIrrelevant` | src/config/mod.rs:99-122 | any reordering of the unit table parses every text alike |
| `MemorySize.FormatFirstFit` | src/worker/worker.rs:430-443 | a size prints with the first unit of the table that divides it |
| `MemorySize.FormatUsesLargestUnit` | src/worker/worker.rs:430-443 | a size prints in the largest of the four units that divides it, and in bytes if none does |
| `MemorySize.UnitSizes` | src/config/mod.rs:99-122 | a numeral and one of the seven units parses to the numeral times that unit's size, or out of range; white space around it and before the unit does not matter |
| `MemorySize.TextWithUnit` | src/config/mod.rs:99-122 | any other text before a unit is refused as not an integer, naming the unit |
| `MemorySize.UnknownUnitExactlyWhen` | src/config/mod.rs:99-122 | a text is refused for its unit exactly when it ends in none of the seven |
| `Text.ParseU64Exactly` | src/config/mod.rs:112-115 | what parses as a u64: at least one digit, leading zeros and one plus sign allowed, within range |
| `ExecutionStore.StoresAgree` | src/execution_store.rs:56-249 | for every call sequence the Redis store answers like the memory store up to truncated timestamps, and never meets a missing or malformed field |
| `ExecutionStore.CreationIsPermanent` | src/execution_store.rs:79-95 | ids and creation time of a record never change after it was created |
| `StoreHistory.AnswersAreHistory` | src/execution_store.rs:56-95 | over every call sequence every answer follows from the calls before: the first create of an id succeeds and no other, updates succeed from then on, and a read returns nothing before it and afterwards that create's ids and creation time with the state and time of the last update, or of the create if there is none |
| `StoreHistory.RedisAnswersAreHistory` | src/execution_store.rs:142-249 | the same for the Redis store, times cut to milliseconds |
| `ExecutionStore.DecodeExactlyWhen` | src/execution_store.rs:174-221 | the exact condition for each result of decoding a hash |
| `ExecutionStore.TruncationIsFloor` | src/execution_store.rs:129-139 | a stored time after the epoch loses less than a millisecond, and nothing when stored again |
| `ExecutionStore.MemoryExecutionStore.CreateExecution` | src/execution_store.rs:57-67 | adds the record, or refuses a known id and changes nothing |
| `ExecutionStore.MemoryExecutionStore.UpdateState` | src/execution_store.rs:79-95 | changes state and update time of a known record, or refuses and changes nothing |
| `ExecutionStore.RedisExecutionStore.CreateExecution` | src/execution_store.rs:143-172 | the create script: a new hash, or a refusal and no change |
| `ExecutionStore.RedisExecutionStore.Get` | src/execution_store.rs:174-221 | decodes the hash, with its error cases |
| `ExecutionStore.RedisExecutionStore.UpdateState` | src/execution_store.rs:223-248 | the update script: two fields of a known hash, or a refusal and no change |

## Left out

- Wakeups.NoLostWakeup: a session that has left its loop but not yet disconnected counts as awake; `Wakeups.HelpEndsExactlyWhen` and `Wakeups.HelpIsOnItsWay` are the forms without that.
- RedisListing.AvailableWorkers: models completed listings only; a failing Redis command ends the loop with an error. That every hash is under its own key holds for one registry and for prefixes that do not interfere, not for "a" and "a:worker:b" in one database, where the listing also names the other registry's workers.
- IncarnationId.RoundTrip: worker ids of more than 2^64 - 1 bytes, which no machine word can measure, are not covered.
- Membership.RegisterWorker: the handlers are stated over the memory registry; `WorkerRegistry.SameRuns` carries them over to Redis.
- ProtocolTheorems.LossIsBounded: counts the hands of stopped loops. A worker whose loop fails ends its process (src/worker/worker.rs:340-354), so its assignment table goes too and its list is never read again; the machine keeps the table and lets its sessions go on. `ProtocolReach.DeliverableExactlyWhen` accounts for the list.
- The direct pass-through RPC of the worker (src/worker/runtime.rs:510-525) forwards reports without lifecycle checks, so the report-order and agreement theorems cover the session path only.
- Two sessions sending events of one assignment at the same time: excluded by the assumption that such events are handled one after another.
- Server restarts and several control planes: the job table is local to its process while executions live in Redis.
- Recovery after a failed assignment publish, which the source leaves open deliberately (src/scheduler/scheduler.rs:151-152).
- The heartbeat loop (src/worker/worker.rs:363-395): a timer, a counter and a call whose answer is only logged.
- gRPC and TCP serving, streams, signals, command line, YAML and start-up output, Redis connections and protobuf encoding.
- Logging, host names, task metadata, the text form of UUIDs and the floating-point progress value, which is a validity flag here.
- The numbers of the execution states are defined outside the repository; the model uses distinct numbers of its own.
- Redis's special case of a pattern that consists of stars only on an empty key; a worker key is never empty.
- Strings compare by code point, which for UTF-8 is the byte order the source uses.
- Unimplemented RPCs and resource matching: there is no behaviour to prove.
