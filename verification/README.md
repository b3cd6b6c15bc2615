# Verified model of the mito coordinator and worker

mito runs tasks on a fleet of workers. A coordinator keeps tasks, workers, groups and files in
database tables, keeps one priority queue per worker and one deadline per worker in memory, and
answers requests of users and workers. A worker fetches a task, runs it, reports and commits it.
This project models that behaviour in Dafny and proves what every run of it satisfies.

| file | part |
|---|---|
| `Schema.dfy`, `Tables.dfy` | rows, tables, and what each service call does to them |
| `Invariants.dfy`, `Guarantees.dfy` | what every step keeps, and what whole runs promise |
| `Dispatcher.dfy`, `Heartbeats.dfy` | the in-memory queues, as classes |
| `Protocol.dfy`, `Scheduling.dfy`, `Dispatching.dfy` | tables and queues together: the queues as an index, fetches, restarts, evictions, the race between pop and claim |
| `Effects.dfy` | what each call does to every row and every queue, with all roles and states spelled out |
| `Shutdown.dfy` | the forced shutdowns agree |
| `Coordinator.dfy` | the service calls as methods of a class, each tied to its protocol step |
| `Discipline.dfy`, `WorkerLoop.dfy`, `Session.dfy` | what a worker may send given what it has seen, the loop that keeps to it, and workers and coordinator together |
| `Watching.dfy` | waiting for another task by polling |
| `Ledger.dfy`, `Storage.dfy` | storage accounting, and the uploads and deletes that keep it |
| `LogWriter.dfy` | the line prefixer of worker logs |
| `Credentials.dfy` | the credential file |
| `Lists.dfy` | requests and query results as sequences |

How the parts fit: `Tables` says what a step does, `Invariants.StepKeeps` that every step keeps one
invariant. `Protocol` adds the queues, and `Scheduling.StepSound` shows that every step keeps them
an index of the tables. `Coordinator.Service` runs the statements and messages of each call in
order and is proved to take exactly the protocol's step. The protocol assumes that only idle
workers fetch, and one fetch at a time. `WorkerLoop.TaskExecutor.Run` shows, for every sequence of
answers, that the worker loop keeps to a discipline. `Session.SessionIsLegal` shows that with such
workers the coordinator takes a legal run of the whole protocol, tables, queues and candidates,
with other steps between the pops and claims of a fetch. So the theorems about the protocol's runs
hold of every session (`Session.SessionLosesNothing`, `Session.SessionFetchAnswers`,
`Session.SessionEvictsLate`). The discipline also ties what a worker tells to what it has seen, so
that in every session a reported row in the archive says what happened on a worker
(`Session.ArchiveIsTrue`).

The invariants do not fix what a single call does: a call that does nothing keeps them too.
`Effects` does, call by call.

Some expectations do not hold of the code in full. Each has a lemma with the exact condition:

- The server does not check that a fetching worker is live and idle. A claim keeps the invariant,
  and in particular the two copies of "who holds what" in agreement, if and only if it fails or the
  worker is live and idle (`Guarantees.ClaimKeepsInvIff`, `Guarantees.ClaimKeepsHoldingIff`). A busy
  worker's claim strands its first task (`Guarantees.BusyClaimStrands`). A claim after the worker
  was removed strands the new one (`Dispatching.RemovedClaimStrands`), and of all steps only a
  forced shutdown by filter naming the dead worker would release it (`Guarantees.StrandedStepIff`).
- Lengths are cast from unsigned to signed 64-bit numbers. A negative cast is refused when the
  upload link is requested (`Ledger.NegativeCastRefused`). The new total is not checked: in release
  builds, which the model follows, it wraps around, and in debug builds the addition panics. An
  accepted upload keeps the ledger right if and only if the total fits (`Ledger.UploadArtifactIff`,
  `Ledger.UploadAttachmentIff`), and a run keeps it right throughout if and only if all accepted
  uploads fit (`Ledger.AlwaysSaneIff`). No quota of zero or more refuses one that does not
  (`Ledger.ChargeWraps`); `Ledger.HugeLength` shows one.
- Between a pop and its claim a user can retag the candidate, and the claim still succeeds
  (`Dispatching.RetaggedClaim`). The claim gives the worker a task it can run if and only if the
  task can still be claimed and the last accepted request for other tags since the pop, if any,
  names only tags of the worker (`Dispatching.ClaimEligibleIff`).
- The coordinator accepts a commit of a cancelled task without a message, and a watcher would never
  see it (`Watching.SilentCommitUnseen`, `Watching.PollingIff`). This repository's worker always
  sends one, so for its sessions watching is exact (`Watching.WatchingIsExact`).
- A carriage return at the end of a token does not survive a rewrite of the credential file unless
  its line is the last (`Credentials.ReadAfterWriteIff`, `Credentials.OthersKeptIff`,
  `Credentials.LaterWriteWinsIff`, `Credentials.CarriageReturnLost`).
- The guide says that worker tags must be empty or contain the task's tags
  (`guide/src/guide/architecture.md`, line 110). The code asks for containment, and so does the model.

`dafny verify dfyconfig.toml` checks the whole project.

## Model

| member | source | states |
|---|---|---|
| `Invariants.StepKeeps` | netmito/src/service/worker/mod.rs:218-747 | every step of the coordinator keeps the whole invariant (unique uuids and numbers, agreement of the two holder columns, rooted chains, causality, settled archive, leaving workers are busy) and loses or renames no task |
| `Invariants.RunKeeps` | netmito/src/service/worker/mod.rs:493-747 | the same for every run of any length |
| `Invariants.CommitKeeps` | netmito/src/service/worker/mod.rs:650-710 | a commit with the release of its downstream task keeps the invariant: the released task's upstream is the one just archived |
| `Invariants.SpawnKeeps` | netmito/src/service/worker/mod.rs:587-649 | a task spawned by a report is inserted Pending and linked both ways without breaking any chain |
| `Invariants.SubmissionKeeps` | netmito/src/service/task.rs:62-99 | an insertion uses a fresh number of its group; a refused specification uses up a number and inserts nothing |
| `Invariants.CancelKeeps` | netmito/src/service/task.rs:427-488 | archiving any set of Ready or Pending tasks keeps the invariant, so no held task is touched |
| `Guarantees.ClaimKeepsInvIff` | netmito/src/service/worker/mod.rs:512-529 | the compare-and-set claim keeps the whole invariant exactly when it fails or the worker is live and idle |
| `Invariants.EvictKeeps` | netmito/src/service/worker/mod.rs:960-1012 | force removal of any set of workers keeps the invariant |
| `Invariants.RetireKeeps` | netmito/src/service/worker/mod.rs:1013-1076 | graceful removal keeps it: idle workers go, busy ones are marked |
| `Invariants.HeldIsAssigned` | netmito/src/service/worker/mod.rs:1241-1279 | tasks found through `assigned_task_id` are those found through `assigned_worker` |
| `Guarantees.ExclusiveHolding` | netmito/src/service/worker/mod.rs:512-529 | in every reachable database, and for any queue contents, task and worker name each other or neither does; exactly Running, Finished and Cancelled tasks are held |
| `Guarantees.ClaimKeepsHoldingIff` | netmito/src/service/worker/mod.rs:512-529 | a claim keeps that agreement exactly when it fails or the worker is live and idle |
| `Guarantees.BusyClaimStrands` | netmito/src/service/worker/mod.rs:218-258 | a second claim by a busy worker leaves its first task held by a deleted worker after removal |
| `Guarantees.DeadClaimStrands` | netmito/src/service/worker/mod.rs:512-529 | a claim for a worker whose row is gone leaves the task Running and held by nobody |
| `Guarantees.StrandedStepIff` | netmito/src/service/worker/mod.rs:960-1012 | a step leaves such a task stranded exactly if it is not a forced shutdown by filter naming the dead worker |
| `Guarantees.StrandedStays` | netmito/src/service/worker/mod.rs:218-258 | so it stays stranded in every run in which filters select live workers |
| `Guarantees.ChainsEnd` | netmito/src/service/task.rs:139-198 | upstream links strictly decrease row ids, so every chain ends |
| `Guarantees.AncestorsCommitted` | netmito/src/service/task.rs:200-248 | once a task has left Pending, all tasks it descends from are archived and were committed by workers |
| `Guarantees.ReportedStays` | netmito/src/service/worker/mod.rs:555-586 | after an accepted Finish or Cancel the task stays done until its worker commits or is removed, and the commit is not refused as not done |
| `Guarantees.LeavingNeverFetches` | netmito/src/service/worker/mod.rs:307-321 | a worker marked for graceful shutdown keeps its one task while its row exists and has no row once that task is archived |
| `Guarantees.CommitDropsLeaving` | netmito/src/service/worker/mod.rs:685-705 | the commit that archives the task deletes the leaving worker's row and group rows in the same step |
| `Guarantees.GoneStays` | netmito/src/service/worker/mod.rs:259-270 | a deleted worker row never comes back |
| `Guarantees.Conservation` | netmito/src/service/task.rs:1166-1255 | every inserted task is in exactly one table with its identity unchanged; numbers are unique across both tables and bounded; archived rows are done, carry a result and name their reporter's worker |
| `Effects.SubmitEffect` | netmito/src/service/task.rs:62-99 | the exact tables after a submission: a Ready row with the next number and the request's fields, only a raised counter, or nothing |
| `Effects.SubmitOffers` | netmito/src/service/task.rs:101-128 | the new task is pushed, with its priority, to exactly the queues of live workers with a role above Read and tags containing its tags |
| `Effects.SubmitIsFetchable` | netmito/src/service/task.rs:101-128 | so every such worker has it waiting |
| `Effects.SpawnEffect` | netmito/src/service/task.rs:139-198 | the exact tables after a submission by report: a Pending row with its upstream, and the link from the reporting task |
| `Effects.SpawnReplyIff` | netmito/src/service/worker/mod.rs:587-649 | such a report is answered Ok exactly if a task was inserted |
| `Effects.ChangeEffect` | netmito/src/service/task.rs:250-313 | an accepted change gives the one Ready task exactly the tags and priority asked for and touches no other row |
| `Effects.ChangeRefused` | netmito/src/service/task.rs:250-313 | a change of a task that is not Ready, without a write role, with a bad specification or of nothing changes nothing |
| `Effects.ChangeOffers` | netmito/src/service/task.rs:315-346 | afterwards exactly the queues of workers that can run the task hold it, with its new priority |
| `Effects.AnnounceEffect` | netmito/src/service/worker/mod.rs:567-586 | Finish and Cancel set the state of the held task and nothing else |
| `Effects.ForeignReport` | netmito/src/service/worker/mod.rs:555-566 | a report about a task the worker does not hold is not-found and changes nothing |
| `Effects.CommitEffect` | netmito/src/service/worker/mod.rs:650-710 | the archived row carries the committed result and the worker's uuid, the waiting downstream task becomes Ready, the worker is freed or deleted, and no other row changes |
| `Effects.CommitReplyIff` | netmito/src/service/worker/mod.rs:650-724 | a commit is refused as not done exactly if the task is Running, and Ok exactly if its downstream task, if any, waits |
| `Effects.ReleasedIsFetchable` | netmito/src/service/task.rs:200-248 | the released task waits for every live worker that can run it |
| `Effects.ClaimEffect` | netmito/src/service/worker/mod.rs:512-529 | a claim takes exactly a Ready task without a worker, and then both rows name each other |
| `Effects.CancelEffect` | netmito/src/service/task.rs:427-488 | exactly the tasks that are named, in a cancellable state and writable move, as cancelled by a user |
| `Effects.CancelUnqueues` | netmito/src/service/task.rs:1413-1440 | exactly those leave the queues |
| `Effects.EnrolEffect` | netmito/src/service/worker/mod.rs:40-136 | the exact tables after a registration |
| `Effects.EnrolFills` | netmito/src/service/worker/mod.rs:151-204 | the new queue holds exactly the active tasks the worker can run, with their priorities, and the deadline is set |
| `Effects.RemovalEffect` | netmito/src/service/worker/mod.rs:960-1012 | each form of forced removal makes exactly the held tasks Ready and nobody's and deletes exactly the workers' rows |
| `Effects.RetireEffect` | netmito/src/service/worker/mod.rs:1013-1076 | idle workers go, busy ones are marked and keep their task |
| `Effects.HeartbeatEffect` | netmito/src/service/worker/heartbeat.rs:52-56 | the worker's deadline moves and nothing else |
| `Dispatcher.TopExists` | netmito/src/service/worker/queue.rs:99-106 | a queue that is not empty has an entry of greatest priority |
| `Dispatcher.EntriesOfRows` | netmito/src/service/worker/queue.rs:65-72 | pushing the rows of a query one by one gives the query's result as a queue |
| `Dispatcher.TaskDispatcher.AddTasks` | netmito/src/service/worker/queue.rs:65-72 | the loop merges all given tasks into one worker's queue, later priorities winning |
| `Dispatcher.TaskDispatcher.BatchAddTask` | netmito/src/service/worker/queue.rs:74-79 | the loop pushes a task to every listed worker that is registered |
| `Dispatcher.TaskDispatcher.BatchAddTasks` | netmito/src/service/worker/queue.rs:81-90 | every listed worker that is registered gets every task |
| `Dispatcher.TaskDispatcher.RemoveTask` | netmito/src/service/worker/queue.rs:92-97 | the task leaves every queue and nothing else changes |
| `Dispatcher.TaskDispatcher.FetchTask` | netmito/src/service/worker/queue.rs:99-106 | pops an entry of greatest priority; none exactly when the worker has no queue or an empty one |
| `Dispatcher.TaskDispatcher.HandleOp` | netmito/src/service/worker/queue.rs:108-147 | each message has the effect of its operation, a fetch answers with a popped top entry, and the dispatcher stops exactly when the channel is closed or an answer cannot be delivered |
| `Scheduling.StepSound` | netmito/src/service/worker/mod.rs:493-545 | every step keeps the queues an index of the tables: no Ready task missing, no entry out of date, deadlines set by the last heartbeat |
| `Scheduling.ReachableSound` | netmito/src/service/worker/queue.rs:58-106 | the same in every reachable state |
| `Dispatching.NoReadyTaskLost` | netmito/src/service/worker/mod.rs:497-543 | with pop and claim as separate steps interleaved with all others, every Ready task is queued for each live worker that can run it or is that worker's candidate |
| `Dispatching.FetchAnswersQuery` | netmito/src/service/worker/mod.rs:493-545 | the fetch loop claims a Ready task of greatest priority among those the worker can run, and ends empty only if there is none |
| `Dispatching.FetchInEveryRun` | netmito/src/service/worker/mod.rs:493-545 | the same from every reachable state |
| `Dispatching.RestartRecovers` | netmito/src/service/worker/mod.rs:138-204 | the dispatcher rebuilt from the tables gives each worker the same claimable tasks with the same priorities as the one lost |
| `Dispatching.EvictionIsLate` | netmito/src/service/worker/heartbeat.rs:69-110 | a worker evicted by timeout has the earliest deadline and was last heard of at least the timeout ago |
| `Dispatching.LiveWorkersServed` | netmito/src/service/worker/mod.rs:151-166 | every live worker has a deadline and a queue |
| `Dispatching.EligibleStepIff` | netmito/src/service/task.rs:250-352 | a step that leaves task and worker in place keeps the worker able to run the task exactly if it is not an accepted change to tags the worker lacks |
| `Dispatching.EligibleRunIff` | netmito/src/service/task.rs:250-352 | over any run the same holds of the last accepted change of tags; refused requests and priority changes do not matter |
| `Dispatching.ClaimEligibleIff` | netmito/src/service/worker/mod.rs:497-543 | the claim of a popped candidate gives the worker a task it can run exactly if the task is still claimable and the last accepted retag since the pop, if any, is within the worker's tags |
| `Dispatching.RetaggedClaim` | netmito/src/service/task.rs:250-352 | a change between pop and claim can let a worker claim a task it cannot run |
| `Dispatching.RemovedClaimStrands` | netmito/src/service/worker/mod.rs:512-529 | pop, removal of the worker, then claim strands the task, whatever happens afterwards |
| `Shutdown.ShutdownFormsAgree` | netmito/src/service/worker/mod.rs:1085-1142 | shutdown by filter, by uuid and one by one in any order end in the same tables, queues and deadlines |
| `Shutdown.OneByOneIsForced` | netmito/src/service/worker/mod.rs:218-285 | removing workers one after another equals one forced shutdown of all of them |
| `Shutdown.UuidsIsForced` | netmito/src/service/worker/mod.rs:1352-1409 | the uuid form releases and offers what the filter form does |
| `Shutdown.ForcedTwice` | netmito/src/service/worker/mod.rs:960-1012 | two forced shutdowns in a row equal one of the union |
| `Heartbeats.EarliestExists` | netmito/src/service/worker/heartbeat.rs:69-110 | a heartbeat queue that is not empty has an earliest deadline |
| `Heartbeats.HeartbeatQueue.PopExpired` | netmito/src/service/worker/heartbeat.rs:69-110 | removes the earliest deadline if it has passed; nobody is removed exactly when no deadline has passed |
| `Heartbeats.HeartbeatQueue.NextWait` | netmito/src/service/worker/heartbeat.rs:112-151 | sleeps until the earliest deadline, or the full timeout when nobody is queued |
| `Coordinator.Service.SubmitTask` | netmito/src/service/task.rs:47-137 | the call takes the submit step and offers the task to exactly the workers that can run it |
| `Coordinator.Service.SubmitPendingTask` | netmito/src/service/task.rs:139-198 | inserts a Pending task with its upstream, or refuses it after raising the counter |
| `Coordinator.Service.TriggerPendingTask` | netmito/src/service/task.rs:200-248 | makes the named Pending task Ready and offers it; not-found exactly when there is none |
| `Coordinator.Service.ChangeTask` | netmito/src/service/task.rs:250-352 | takes the change step: the row is updated, removed from every queue and offered again |
| `Coordinator.Service.CancelTask` | netmito/src/service/task.rs:427-493 | archives a Ready task the user may write to and takes it out of every queue |
| `Lists.FailedRemains` | netmito/src/service/task.rs:1440-1452 | the failures of a batch are the request without what was found: every other element as often as it occurs, at increasing places |
| `Lists.Unfound` | netmito/src/service/task.rs:1440-1452 | the loop computes them |
| `Coordinator.Service.CancelTasksByUuids` | netmito/src/service/task.rs:1278-1452 | for any list with duplicates and any chunk size: the effect of one cancellation of the whole list, the number of tasks moved, and as failures all others in their order; the empty list is refused |
| `Coordinator.Service.RegisterWorker` | netmito/src/service/worker/mod.rs:40-136 | takes the registration step: rows, deadline and a queue filled from the tables |
| `Coordinator.Service.SetUpWorkerQueues` | netmito/src/service/worker/mod.rs:151-204 | the worker's queue becomes every active task it can run |
| `Coordinator.Service.RestoreWorkers` | netmito/src/service/worker/mod.rs:138-149 | the loop over all worker rows takes the restart step |
| `Coordinator.Service.FetchTask` | netmito/src/service/worker/mod.rs:493-545 | for a busy or an idle worker the loop terminates and returns a best Ready task the worker can run, or none exactly when there is none; for an idle one it takes the protocol's steps |
| `Coordinator.Service.ReportTask` | netmito/src/service/worker/mod.rs:547-724 | each report other than an upload takes its step and is answered as the tables say |
| `Coordinator.Service.RemoveWorker` | netmito/src/service/worker/mod.rs:218-285 | releases and offers the held task while the worker's rows exist, then deletes and unregisters |
| `Coordinator.Service.Heartbeat` | netmito/src/service/worker/mod.rs:449-479 | renews the deadline, or removes a worker whose task is overdue |
| `Coordinator.OverdueMeans` | netmito/src/service/worker/mod.rs:455-469 | a task is overdue exactly if it is Running and more than a minute beyond its timeout |
| `Coordinator.NamedMeans` | netmito/src/service/worker/mod.rs:1188-1214 | a listed worker may be shut down exactly by a user who is Admin in a group with role Admin for it |
| `Coordinator.Service.HandleTimeout` | netmito/src/service/worker/heartbeat.rs:69-110 | evicts the earliest expired worker; does nothing exactly when no deadline has passed |
| `Coordinator.Service.ShutdownByFilter` | netmito/src/service/worker/mod.rs:960-1012 | takes the forced shutdown step |
| `Coordinator.Service.RetireByFilter` | netmito/src/service/worker/mod.rs:1013-1076 | takes the graceful shutdown step |
| `Coordinator.Service.ShutdownByUuids` | netmito/src/service/worker/mod.rs:1241-1279 | for any chunk size, the chunk transactions followed by the messages equal one forced shutdown of all named workers the user may shut down; failures are the request in order without those; the empty list is refused |
| `Coordinator.Service.RetireByUuids` | netmito/src/service/worker/mod.rs:1280-1329 | for any chunk size, the effect of one graceful shutdown of all named workers, also when a later chunk names a worker already marked; failures as above |
| `Coordinator.Service.RemoveWorkerByUuid` | netmito/src/service/worker/mod.rs:295-323 | by force the removal step, gracefully the graceful step (an idle worker is removed either way); not-found exactly when no worker has the uuid |
| `Coordinator.RetireTwice` | netmito/src/service/worker/mod.rs:1280-1329 | two graceful shutdowns in a row equal one of the union |
| `Discipline.DisciplineMeans` | netmito/src/worker.rs:416-498 | in a disciplined log, between a fetch that brought a task and any later fetch a commit of that task was answered with success or not-found, and no fetch follows the cancellation of the token |
| `Discipline.OrderMeans` | netmito/src/worker.rs:1023-1436 | about one held task, all announcements say the same and end with the first delivered one, and neither announcement nor upload follows the submission of a follow-up task |
| `Discipline.AnnouncedFirst` | netmito/src/worker.rs:1023-1436 | uploads, submissions and commits of a fetched task come after its announcement |
| `Discipline.TruthMeans` | netmito/src/worker.rs:1032-1044 | a worker announces Finish only if the command ended and Cancel only if it was stopped or the task given up since the fetch, and commits exactly the exit status and message that these events, a late upload or a failed follow-up call for |
| `Discipline.ReadyToRun` | netmito/src/worker.rs:576-880 | a command is started only after every resource was downloaded and the watched task was waited for |
| `Discipline.StopsForAReason` | netmito/src/worker.rs:416-498 | a worker that cancels its own token has an error or a lost registration in its log |
| `WorkerLoop.TaskExecutor.ReportTask` | netmito/src/worker.rs:1438-1496 | for every script of answers: an error exactly if the last answer is one, a normal end with success, not-found or a cancelled token, and lost connections before |
| `WorkerLoop.TaskExecutor.RunCommand` | netmito/src/worker.rs:870-1012 | the command counts as finished exactly if the event that ended the wait for it says so, and the exit status is that of the event that ended it |
| `WorkerLoop.TaskExecutor.FetchResource` | netmito/src/worker.rs:590-826 | one resource less is missing, or the task is given up with the reason of the failure, or something ends the work |
| `WorkerLoop.TaskExecutor.GiveUp` | netmito/src/worker.rs:623-650 | announces Cancel and commits the reason |
| `WorkerLoop.TaskExecutor.ExecuteTask` | netmito/src/worker.rs:576-1021 | keeps the log disciplined, hence true; every normal return leaves the worker holding nothing or its token cancelled, and errors have a cause |
| `WorkerLoop.TaskExecutor.ProcessTaskResult` | netmito/src/worker.rs:1023-1436 | for a task that came out as given: announces that outcome, uploads, follows up and commits the result that is due |
| `WorkerLoop.TaskExecutor.CommitResult` | netmito/src/worker.rs:1398-1422 | after the uploads, commits with the message that the follow-up and the outcome call for |
| `WorkerLoop.TaskExecutor.SubmitNewTask` | netmito/src/worker.rs:1498-1547 | submits exactly the request the task left, and says whether it was unreadable or refused |
| `WorkerLoop.TaskExecutor.Run` | netmito/src/worker.rs:416-498 | for every script the log is disciplined, the exit flag is set exactly on a lost registration, and the loop ends only when the token is cancelled or the process killed |
| `Session.SessionIsLegal` | netmito/src/worker.rs:416-498 | disciplined workers and a coordinator answering them make a legal run of the whole protocol, with other steps between pops and claims; every state is sound and every cancelled archived task has a message |
| `Session.FetchersAreIdle` | netmito/src/service/worker/mod.rs:493-545 | in every session a live worker that sends a fetch holds no task, has no candidate and no other fetch in progress |
| `Session.SessionLosesNothing` | netmito/src/service/worker/mod.rs:497-543 | in every session a Ready task is queued for each live worker that can run it or is its candidate |
| `Session.SessionFetchAnswers` | netmito/src/service/worker/mod.rs:493-545 | in every session a fetch answers the query on the tables |
| `Session.SessionEvictsLate` | netmito/src/service/worker/heartbeat.rs:69-110 | in every session a worker evicted by timeout was last heard of at least the timeout ago |
| `Session.ArchiveIsTrue` | netmito/src/worker.rs:1023-1436 | in every session a reported task in the archive is Finished with the exit status with which a worker saw its command end, or Cancelled with that of the stopped command or the reason it was given up for |
| `Session.ReportAgrees` | netmito/src/service/worker/mod.rs:650-724 | after a commit answered with success or not-found the worker's row names no task |
| `Watching.PollingIff` | netmito/src/entity/state.rs:88-148 | polling for TaskCommitted answers yes exactly when the task is archived and, if cancelled, its result has a message |
| `Watching.SilentCommitUnseen` | netmito/src/entity/state.rs:111-143 | a cancelled commit without a message is archived and never seen |
| `Watching.FailuresAreTold` | netmito/src/entity/state.rs:117-139 | waiting for a failure is answered by exactly the message that stands for it |
| `Watching.StagesPassed` | netmito/src/entity/state.rs:88-116 | which stages each state is known to have passed |
| `Watching.WatchingIsExact` | netmito/src/service/task.rs:495-630 | in every session polling answers yes exactly when the task is archived |
| `Ledger.UploadArtifactIff` | netmito/src/service/s3.rs:404-529 | an accepted upload keeps the ledger exact exactly when the new total fits in a signed 64-bit number, and the group is then within its quota |
| `Ledger.UploadAttachmentIff` | netmito/src/service/s3.rs:861-983 | the same for attachments |
| `Ledger.ChargeExactIff` | netmito/src/service/s3.rs:458-510 | the recorded size is not negative, and the new total is the true one exactly when that one fits |
| `Ledger.ChargeWraps` | netmito/src/service/s3.rs:458-510 | otherwise the new total is negative, so that no quota of zero or more refuses it |
| `Ledger.AcceptsIff` | netmito/src/service/s3.rs:417-470 | an artifact upload that fits is accepted exactly if the group is active, the link is granted and what it then stores is within the quota |
| `Ledger.AttachmentAcceptsIff` | netmito/src/service/s3.rs:890-925 | the same for attachments |
| `Ledger.RecordedIsMax` | netmito/src/service/s3.rs:461-463 | the recorded size is the larger of the announced length and the size before |
| `Ledger.UploadEffect` | netmito/src/service/s3.rs:475-520 | an accepted upload changes one row, with the time of the upload, and one account |
| `Ledger.NegativeCastRefused` | netmito/src/service/s3.rs:85-93 | a length whose cast is negative leaves everything as it was |
| `Ledger.DropArtifactSane` | netmito/src/service/s3.rs:315-368 | a delete refunds exactly the recorded size of the row |
| `Ledger.DropAttachmentSane` | netmito/src/service/s3.rs:785-823 | the same for attachments |
| `Ledger.ProtocolKeepsOwners` | netmito/src/service/s3.rs:292-313 | commits, cancels and all other steps leave every group the files it owned, since a task keeps its group in either table |
| `Ledger.EventSaneIff` | netmito/src/service/s3.rs:404-529 | a storage call or coordinator step keeps the ledger sane exactly if it is not an accepted upload whose total does not fit |
| `Ledger.AlwaysSaneIff` | netmito/src/service/s3.rs:404-529 | a run keeps the ledger sane throughout exactly if all accepted uploads fit |
| `Ledger.LedgerBalanced` | netmito/src/service/s3.rs:404-529 | then in every state `storage_used` equals the recorded sizes of the group's attachments and of the artifacts of its active and archived tasks, and is not negative |
| `Ledger.HugeLength` | netmito/src/service/s3.rs:882-958 | an accepted length after which the total is negative |
| `Storage.Store.FindTask` | netmito/src/service/s3.rs:292-313 | the one group of the task, in whichever table it is; none exactly when there is no such task |
| `Storage.Store.GroupUploadArtifact` | netmito/src/service/s3.rs:404-529 | the upload's effect, and success exactly when it is accepted |
| `Storage.Store.UserUploadArtifact` | netmito/src/service/s3.rs:531-551 | success exactly for a task in a group the user may write to and an accepted length; not-found and permission errors exactly in their cases; otherwise nothing changes |
| `Storage.Store.ReportUpload` | netmito/src/service/worker/mod.rs:725-744 | a worker's upload report has the upload's effect for a task it holds and is not-found otherwise |
| `Storage.Store.UserUploadAttachment` | netmito/src/service/s3.rs:861-983 | success exactly with a valid key, a write role and an accepted length |
| `Storage.Store.DeleteArtifact` | netmito/src/service/s3.rs:315-368 | success exactly when the row exists and is old enough or an admin asks; a second delete finds nothing |
| `Storage.Store.DeleteAttachment` | netmito/src/service/s3.rs:785-823 | removes the row and refunds its size, or changes nothing |
| `Storage.Store.DeleteArtifactsByUuids` | netmito/src/service/s3.rs:1261-1343 | however uuids repeat within or across chunks: exactly the deletable rows go, each is counted and refunded once, and the failures are the request in order without them |
| `Storage.DeletableMeans` | netmito/src/service/s3.rs:1285-1310 | deletable are listed artifacts untouched for an hour whose task is in a group where the user has Write or Admin |
| `Storage.OldKeysMean` | netmito/src/service/s3.rs:1437-1442 | and listed attachments untouched for an hour |
| `Storage.Store.DeleteAttachmentsByKeys` | netmito/src/service/s3.rs:1400-1468 | exactly the old enough listed keys of the group go, with count and failures, or the call is refused |
| `LogWriter.WorkerIdWriter.Write` | netmito/src/config/worker.rs:55-90 | delivered plus buffered bytes are the byte-by-byte prefixing of all input; between lines at most 4096 bytes are buffered |
| `LogWriter.WorkerIdWriter.Flush` | netmito/src/config/worker.rs:45-51 | everything is delivered |
| `LogWriter.WorkerIdWriter.Session` | netmito/src/config/worker.rs:20-96 | for any cutting into writes and flushes the delivered bytes depend on the input alone, and stripping prefixes recovers it |
| `LogWriter.PrefixReads` | netmito/src/config/worker.rs:36-36 | the prefix reads [worker:id] and a space |
| `LogWriter.StripPrefixed` | netmito/src/config/worker.rs:34-43 | stripping inverts prefixing |
| `LogWriter.PrefixedAppend` | netmito/src/config/worker.rs:55-90 | prefixing a stream can be done piece by piece |
| `Credentials.CredentialFile.ExtractCredential` | netmito/src/service/auth/cred.rs:86-113 | for any name the first line starting with it and a colon, split at its first colon, which for names without a colon is the token of the user; without a name the first line so split |
| `Credentials.CredentialFile.ModifyOrAppend` | netmito/src/service/auth/cred.rs:115-141 | the loop and the join give the updated file |
| `Credentials.ReadAfterWriteIff` | netmito/src/service/auth/cred.rs:115-141 | a written token is read back exactly when it does not end in a carriage return or its line comes last |
| `Credentials.OthersKeptIff` | netmito/src/service/auth/cred.rs:115-141 | another user's token is unchanged exactly when it does not end in a carriage return or its line stays last |
| `Credentials.LaterWriteWinsIff` | netmito/src/service/auth/cred.rs:115-141 | for any file: when exactly a second write of a user gives each reader what it would have given without the first |
| `Credentials.LaterWriteWins` | netmito/src/service/auth/cred.rs:115-141 | without carriage returns a second write always overrides the first |
| `Credentials.JoinThenLines` | netmito/src/service/auth/cred.rs:76-84 | what reading gives back of joined lines |
| `Credentials.CarriageReturnLost` | netmito/src/service/auth/cred.rs:120-136 | a token that loses its carriage return when another user logs in |

## Left out

Assumptions of the model:

- The database work of one service call is one step and database calls succeed. The two statements of a claim are one step, taken by a worker whose row exists.
- Queue and heartbeat messages are handled in the order sent, before the next step. Pop and claim are separate steps in `Protocol`.
- A candidate is dropped when its worker's row is deleted between pop and claim; the code would try the claim, and `Dispatching.RemovedClaimStrands` shows what that does.
- Requests of a worker come from one whose row exists, as the authentication middleware looks it up, and uuids and row ids of new rows are fresh.
- Worker tags and group roles are fixed after registration. The calls that edit them (`netmito/src/service/worker/mod.rs`, lines 1567 to 1847) send nothing to the dispatcher.
- The library priority queue is a map with a pop of some entry of greatest priority.
- Timestamps matter only for heartbeats and for the one-hour rule of deletes.

Weaker than the code or partial:

- Dispatching.LiveWorkersServed: claims that live workers have a queue and a deadline, not the converse, because a commit whose downstream task is gone returns before its unregister messages.
- Coordinator.Service.ShutdownByUuids: says nothing about the count, which may count a worker several times because the permission join can repeat it.
- Coordinator.Service.RetireByUuids: the same.
- Coordinator.Service.Heartbeat: the age of the task row and its timeout are parameters.
- Credentials.LaterWriteWins: for files without carriage returns; `Credentials.LaterWriteWinsIff` is the general law.
- Dispatching.NoReadyTaskLost: a worker removed between pop and claim does not claim its candidate, as said above.
- WorkerLoop.TaskExecutor.Run: a run ends when its script of events ends, which stands for the process being killed at that point; the number of events is not bounded.
- LogWriter.WorkerIdWriter.Write: inner writes succeed.
- Storage.Store.DeleteArtifactsByUuids: starts from a ledger that is exact; the outcome of each object deletion is a parameter.
- Cancellation by filter is a step over any set of matching tasks, restricted to Ready and Pending; how a filter selects tasks, and the fallback when the requested states intersect to nothing, are not modelled.

Not modelled:

- HTTP routing, client commands, interactive shell, manager, configuration, migrations, batch submission.
- S3, Redis, processes, archives, tokens and password hashing, except for the outcomes they return.
- Races between statements inside a service call, and the group row read before the upload transaction.
- Stopping of the coordinator when a fetch reply cannot be delivered: it ends the run.
- Numeric filters, paging, name validation, quota parsing, users and groups: they would only add easy members.
- The table of execution states announced through Redis (`netmito/src/entity/state.rs`, lines 234 to 262).
