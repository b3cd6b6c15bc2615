/** Waiting for another task by polling: whether a looked-up row has reached a state of the
    task's execution, and what that says about the tables. */
module Watching {
  import opened Schema
  import opened Tables
  import opened Invariants
  import opened Protocol
  import opened Session

  datatype TaskExecState =
    | WorkerExited
    | FetchResource | FetchResourceFinished | FetchResourceError | FetchResourceTimedOut
    | FetchResourceNotFound | FetchResourceForbidden
    | Watch | WatchFinished | WatchTimedOut
    | ExecPending | ExecSpawned | ExecFinished | ExecTimedOut
    | UploadResult | UploadFinishedResult | UploadCancelledResult | UploadResultFinished
    | UploadResultTimedOut
    | TaskCommitted
    | UnknownExec

  function IsReach(state: TaskState, target: TaskExecState, result: Option<TaskResultSpec>): bool {
    match state
    case Pending => false
    case Ready => false
    case Unknown => false
    case Running => target == FetchResource
    case Finished =>
      if target == UploadResultFinished || target == TaskCommitted then result.Some?
      else target in {FetchResource, FetchResourceFinished, Watch, WatchFinished, ExecPending, ExecSpawned,
                      ExecFinished, UploadResult, UploadFinishedResult}
    case Cancelled => result.Some? && result.value.msg.Some? && ReachedBy(result.value.msg.value, target)
  }

  /** The columns of the table for cancelled tasks, one per message. */
  function ReachedBy(msg: TaskResultMessage, target: TaskExecState): bool {
    match msg
    case FetchResourceTimeout => target == FetchResourceTimedOut || target in GIVEN_UP
    case ExecTimeout => target == ExecTimedOut || target in GIVEN_UP
    case UploadResultTimeout => target == UploadResultTimedOut || target in GIVEN_UP
    case ResourceNotFound => target == FetchResourceNotFound || target in GIVEN_UP
    case ResourceForbidden => target == FetchResourceForbidden || target in GIVEN_UP
    case WatchTimeout => target == WatchTimedOut || target in GIVEN_UP
    case UserCancellation => target == TaskCommitted
    case SubmitNewTaskFailed =>
      target in {FetchResource, FetchResourceFinished, Watch, WatchFinished, ExecPending, ExecSpawned,
                 ExecFinished, UploadResult, UploadResultFinished, TaskCommitted}
  }

  const GIVEN_UP: set<TaskExecState> := {UploadResult, UploadCancelledResult, UploadResultFinished, TaskCommitted}

  /** The state that stands for a failure with the given message. */
  function FailureState(msg: TaskResultMessage): Option<TaskExecState> {
    match msg
    case FetchResourceTimeout => Some(FetchResourceTimedOut)
    case ExecTimeout => Some(ExecTimedOut)
    case UploadResultTimeout => Some(UploadResultTimedOut)
    case ResourceNotFound => Some(FetchResourceNotFound)
    case ResourceForbidden => Some(FetchResourceForbidden)
    case WatchTimeout => Some(WatchTimedOut)
    case UserCancellation => None
    case SubmitNewTaskFailed => None
  }

  predicate IsFailure(target: TaskExecState) {
    exists msg :: FailureState(msg) == Some(target)
  }

  /** Waiting for a failure is answered by the failure it stands for and by no other outcome. */
  lemma FailuresAreTold(state: TaskState, target: TaskExecState, result: Option<TaskResultSpec>)
    requires IsFailure(target)
    ensures IsReach(state, target, result) <==>
      state == Cancelled && result.Some? && result.value.msg.Some?
      && FailureState(result.value.msg.value) == Some(target)
  {
  }

  const REGULAR: set<TaskExecState> :=
    {FetchResource, FetchResourceFinished, Watch, WatchFinished, ExecPending, ExecSpawned, ExecFinished,
     UploadResult, UploadFinishedResult}

  /** A finished task has been through every regular stage. A Running one is known only to have
      started, others not even that. Cancellation by a user leaves nothing to wait for but the
      commit, and no row ever answers for a worker's exit, an error or an unknown state. */
  lemma StagesPassed(target: TaskExecState, result: Option<TaskResultSpec>, state: TaskState)
    ensures target in REGULAR ==> IsReach(Finished, target, result)
    ensures result.Some? ==> IsReach(Finished, UploadResultFinished, result)
    ensures target in {WorkerExited, FetchResourceError, UnknownExec} ==> !IsReach(state, target, result)
    ensures IsReach(Running, target, result) <==> target == FetchResource
    ensures state in {Pending, Ready, Unknown} ==> !IsReach(state, target, result)
    ensures result.Some? && result.value.msg == Some(UserCancellation) ==>
      (IsReach(Cancelled, target, result) <==> target == TaskCommitted)
  {
  }

  /** `row` is what the lookup by uuid returns: the active row if there is one, otherwise the
      archived one. */
  ghost predicate Shows(db: Db, u: Uuid, row: Task) {
    if exists t :: t in db.active && db.active[t].uuid == u
    then exists t :: t in db.active && db.active[t].uuid == u && row == db.active[t]
    else exists t :: t in db.archived && db.archived[t].task.uuid == u && row == db.archived[t].task
  }

  ghost predicate IsArchived(db: Db, u: Uuid) {
    exists t :: t in db.archived && db.archived[t].task.uuid == u
  }

  lemma ArchivedShown(db: Db, u: Uuid, row: Task)
    requires Inv(db) && Shows(db, u, row)
    ensures IsArchived(db, u) ==>
      exists t :: t in db.archived && db.archived[t].task.uuid == u && row == db.archived[t].task
    ensures !IsArchived(db, u) ==> exists t :: t in db.active && row == db.active[t]
  {
    if IsArchived(db, u) {
      var a :| a in db.archived && db.archived[a].task.uuid == u;
      assert a in Ids(db) && Row(db, a) == db.archived[a].task;
      forall t | t in db.active ensures db.active[t].uuid != u {
        assert t in Ids(db) && Row(db, t) == db.active[t];
      }
    }
  }

  /** In any reachable tables, polling for the commit answers yes exactly when the task is
      archived and, if it ended as cancelled, its result carries a message. */
  lemma PollingIff(db: Db, u: Uuid, row: Task)
    requires Inv(db) && Shows(db, u, row)
    ensures IsReach(row.state, TaskCommitted, row.result) <==>
      IsArchived(db, u) && (row.state == Cancelled ==> row.result.Some? && row.result.value.msg.Some?)
  {
    ArchivedShown(db, u, row);
    if IsArchived(db, u) {
      var t :| t in db.archived && db.archived[t].task.uuid == u && row == db.archived[t].task;
      assert SettledRow(db, db.archived[t]);
    }
  }

  /** A commit of a cancelled task without a message, which the coordinator accepts, would
      never be seen by a watcher. */
  lemma SilentCommitUnseen(db: Db, w: WorkerId, t: TaskId)
    requires CommitAccepted(db, w, t) && db.active[t].state == Cancelled
    ensures var db' := DbApply(db, ReportTask(w, t, Commit(TaskResultSpec(0, None))));
      t in db'.archived && !IsReach(db'.archived[t].task.state, TaskCommitted, db'.archived[t].task.result)
  {
  }

  /** Watching by polling is exact for the workers of this repository: in every session the
      poll answers yes exactly when the task is archived. */
  lemma WatchingIsExact(s: State, items: seq<Item>, u: Uuid, row: Task)
    requires Start(s) && Consistently(s, items) && AllDisciplined(items)
    requires Shows(SceneOf(s, items).s.db, u, row)
    ensures IsReach(row.state, TaskCommitted, row.result) <==> IsArchived(SceneOf(s, items).s.db, u)
  {
    var db' := SceneOf(s, items).s.db;
    SessionIsLegal(s, items);
    PollingIff(db', u, row);
    ArchivedShown(db', u, row);
    if IsArchived(db', u) {
      var t :| t in db'.archived && db'.archived[t].task.uuid == u && row == db'.archived[t].task;
      assert row.state == Cancelled ==> row.result.Some? && row.result.value.msg.Some?;
    }
  }
}
