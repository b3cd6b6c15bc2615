/** Rows and enumerations of the coordinator's database, with the columns the task and
    worker protocol reads or writes. Timestamps, labels and command specifications are
    carried by the rows of the real tables but decide nothing here. */
module Schema {

  type TaskId = nat
  type WorkerId = nat
  type GroupId = nat
  type UserId = nat
  type Uuid = nat

  datatype Option<+T> = None | Some(value: T)

  datatype TaskState = Pending | Ready | Running | Finished | Cancelled | Unknown

  datatype WorkerState = Normal | GracefulShutdown

  /** The role a group has towards a worker; only roles above Read feed its queue. */
  datatype GroupWorkerRole = WorkerRead | WorkerWrite | WorkerAdmin

  /** The role a user has in a group. */
  datatype UserGroupRole = UserRead | UserWrite | UserAdmin

  datatype TaskResultMessage =
    | FetchResourceTimeout | ExecTimeout | UploadResultTimeout | ResourceNotFound
    | ResourceForbidden | WatchTimeout | UserCancellation | SubmitNewTaskFailed

  datatype TaskResultSpec = TaskResultSpec(exitStatus: int, msg: Option<TaskResultMessage>)

  /** A row of `active_tasks`. The row id is the key of the table. `number` is the column
      `task_id`, the position of the task within its group. */
  datatype Task = Task(
    uuid: Uuid,
    creator: UserId,
    group: GroupId,
    number: nat,
    tags: set<string>,
    priority: int,
    state: TaskState,
    worker: Option<WorkerId>,
    result: Option<TaskResultSpec>,
    upstream: Option<Uuid>,
    downstream: Option<Uuid>)

  /** A row of `archived_tasks`: the same columns and the worker that reported the task. */
  datatype Archived = Archived(task: Task, reporter: Option<Uuid>)

  /** A row of `workers`. */
  datatype Worker = Worker(
    uuid: Uuid,
    tags: set<string>,
    state: WorkerState,
    task: Option<TaskId>)

  /** What a worker reports about a task it holds. The upload report belongs to the storage
      ledger. `userActive` and `groupMatches` are the outcome of the lookups of the task's
      creator and of the group named in the request. */
  datatype Report =
    | Finish
    | Cancel
    | Submit(uuid: Uuid, tags: set<string>, priority: int,
             userActive: bool, groupMatches: bool, specOk: bool)
    | Commit(result: TaskResultSpec)

  /** Outcome of a service call, by the HTTP status the error type maps to. */
  datatype Reply = Ok | NotFound | InvalidRequest | PermissionDenied | QuotaExceeded | StorageFailure
}
