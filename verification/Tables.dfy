/** The coordinator's tables and what each service call does to them. One service call is one
    step: its statements are taken together. Calls into the in-memory queues are in Protocol. */
module Tables {
  import opened Schema

  /** `taskCount` is the counter column of `groups`; `enrolled` remembers the uuid of every
      worker row ever inserted, so that rows deleted later can still be named. */
  datatype Db = Db(
    active: map<TaskId, Task>,
    archived: map<TaskId, Archived>,
    workers: map<WorkerId, Worker>,
    groupWorker: map<WorkerId, map<GroupId, GroupWorkerRole>>,
    userGroup: map<(UserId, GroupId), UserGroupRole>,
    taskCount: map<GroupId, nat>,
    nextTask: TaskId,
    enrolled: map<WorkerId, Uuid>)

  /** Every way the coordinator moves. The last five steps leave the tables alone. */
  datatype Step =
    | SubmitTask(creator: UserId, group: GroupId, tags: set<string>, priority: int,
                 uuid: Uuid, specOk: bool)
    | ChangeTask(user: UserId, uuid: Uuid, newTags: Option<set<string>>,
                 newPriority: Option<int>, otherChange: bool, specOk: bool)
    | CancelTask(user: UserId, uuid: Uuid)
    | CancelTasks(user: UserId, uuids: set<Uuid>)
    | CancelByFilter(matching: set<TaskId>)
    | RegisterWorker(w: WorkerId, badge: Uuid, tags: set<string>,
                     roles: map<GroupId, GroupWorkerRole>)
    | Claim(w: WorkerId, t: TaskId)
    | ReportTask(w: WorkerId, t: TaskId, report: Report)
    | RemoveWorker(w: WorkerId)
    | ForceShutdown(ws: set<WorkerId>)
    | ForceShutdownByUuids(ws: set<WorkerId>)
    | GracefulShutdownOf(ws: set<WorkerId>)
    | Pop(w: WorkerId, t: TaskId)
    | Heartbeat(w: WorkerId)
    | Expire(w: WorkerId)
    | Tick(seconds: nat)
    | Restart

  // ----- reading the tables

  ghost function Ids(db: Db): set<TaskId> {
    db.active.Keys + db.archived.Keys
  }

  ghost function Row(db: Db, t: TaskId): Task
    requires t in Ids(db)
  {
    if t in db.active then db.active[t] else db.archived[t].task
  }

  ghost predicate FreshUuid(db: Db, u: Uuid) {
    forall t :: t in Ids(db) ==> Row(db, t).uuid != u
  }

  predicate Cancellable(row: Task) {
    row.state == Ready || row.state == Pending
  }

  predicate Done(row: Task) {
    row.state == Finished || row.state == Cancelled
  }

  predicate MayWrite(db: Db, user: UserId, group: GroupId) {
    (user, group) in db.userGroup && db.userGroup[(user, group)] != UserRead
  }

  /** The join every queue refill runs: the worker's group role is above Read and its tags
      contain the task's tags. */
  predicate CanRun(db: Db, w: WorkerId, row: Task) {
    && w in db.workers
    && w in db.groupWorker
    && row.group in db.groupWorker[w]
    && db.groupWorker[w][row.group] != WorkerRead
    && row.tags <= db.workers[w].tags
  }

  function EligibleWorkers(db: Db, row: Task): set<WorkerId> {
    set w | w in db.workers && CanRun(db, w, row)
  }

  predicate Claimable(db: Db, t: TaskId) {
    t in db.active && db.active[t].state == Ready && db.active[t].worker == None
  }

  // ----- writing the tables

  ghost function Insert(db: Db, row: Task): Db {
    db.(active := db.active[db.nextTask := row], nextTask := db.nextTask + 1)
  }

  ghost function Bump(db: Db, group: GroupId): Db
    requires group in db.taskCount
  {
    db.(taskCount := db.taskCount[group := db.taskCount[group] + 1])
  }

  /** The row a submission inserts once the group's counter has been raised. */
  function NewTask(db: Db, creator: UserId, group: GroupId, tags: set<string>, priority: int,
                   uuid: Uuid, state: TaskState, upstream: Option<Uuid>): Task
    requires group in db.taskCount
  {
    Task(uuid, creator, group, db.taskCount[group], tags, priority, state, None, None, upstream, None)
  }

  /** The counter is raised before the specification is checked, so a refused specification
      still uses up a number. */
  ghost function Submission(db: Db, creator: UserId, group: GroupId, tags: set<string>,
                            priority: int, uuid: Uuid, specOk: bool, state: TaskState,
                            upstream: Option<Uuid>): Db {
    if group !in db.taskCount then db
    else
      var bumped := Bump(db, group);
      if !specOk then bumped
      else Insert(bumped, NewTask(bumped, creator, group, tags, priority, uuid, state, upstream))
  }

  predicate Submits(db: Db, group: GroupId, specOk: bool) {
    group in db.taskCount && specOk
  }

  ghost function WithRow(db: Db, t: TaskId, row: Task): Db {
    db.(active := db.active[t := row])
  }

  function Changed(row: Task, newTags: Option<set<string>>, newPriority: Option<int>): Task {
    row.(tags := if newTags.Some? then newTags.value else row.tags,
         priority := if newPriority.Some? then newPriority.value else row.priority)
  }

  /** The row a change request applies to, if the request is accepted: the Ready task with
      that (unique) uuid, in a group where the user may write. */
  function ChangeSet(db: Db, step: Step): set<TaskId>
    requires step.ChangeTask?
  {
    if (step.newTags.Some? || step.newPriority.Some? || step.otherChange) && step.specOk
    then set t | t in db.active && db.active[t].uuid == step.uuid && db.active[t].state == Ready
                 && MayWrite(db, step.user, db.active[t].group)
    else {}
  }

  function ApplyChange(db: Db, step: Step): Db
    requires step.ChangeTask?
  {
    var ts := ChangeSet(db, step);
    db.(active := map t | t in db.active ::
      if t in ts then Changed(db.active[t], step.newTags, step.newPriority) else db.active[t])
  }

  const USER_CANCELLED := TaskResultSpec(0, Some(UserCancellation))

  function CancelledRows(active: map<TaskId, Task>, ts: set<TaskId>): map<TaskId, Archived> {
    map t | t in ts && t in active ::
      Archived(active[t].(state := Cancelled, result := Some(USER_CANCELLED)), None)
  }

  /** Moves rows to the archive as cancelled by a user. */
  function CancelRows(db: Db, ts: set<TaskId>): Db {
    db.(active := db.active - ts, archived := db.archived + CancelledRows(db.active, ts))
  }

  predicate IsCancel(step: Step) {
    step.CancelTask? || step.CancelTasks? || step.CancelByFilter?
  }

  /** The rows a cancel request moves: one Ready task, or every Ready or Pending task among
      the named ones in groups where the user may write, or those a filter matched. */
  ghost function CancelSet(db: Db, step: Step): (ts: set<TaskId>)
    requires IsCancel(step)
    ensures forall t :: t in ts ==> t in db.active && Cancellable(db.active[t])
  {
    match step
    case CancelTask(user, u) =>
      set t | t in db.active && db.active[t].uuid == u && db.active[t].state == Ready
              && MayWrite(db, user, db.active[t].group)
    case CancelTasks(user, us) =>
      set t | t in db.active && db.active[t].uuid in us && Cancellable(db.active[t])
              && MayWrite(db, user, db.active[t].group)
    case CancelByFilter(matching) =>
      set t | t in db.active && t in matching && Cancellable(db.active[t])
  }

  ghost function Enrol(db: Db, w: WorkerId, badge: Uuid, tags: set<string>,
                       roles: map<GroupId, GroupWorkerRole>): Db {
    db.(workers := db.workers[w := Worker(badge, tags, Normal, None)],
        groupWorker := db.groupWorker[w := roles],
        enrolled := db.enrolled[w := badge])
  }

  /** The two statements of a claim: a conditional update of the task row, then an update of
      the worker row, which fails when there is no such row. */
  ghost function ClaimTask(db: Db, w: WorkerId, t: TaskId): Db {
    if !Claimable(db, t) then db
    else db.(active := db.active[t := db.active[t].(worker := Some(w), state := Running)],
             workers := if w in db.workers then db.workers[w := db.workers[w].(task := Some(t))] else db.workers)
  }

  predicate HeldBy(db: Db, w: WorkerId, t: TaskId) {
    t in db.active && db.active[t].worker == Some(w)
  }

  predicate CommitAccepted(db: Db, w: WorkerId, t: TaskId) {
    HeldBy(db, w, t) && w in db.workers && Done(db.active[t])
  }

  ghost function Move(db: Db, t: TaskId, row: Archived): Db {
    db.(active := db.active - {t}, archived := db.archived[t := row])
  }

  /** Moves a finished or cancelled task to the archive and frees its worker; a worker in
      graceful shutdown is deleted in the same transaction. */
  ghost function ArchiveCommit(db: Db, w: WorkerId, t: TaskId, res: TaskResultSpec): Db
    requires HeldBy(db, w, t) && w in db.workers
  {
    var leaves := db.workers[w].state == GracefulShutdown;
    db.(active := db.active - {t},
        archived := db.archived[t := Archived(db.active[t].(result := Some(res)), Some(db.workers[w].uuid))],
        workers := if leaves then db.workers - {w} else db.workers[w := db.workers[w].(task := None)],
        groupWorker := if leaves then db.groupWorker - {w} else db.groupWorker)
  }

  /** The Pending task a commit releases: the one named as downstream, if it still waits.
      Uuids are unique, so there is at most one. */
  function TriggerSet(db: Db, downstream: Option<Uuid>): set<TaskId> {
    set t | t in db.active && downstream == Some(db.active[t].uuid) && db.active[t].state == Pending
  }

  function MarkReady(active: map<TaskId, Task>, ts: set<TaskId>): map<TaskId, Task> {
    map t | t in active :: if t in ts then active[t].(state := Ready) else active[t]
  }

  function Trigger(db: Db, downstream: Option<Uuid>): Db {
    db.(active := MarkReady(db.active, TriggerSet(db, downstream)))
  }

  /** What a report is answered with. */
  ghost function ReportReply(db: Db, w: WorkerId, t: TaskId, report: Report): Reply {
    if !HeldBy(db, w, t) then NotFound
    else match report
      case Finish => Ok
      case Cancel => Ok
      case Submit(_, _, _, userActive, groupMatches, specOk) =>
        if !Done(db.active[t]) then InvalidRequest
        else if !userActive then PermissionDenied
        else if !groupMatches then InvalidRequest
        else if !MaySpawn(db, w, db.active[t].group) then PermissionDenied
        else if db.active[t].group !in db.taskCount then NotFound
        else if !specOk then InvalidRequest
        else Ok
      case Commit(res) =>
        if !Done(db.active[t]) then InvalidRequest
        else if w !in db.workers then NotFound
        else if db.active[t].downstream.Some?
                && TriggerSet(ArchiveCommit(db, w, t, res), db.active[t].downstream) == {}
        then NotFound
        else Ok
  }

  predicate MaySpawn(db: Db, w: WorkerId, group: GroupId) {
    w in db.groupWorker && group in db.groupWorker[w] && db.groupWorker[w][group] != WorkerRead
  }

  /** Whether a Submit report gets as far as raising the group's counter. */
  predicate Spawns(db: Db, w: WorkerId, t: TaskId, report: Report) {
    && HeldBy(db, w, t) && report.Submit? && Done(db.active[t])
    && report.userActive && report.groupMatches && MaySpawn(db, w, db.active[t].group)
  }

  ghost function Spawn(db: Db, w: WorkerId, t: TaskId, report: Report): Db
    requires Spawns(db, w, t, report)
  {
    var row := db.active[t];
    var next := Submission(db, row.creator, row.group, report.tags, report.priority, report.uuid,
                           report.specOk, Pending, Some(row.uuid));
    if Submits(db, row.group, report.specOk)
    then WithRow(next, t, row.(downstream := Some(report.uuid)))
    else next
  }

  ghost function ApplyReport(db: Db, w: WorkerId, t: TaskId, report: Report): Db {
    if !HeldBy(db, w, t) then db
    else match report
      case Finish => WithRow(db, t, db.active[t].(state := Finished))
      case Cancel => WithRow(db, t, db.active[t].(state := Cancelled))
      case Submit(_, _, _, _, _, _) => if Spawns(db, w, t, report) then Spawn(db, w, t, report) else db
      case Commit(res) =>
        if CommitAccepted(db, w, t)
        then Trigger(ArchiveCommit(db, w, t, res), db.active[t].downstream)
        else db
  }

  /** Active tasks held by one of the workers, read off the task rows. */
  function HeldTasks(db: Db, ws: set<WorkerId>): set<TaskId> {
    set t | t in db.active && db.active[t].worker.Some? && db.active[t].worker.value in ws
  }

  /** Tasks assigned to one of the workers, read off the worker rows. */
  function AssignedTasks(db: Db, ws: set<WorkerId>): set<TaskId> {
    set w | w in ws && w in db.workers && db.workers[w].task.Some? :: db.workers[w].task.value
  }

  function ReleaseRows(active: map<TaskId, Task>, ts: set<TaskId>): map<TaskId, Task> {
    map t | t in active :: if t in ts then active[t].(worker := None, state := Ready) else active[t]
  }

  function DropWorkers(db: Db, ws: set<WorkerId>): Db {
    db.(workers := db.workers - ws, groupWorker := db.groupWorker - ws)
  }

  /** Force removal of workers by filter: tasks whose `assigned_worker` is among them become
      Ready again and the workers' rows and group rows are deleted. */
  function Evict(db: Db, ws: set<WorkerId>): Db {
    DropWorkers(db.(active := ReleaseRows(db.active, HeldTasks(db, ws))), ws)
  }

  /** Force removal of workers by uuid, and of a single worker: the tasks to release are
      taken from the `assigned_task_id` of the worker rows instead. */
  function EvictAssigned(db: Db, ws: set<WorkerId>): Db {
    DropWorkers(db.(active := ReleaseRows(db.active, AssignedTasks(db, ws))), ws)
  }

  function IdleAmong(db: Db, ws: set<WorkerId>): set<WorkerId> {
    set w | w in ws && w in db.workers && db.workers[w].task.None?
  }

  /** Graceful removal: idle workers are deleted, busy ones are marked. */
  function Retire(db: Db, ws: set<WorkerId>): Db {
    var idle := IdleAmong(db, ws);
    var kept := DropWorkers(db, idle);
    kept.(workers := map w | w in kept.workers ::
      if w in ws then kept.workers[w].(state := GracefulShutdown) else kept.workers[w])
  }

  /** Steps that delete worker rows by force. */
  predicate IsRemoval(step: Step) {
    step.RemoveWorker? || step.Expire? || step.ForceShutdown? || step.ForceShutdownByUuids?
  }

  function RemovedBy(step: Step): set<WorkerId>
    requires IsRemoval(step)
  {
    if step.RemoveWorker? || step.Expire? then {step.w} else step.ws
  }

  predicate LeavesTables(step: Step) {
    step.Pop? || step.Heartbeat? || step.Tick? || step.Restart?
  }

  ghost function DbApply(db: Db, step: Step): Db {
    match step
    case SubmitTask(creator, group, tags, priority, uuid, specOk) =>
      Submission(db, creator, group, tags, priority, uuid, specOk, Ready, None)
    case ChangeTask(_, _, _, _, _, _) => ApplyChange(db, step)
    case CancelTask(_, _) => CancelRows(db, CancelSet(db, step))
    case CancelTasks(_, _) => CancelRows(db, CancelSet(db, step))
    case CancelByFilter(_) => CancelRows(db, CancelSet(db, step))
    case RegisterWorker(w, badge, tags, roles) => Enrol(db, w, badge, tags, roles)
    case Claim(w, t) => ClaimTask(db, w, t)
    case ReportTask(w, t, report) => ApplyReport(db, w, t, report)
    case RemoveWorker(w) => EvictAssigned(db, {w})
    case ForceShutdown(ws) => Evict(db, ws)
    case ForceShutdownByUuids(ws) => EvictAssigned(db, ws)
    case GracefulShutdownOf(ws) => Retire(db, ws)
    case Expire(w) => EvictAssigned(db, {w})
    case Pop(_, _) => db
    case Heartbeat(_) => db
    case Tick(_) => db
    case Restart => db
  }

  /** What the surroundings guarantee: uuids are fresh, the id of a new worker row was never
      used, requests of a worker come from one whose row exists (the authentication
      middleware looks it up), and a worker asks for a task only while it holds none. */
  ghost predicate DbGuard(db: Db, step: Step) {
    match step
    case SubmitTask(_, _, _, _, uuid, _) => FreshUuid(db, uuid)
    case RegisterWorker(w, _, _, _) => w !in db.enrolled
    case Claim(w, _) => w in db.workers && db.workers[w].task.None?
    case ReportTask(w, _, report) =>
      w in db.workers && (report.Submit? ==> FreshUuid(db, report.uuid))
    case _ => true
  }

  // ----- runs

  ghost predicate DbLegal(db: Db, steps: seq<Step>)
    decreases |steps|
  {
    steps == [] || (DbGuard(db, steps[0]) && DbLegal(DbApply(db, steps[0]), steps[1..]))
  }

  ghost function DbRun(db: Db, steps: seq<Step>): Db
    decreases |steps|
  {
    if steps == [] then db else DbRun(DbApply(db, steps[0]), steps[1..])
  }

  /** A database with groups and users but no tasks or workers yet. */
  ghost predicate Initial(db: Db) {
    && db.active == map[] && db.archived == map[] && db.workers == map[]
    && db.groupWorker == map[] && db.enrolled == map[]
    && (forall g :: g in db.taskCount ==> db.taskCount[g] == 0)
  }
}
