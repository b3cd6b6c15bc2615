/** The whole coordinator: the tables, the dispatcher's queues, the deadlines of the heartbeat
    queue and the candidate each fetching worker has popped but not yet claimed. Queue
    operations are handled in the order a service call sends them, before the next step. */
module Protocol {
  import opened Schema
  import opened Tables
  import opened Dispatcher

  /** `inflight` holds popped candidates; `heard` remembers when a worker's last heartbeat was
      handled. */
  datatype State = State(
    db: Db,
    queues: Queues,
    inflight: map<WorkerId, TaskId>,
    beats: map<WorkerId, nat>,
    heard: map<WorkerId, nat>,
    now: nat,
    timeout: nat)

  // ----- effects on the queues

  /** A task is pushed to the queue of every worker that can run it. */
  function Offer(qs: Queues, db: Db, t: TaskId): Queues
    requires t in db.active
  {
    BatchAdded(qs, EligibleWorkers(db, db.active[t]), t, db.active[t].priority)
  }

  /** The tasks out of a set that a worker can run, with their priorities. */
  function Runnable(db: Db, w: WorkerId, ts: set<TaskId>): Queue {
    map t: TaskId | t in db.active && t in ts && CanRun(db, w, db.active[t]) :: db.active[t].priority
  }

  function OfferAll(qs: Queues, db: Db, ts: set<TaskId>): Queues {
    map w | w in qs :: qs[w] + Runnable(db, w, ts)
  }

  /** Registration fills a worker's queue with every active task it can run, whatever the
      task's state. */
  function SetUp(qs: Queues, db: Db, w: WorkerId): Queues {
    Merged(Registered(qs, w), w, Runnable(db, w, db.active.Keys))
  }

  /** The dispatcher that `restore_workers` builds from the tables alone. */
  function Rebuilt(db: Db): Queues {
    map w | w in db.workers :: Runnable(db, w, db.active.Keys)
  }

  /** A new task, if one was inserted, is offered to everybody. */
  ghost function SubmitQueues(qs: Queues, db: Db, db': Db): Queues {
    if db.nextTask in db'.active && db.nextTask < db'.nextTask then Offer(qs, db', db.nextTask) else qs
  }

  /** A changed task is taken out of every queue and offered again. */
  function ChangeQueues(qs: Queues, db: Db, step: Step): Queues
    requires step.ChangeTask?
  {
    OfferAll(Removed(qs, ChangeSet(db, step)), ApplyChange(db, step), ChangeSet(db, step))
  }

  /** A commit removes the task, offers the task it releases and unregisters a worker that
      leaves; if the task to release is gone, the call fails before the last message. */
  ghost function CommitQueues(qs: Queues, db: Db, w: WorkerId, t: TaskId, res: TaskResultSpec): Queues
    requires HeldBy(db, w, t) && w in db.workers
  {
    var mid := ArchiveCommit(db, w, t, res);
    var downstream := db.active[t].downstream;
    var cleared := Removed(qs, {t});
    if downstream.Some? && TriggerSet(mid, downstream) == {} then cleared
    else
      var offered := OfferAll(cleared, Trigger(mid, downstream), TriggerSet(mid, downstream));
      if db.workers[w].state == GracefulShutdown then offered - {w} else offered
  }

  ghost function ReportQueues(qs: Queues, db: Db, w: WorkerId, t: TaskId, report: Report): Queues {
    if report.Commit? && CommitAccepted(db, w, t) then CommitQueues(qs, db, w, t, report.result) else qs
  }

  /** Whether an accepted commit sends the messages that unregister a leaving worker. */
  ghost predicate CommitUnregisters(db: Db, w: WorkerId, t: TaskId, res: TaskResultSpec)
    requires HeldBy(db, w, t) && w in db.workers
  {
    && db.workers[w].state == GracefulShutdown
    && (db.active[t].downstream.Some? ==>
          TriggerSet(ArchiveCommit(db, w, t, res), db.active[t].downstream) != {})
  }

  /** `remove_worker`: the released task is offered while the worker's own rows still exist,
      and the worker is unregistered last. */
  function RemovalQueues(qs: Queues, db: Db, w: WorkerId): Queues {
    var released := db.(active := ReleaseRows(db.active, AssignedTasks(db, {w})));
    OfferAll(qs, released, AssignedTasks(db, {w})) - {w}
  }

  ghost function QueuesAfter(s: State, step: Step): Queues {
    var db' := DbApply(s.db, step);
    match step
    case SubmitTask(_, _, _, _, _, _) => SubmitQueues(s.queues, s.db, db')
    case ChangeTask(_, _, _, _, _, _) => ChangeQueues(s.queues, s.db, step)
    case CancelTask(_, _) => Removed(s.queues, CancelSet(s.db, step))
    case CancelTasks(_, _) => Removed(s.queues, CancelSet(s.db, step))
    case CancelByFilter(_) => Removed(s.queues, CancelSet(s.db, step))
    case RegisterWorker(w, _, _, _) => SetUp(s.queues, db', w)
    case ReportTask(w, t, report) => ReportQueues(s.queues, s.db, w, t, report)
    case RemoveWorker(w) => RemovalQueues(s.queues, s.db, w)
    case Expire(w) => if w in s.db.workers then RemovalQueues(s.queues, s.db, w) else s.queues
    case ForceShutdown(ws) => OfferAll(s.queues, db', HeldTasks(s.db, ws)) - ws
    case ForceShutdownByUuids(ws) => OfferAll(s.queues, db', AssignedTasks(s.db, ws)) - ws
    case GracefulShutdownOf(ws) => s.queues - IdleAmong(s.db, ws)
    case Pop(w, t) => if w in s.queues then Popped(s.queues, w, t) else s.queues
    case Restart => Rebuilt(db')
    case _ => s.queues
  }

  ghost function BeatsAfter(s: State, step: Step): map<WorkerId, nat> {
    match step
    case RegisterWorker(w, _, _, _) => s.beats[w := s.now + s.timeout]
    case Heartbeat(w) => s.beats[w := s.now + s.timeout]
    case ReportTask(w, t, report) =>
      if report.Commit? && CommitAccepted(s.db, w, t) && CommitUnregisters(s.db, w, t, report.result)
      then s.beats - {w} else s.beats
    case RemoveWorker(w) => s.beats - {w}
    case Expire(w) => s.beats - {w}
    case ForceShutdown(ws) => s.beats - ws
    case ForceShutdownByUuids(ws) => s.beats - ws
    case GracefulShutdownOf(ws) => s.beats - IdleAmong(s.db, ws)
    case Restart => map w | w in s.db.workers :: s.now + s.timeout
    case _ => s.beats
  }

  function HeardAfter(s: State, step: Step): map<WorkerId, nat> {
    match step
    case RegisterWorker(w, _, _, _) => s.heard[w := s.now]
    case Heartbeat(w) => s.heard[w := s.now]
    case Restart => s.heard + map w | w in s.db.workers :: s.now
    case _ => s.heard
  }

  function KeptCandidates(inflight: map<WorkerId, TaskId>, db: Db): map<WorkerId, TaskId> {
    map w | w in inflight && w in db.workers :: inflight[w]
  }

  /** A candidate is dropped once it was tried, and with its worker's row. */
  ghost function InflightAfter(s: State, step: Step): map<WorkerId, TaskId> {
    var db' := DbApply(s.db, step);
    match step
    case Pop(w, t) => s.inflight[w := t]
    case Claim(w, t) => s.inflight - {w}
    case Restart => map[]
    case _ => KeptCandidates(s.inflight, db')
  }

  ghost function Apply(s: State, step: Step): State {
    State(DbApply(s.db, step), QueuesAfter(s, step), InflightAfter(s, step), BeatsAfter(s, step),
          HeardAfter(s, step), if step.Tick? then s.now + step.seconds else s.now, s.timeout)
  }

  predicate IsEarliest(beats: map<WorkerId, nat>, w: WorkerId) {
    w in beats && forall v :: v in beats ==> beats[w] <= beats[v]
  }

  ghost predicate Guard(s: State, step: Step) {
    && DbGuard(s.db, step)
    && match step
       case Pop(w, t) =>
         && w in s.db.workers && s.db.workers[w].task.None? && w !in s.inflight
         && w in s.queues && IsTop(s.queues[w], t)
       case Claim(w, t) => w in s.inflight && s.inflight[w] == t
       case Heartbeat(w) => w in s.db.workers
       case RemoveWorker(w) => w in s.db.workers
       case Expire(w) => IsEarliest(s.beats, w) && s.beats[w] <= s.now
       case _ => true
  }

  ghost predicate Legal(s: State, steps: seq<Step>)
    decreases |steps|
  {
    steps == [] || (Guard(s, steps[0]) && Legal(Apply(s, steps[0]), steps[1..]))
  }

  ghost function Run(s: State, steps: seq<Step>): State
    decreases |steps|
  {
    if steps == [] then s else Run(Apply(s, steps[0]), steps[1..])
  }

  ghost predicate Start(s: State) {
    Initial(s.db) && s.queues == map[] && s.inflight == map[] && s.beats == map[]
  }

  lemma {:induction false} RunAppend(s: State, a: seq<Step>, b: seq<Step>)
    ensures Run(s, a + b) == Run(Run(s, a), b)
    ensures Legal(s, a) && Legal(Run(s, a), b) ==> Legal(s, a + b)
    decreases |a|
  {
    if a == [] {
      assert a + b == b;
    } else {
      assert (a + b)[0] == a[0] && (a + b)[1..] == a[1..] + b;
      RunAppend(Apply(s, a[0]), a[1..], b);
    }
  }

  /** The tables of a run are a run of the tables. */
  lemma {:induction false} TablesOfRun(s: State, steps: seq<Step>)
    requires Legal(s, steps)
    ensures DbLegal(s.db, steps) && Run(s, steps).db == DbRun(s.db, steps)
    decreases |steps|
  {
    if steps != [] { TablesOfRun(Apply(s, steps[0]), steps[1..]); }
  }
}
