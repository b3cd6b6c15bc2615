/** The queues are an index of the tables: which entries they hold, that no step breaks the
    index, and what a fetch therefore returns. */
module Scheduling {
  import opened Schema
  import opened Tables
  import opened Invariants
  import opened Dispatcher
  import opened Protocol

  type Candidates = map<WorkerId, TaskId>

  /** Every live worker has a queue, and queues belong to workers that were enrolled. */
  ghost predicate Present(db: Db, qs: Queues) {
    db.workers.Keys <= qs.Keys <= db.enrolled.Keys
  }

  ghost predicate ReadyFor(db: Db, w: WorkerId, t: TaskId) {
    t in db.active && db.active[t].state == Ready && CanRun(db, w, db.active[t])
  }

  predicate Waiting(qs: Queues, inflight: Candidates, w: WorkerId, t: TaskId) {
    (w in qs && t in qs[w]) || (w in inflight && inflight[w] == t)
  }

  /** No Ready task is lost: it is queued for every live worker that can run it, or is that
      worker's popped but not yet claimed candidate. */
  ghost predicate Indexed(db: Db, qs: Queues, inflight: Candidates) {
    forall w, t :: ReadyFor(db, w, t) ==> Waiting(qs, inflight, w, t)
  }

  ghost predicate EntryOk(db: Db, w: WorkerId, t: TaskId, p: int) {
    t in db.active && CanRun(db, w, db.active[t]) && p == db.active[t].priority
  }

  /** No entry of a live worker is out of date, except possibly in the state of its task. */
  ghost predicate Faithful(db: Db, qs: Queues) {
    forall w, t :: w in db.workers && w in qs && t in qs[w] ==> EntryOk(db, w, t, qs[w][t])
  }

  /** A worker that is fetching is live and idle. */
  ghost predicate Fetching(db: Db, inflight: Candidates) {
    forall w :: w in inflight ==> w in db.workers && db.workers[w].task.None?
  }

  /** Deadlines: every live worker has one, set by its last handled heartbeat. */
  ghost predicate Timely(s: State) {
    && s.db.workers.Keys <= s.beats.Keys
    && forall w :: w in s.beats ==> w in s.heard && s.heard[w] <= s.now && s.beats[w] == s.heard[w] + s.timeout
  }

  ghost predicate Sound(s: State) {
    && Inv(s.db) && Present(s.db, s.queues) && Indexed(s.db, s.queues, s.inflight)
    && Faithful(s.db, s.queues) && Fetching(s.db, s.inflight) && Timely(s)
  }

  // ----- how changes of the tables carry over to the index

  predicate SameNeeds(a: Task, b: Task) {
    a.group == b.group && a.tags == b.tags && a.priority == b.priority
  }

  /** Workers left in `db'` are unchanged as far as the index is concerned. */
  ghost predicate FewerWorkers(db: Db, db': Db) {
    forall w :: w in db'.workers ==>
      && w in db.workers && db'.workers[w].tags == db.workers[w].tags
      && (w in db'.groupWorker <==> w in db.groupWorker)
      && (w in db.groupWorker ==> db'.groupWorker[w] == db.groupWorker[w])
  }

  lemma CanRunStays(db: Db, db': Db, w: WorkerId, a: Task, b: Task)
    requires FewerWorkers(db, db') && w in db'.workers && SameNeeds(a, b)
    ensures CanRun(db', w, b) <==> CanRun(db, w, a)
  {
  }

  /** Changes that make no task Ready and no entry wrong leave the index as it is. */
  lemma UnreadyKeeps(db: Db, db': Db, qs: Queues, inflight: Candidates, inflight': Candidates)
    requires Indexed(db, qs, inflight) && Faithful(db, qs) && FewerWorkers(db, db')
    requires forall t :: t in db.active ==> t in db'.active && SameNeeds(db.active[t], db'.active[t])
    requires forall t :: t in db'.active && db'.active[t].state == Ready ==>
      t in db.active && db.active[t].state == Ready
    requires forall w, t :: ReadyFor(db', w, t) && w in inflight && inflight[w] == t ==>
      w in inflight' && inflight'[w] == t
    ensures Indexed(db', qs, inflight') && Faithful(db', qs)
  {
    forall w, t | ReadyFor(db', w, t) ensures Waiting(qs, inflight', w, t) {
      CanRunStays(db, db', w, db.active[t], db'.active[t]);
      assert ReadyFor(db, w, t);
    }
    forall w, t | w in db'.workers && w in qs && t in qs[w] ensures EntryOk(db', w, t, qs[w][t]) {
      assert EntryOk(db, w, t, qs[w][t]);
      CanRunStays(db, db', w, db.active[t], db'.active[t]);
    }
  }

  /** Deleting rows and taking their ids out of every queue. */
  lemma RemovedKeeps(db: Db, db': Db, qs: Queues, inflight: Candidates, inflight': Candidates, ts: set<TaskId>)
    requires Indexed(db, qs, inflight) && Faithful(db, qs) && FewerWorkers(db, db')
    requires db'.active == db.active - ts
    requires forall w :: w in inflight && w in db'.workers ==> w in inflight' && inflight'[w] == inflight[w]
    ensures Indexed(db', Removed(qs, ts), inflight') && Faithful(db', Removed(qs, ts))
  {
    var qs' := Removed(qs, ts);
    forall w, t | ReadyFor(db', w, t) ensures Waiting(qs', inflight', w, t) {
      CanRunStays(db, db', w, db.active[t], db'.active[t]);
      assert ReadyFor(db, w, t);
      assert Waiting(qs, inflight, w, t);
    }
    forall w, t | w in db'.workers && w in qs' && t in qs'[w] ensures EntryOk(db', w, t, qs'[w][t]) {
      assert EntryOk(db, w, t, qs[w][t]);
      CanRunStays(db, db', w, db.active[t], db'.active[t]);
    }
  }

  /** Inserting or changing one row and offering it to everybody who can run it. */
  lemma OfferKeeps(db: Db, db': Db, qs: Queues, inflight: Candidates, t: TaskId, row: Task)
    requires Present(db, qs) && FewerWorkers(db, db') && db'.active == db.active[t := row]
    requires forall w, k :: k != t && ReadyFor(db, w, k) ==> Waiting(qs, inflight, w, k)
    requires forall w, k :: w in db.workers && w in qs && k in qs[w] && k != t ==> EntryOk(db, w, k, qs[w][k])
    requires forall w :: w in db'.workers && w in qs && t in qs[w] ==> CanRun(db', w, row)
    ensures Indexed(db', Offer(qs, db', t), inflight) && Faithful(db', Offer(qs, db', t))
  {
    var qs' := Offer(qs, db', t);
    forall w, k | ReadyFor(db', w, k) ensures Waiting(qs', inflight, w, k) {
      if k != t {
        CanRunStays(db, db', w, db.active[k], db'.active[k]);
        assert ReadyFor(db, w, k);
        assert Waiting(qs, inflight, w, k);
      }
    }
    forall w, k | w in db'.workers && w in qs' && k in qs'[w] ensures EntryOk(db', w, k, qs'[w][k]) {
      if k != t {
        assert k in qs[w] && qs'[w][k] == qs[w][k];
        assert EntryOk(db, w, k, qs[w][k]);
        CanRunStays(db, db', w, db.active[k], db'.active[k]);
      }
    }
  }

  /** Changing rows, taking them out of every queue and offering them again. */
  lemma ReofferKeeps(db: Db, db': Db, qs: Queues, inflight: Candidates, ts: set<TaskId>)
    requires Present(db, qs) && Indexed(db, qs, inflight) && Faithful(db, qs) && FewerWorkers(db, db')
    requires db'.active.Keys == db.active.Keys
    requires forall t :: t in db.active && t !in ts ==> db'.active[t] == db.active[t]
    requires db'.workers.Keys == db.workers.Keys
    ensures var qs' := OfferAll(Removed(qs, ts), db', ts);
      Indexed(db', qs', inflight) && Faithful(db', qs')
  {
    var qs' := OfferAll(Removed(qs, ts), db', ts);
    forall w, t | ReadyFor(db', w, t) ensures Waiting(qs', inflight, w, t) {
      if t in ts {
        assert t in Runnable(db', w, ts);
      } else {
        CanRunStays(db, db', w, db.active[t], db'.active[t]);
        assert ReadyFor(db, w, t);
        assert Waiting(qs, inflight, w, t);
      }
    }
    forall w, t | w in db'.workers && w in qs' && t in qs'[w] ensures EntryOk(db', w, t, qs'[w][t]) {
      if t !in Runnable(db', w, ts) {
        assert EntryOk(db, w, t, qs[w][t]);
        CanRunStays(db, db', w, db.active[t], db'.active[t]);
      }
    }
  }

  /** Making tasks Ready and offering them to everybody left. */
  lemma OfferAllKeeps(db: Db, db': Db, qs: Queues, inflight: Candidates, inflight': Candidates,
                      ts: set<TaskId>, gone: set<WorkerId>)
    requires Present(db, qs) && Indexed(db, qs, inflight) && Faithful(db, qs) && FewerWorkers(db, db')
    requires db'.active.Keys == db.active.Keys && db'.workers.Keys !! gone
    requires forall t :: t in db.active ==> SameNeeds(db.active[t], db'.active[t])
    requires forall t :: t in db'.active && db'.active[t].state == Ready && t !in ts ==>
      db.active[t].state == Ready
    requires forall w :: w in inflight && w in db'.workers ==> w in inflight' && inflight'[w] == inflight[w]
    ensures Indexed(db', OfferAll(qs, db', ts) - gone, inflight')
    ensures Faithful(db', OfferAll(qs, db', ts) - gone)
  {
    var qs' := OfferAll(qs, db', ts) - gone;
    forall w, t | ReadyFor(db', w, t) ensures Waiting(qs', inflight', w, t) {
      CanRunStays(db, db', w, db.active[t], db'.active[t]);
      if t in ts {
        assert t in Runnable(db', w, ts);
      } else {
        assert ReadyFor(db, w, t);
        assert Waiting(qs, inflight, w, t);
      }
    }
    forall w, t | w in db'.workers && w in qs' && t in qs'[w] ensures EntryOk(db', w, t, qs'[w][t]) {
      if t !in Runnable(db', w, ts) {
        assert EntryOk(db, w, t, qs[w][t]);
        CanRunStays(db, db', w, db.active[t], db'.active[t]);
      }
    }
  }

  /** Queues of workers without a row do not matter. */
  lemma UnregisterKeeps(db: Db, qs: Queues, inflight: Candidates, gone: set<WorkerId>)
    requires Indexed(db, qs, inflight) && Faithful(db, qs) && db.workers.Keys !! gone
    ensures Indexed(db, qs - gone, inflight) && Faithful(db, qs - gone)
  {
    forall w, t | ReadyFor(db, w, t) ensures Waiting(qs - gone, inflight, w, t) {
      assert Waiting(qs, inflight, w, t);
    }
  }

  // ----- one lemma per kind of step

  ghost predicate Index(db: Db, qs: Queues, inflight: Candidates) {
    Present(db, qs) && Indexed(db, qs, inflight) && Faithful(db, qs)
  }

  /** What a step must keep about the queues. */
  ghost predicate IndexOk(s: State) {
    Index(s.db, s.queues, s.inflight)
  }

  lemma SubmitIndex(db: Db, qs: Queues, inflight: Candidates, db': Db)
    requires Keyed(db) && Index(db, qs, inflight)
    requires db'.workers == db.workers && db'.groupWorker == db.groupWorker && db'.enrolled == db.enrolled
    requires db' == db.(taskCount := db'.taskCount)
      || (exists row :: db' == Insert(db.(taskCount := db'.taskCount), row))
    ensures Index(db', SubmitQueues(qs, db, db'), inflight)
  {
    var t := db.nextTask;
    assert t !in Ids(db);
    if db' == db.(taskCount := db'.taskCount) {
      UnreadyKeeps(db, db', qs, inflight, inflight);
    } else {
      assert forall w :: w in db.workers && w in qs ==> t !in qs[w];
      OfferKeeps(db, db', qs, inflight, t, db'.active[t]);
    }
  }

  lemma ChangeIndex(db: Db, qs: Queues, inflight: Candidates, step: Step)
    requires Index(db, qs, inflight) && step.ChangeTask?
    ensures Index(ApplyChange(db, step), ChangeQueues(qs, db, step), inflight)
  {
    ReofferKeeps(db, ApplyChange(db, step), qs, inflight, ChangeSet(db, step));
  }

  lemma CancelIndex(db: Db, qs: Queues, inflight: Candidates, ts: set<TaskId>)
    requires Index(db, qs, inflight)
    ensures Index(CancelRows(db, ts), Removed(qs, ts), inflight)
  {
    RemovedKeeps(db, CancelRows(db, ts), qs, inflight, inflight, ts);
  }

  lemma EnrolIndex(db: Db, qs: Queues, inflight: Candidates, v: WorkerId, db': Db)
    requires Keyed(db) && Index(db, qs, inflight) && v !in db.enrolled
    requires exists badge, tags, roles :: db' == Enrol(db, v, badge, tags, roles)
    ensures Index(db', SetUp(qs, db', v), inflight)
  {
    assert v !in qs && v !in db.workers;
    var qs' := SetUp(qs, db', v);
    assert qs'[v] == map[] + Runnable(db', v, db'.active.Keys);
    forall w, t | ReadyFor(db', w, t) ensures Waiting(qs', inflight, w, t) {
      if w != v { assert ReadyFor(db, w, t); assert Waiting(qs, inflight, w, t); }
    }
    forall w, t | w in db'.workers && w in qs' && t in qs'[w] ensures EntryOk(db', w, t, qs'[w][t]) {
      if w != v { assert EntryOk(db, w, t, qs[w][t]); }
    }
  }

  lemma ClaimedRows(db: Db, w: WorkerId, t: TaskId)
    requires t in db.active && db.active[t].state == Ready ==> db.active[t].worker.None?
    ensures var db' := ClaimTask(db, w, t);
      && (forall k :: k in db.active ==> k in db'.active && SameNeeds(db.active[k], db'.active[k]))
      && (forall k :: k in db'.active && db'.active[k].state == Ready ==>
            k in db.active && db.active[k].state == Ready && k != t)
  {
    if Claimable(db, t) {
      var row := db.active[t].(worker := Some(w), state := Running);
      assert ClaimTask(db, w, t).active == db.active[t := row];
    }
  }

  lemma ClaimedWorkers(db: Db, w: WorkerId, t: TaskId)
    ensures var db' := ClaimTask(db, w, t);
      FewerWorkers(db, db') && db'.enrolled == db.enrolled && db'.workers.Keys == db.workers.Keys
  {
  }

  lemma ClaimIndex(db: Db, qs: Queues, inflight: Candidates, w: WorkerId, t: TaskId)
    requires Holding(db) && Index(db, qs, inflight) && w in inflight && inflight[w] == t
    ensures Index(ClaimTask(db, w, t), qs, inflight - {w})
  {
    ClaimedRows(db, w, t);
    ClaimedWorkers(db, w, t);
    UnreadyKeeps(db, ClaimTask(db, w, t), qs, inflight, inflight - {w});
  }

  lemma PopIndex(db: Db, qs: Queues, inflight: Candidates, v: WorkerId, p: TaskId)
    requires Index(db, qs, inflight) && v in qs && p in qs[v] && v !in inflight
    ensures Index(db, Popped(qs, v, p), inflight[v := p])
  {
    var qs' := Popped(qs, v, p);
    forall w, t | ReadyFor(db, w, t) ensures Waiting(qs', inflight[v := p], w, t) {
      assert Waiting(qs, inflight, w, t);
    }
    forall w, t | w in db.workers && w in qs' && t in qs'[w] ensures EntryOk(db, w, t, qs'[w][t]) {
      assert EntryOk(db, w, t, qs[w][t]);
    }
  }

  lemma EvictIndex(db: Db, qs: Queues, inflight: Candidates, ws: set<WorkerId>)
    requires Holding(db) && Index(db, qs, inflight)
    ensures Index(Evict(db, ws), OfferAll(qs, Evict(db, ws), HeldTasks(db, ws)) - ws,
                  KeptCandidates(inflight, Evict(db, ws)))
  {
    OfferAllKeeps(db, Evict(db, ws), qs, inflight, KeptCandidates(inflight, Evict(db, ws)), HeldTasks(db, ws), ws);
  }

  /** Offering a released task before or after its worker's rows are deleted makes no
      difference once that worker is unregistered. */
  lemma RemovalIsEviction(qs: Queues, db: Db, w: WorkerId)
    requires Holding(db)
    ensures RemovalQueues(qs, db, w) == OfferAll(qs, Evict(db, {w}), HeldTasks(db, {w})) - {w}
  {
    HeldIsAssigned(db, {w});
    var ts := HeldTasks(db, {w});
    var released := db.(active := ReleaseRows(db.active, ts));
    forall v | v in qs && v != w ensures Runnable(released, v, ts) == Runnable(Evict(db, {w}), v, ts) {
      assert forall t :: t in released.active ==>
        (CanRun(released, v, released.active[t]) <==> CanRun(Evict(db, {w}), v, released.active[t]));
    }
  }

  lemma RetireIndex(db: Db, qs: Queues, inflight: Candidates, ws: set<WorkerId>)
    requires Index(db, qs, inflight)
    ensures Index(Retire(db, ws), qs - IdleAmong(db, ws), KeptCandidates(inflight, Retire(db, ws)))
  {
    var db', inflight' := Retire(db, ws), KeptCandidates(inflight, Retire(db, ws));
    UnreadyKeeps(db, db', qs, inflight, inflight');
    UnregisterKeeps(db', qs, inflight', IdleAmong(db, ws));
  }

  lemma ArchiveIndex(db: Db, qs: Queues, inflight: Candidates, w: WorkerId, t: TaskId, res: TaskResultSpec)
    requires Index(db, qs, inflight) && CommitAccepted(db, w, t)
    ensures var mid := ArchiveCommit(db, w, t, res);
      Index(mid, Removed(qs, {t}), KeptCandidates(inflight, mid))
  {
    var mid := ArchiveCommit(db, w, t, res);
    RemovedKeeps(db, mid, qs, inflight, KeptCandidates(inflight, mid), {t});
  }

  lemma TriggerIndex(db: Db, qs: Queues, inflight: Candidates, d: Option<Uuid>, gone: set<WorkerId>)
    requires Index(db, qs, inflight) && db.workers.Keys !! gone
    ensures Index(Trigger(db, d), OfferAll(qs, Trigger(db, d), TriggerSet(db, d)) - gone, inflight)
  {
    OfferAllKeeps(db, Trigger(db, d), qs, inflight, inflight, TriggerSet(db, d), gone);
  }

  lemma CommitIndex(db: Db, qs: Queues, inflight: Candidates, w: WorkerId, t: TaskId, res: TaskResultSpec)
    requires Index(db, qs, inflight) && CommitAccepted(db, w, t)
    ensures var mid := ArchiveCommit(db, w, t, res);
      Index(Trigger(mid, db.active[t].downstream), CommitQueues(qs, db, w, t, res), KeptCandidates(inflight, mid))
  {
    var mid := ArchiveCommit(db, w, t, res);
    ArchiveIndex(db, qs, inflight, w, t, res);
    var gone := if db.workers[w].state == GracefulShutdown then {w} else {};
    ReleaseIndex(mid, Removed(qs, {t}), KeptCandidates(inflight, mid), db.active[t].downstream, gone);
  }

  lemma ReleaseIndex(mid: Db, qs: Queues, inflight: Candidates, d: Option<Uuid>, gone: set<WorkerId>)
    requires Index(mid, qs, inflight) && mid.workers.Keys !! gone
    ensures var offered := OfferAll(qs, Trigger(mid, d), TriggerSet(mid, d));
      && (d.Some? && TriggerSet(mid, d) == {} ==> Index(Trigger(mid, d), qs, inflight))
      && Index(Trigger(mid, d), offered - gone, inflight)
      && (gone == {} ==> Index(Trigger(mid, d), offered, inflight))
  {
    TriggerIndex(mid, qs, inflight, d, gone);
    var offered := OfferAll(qs, Trigger(mid, d), TriggerSet(mid, d));
    assert offered - {} == offered;
    if TriggerSet(mid, d) == {} {
      assert Trigger(mid, d).active == mid.active;
      assert Trigger(mid, d) == mid;
    }
  }

  /** Reports other than an accepted commit make no task Ready. */
  lemma PlainReport(db: Db, w: WorkerId, t: TaskId, report: Report)
    requires Keyed(db) && !(report.Commit? && CommitAccepted(db, w, t)) && w in db.workers
    ensures var db' := ApplyReport(db, w, t, report);
      && db'.workers == db.workers && db'.groupWorker == db.groupWorker && db'.enrolled == db.enrolled
      && (forall k :: k in db.active ==> k in db'.active && SameNeeds(db.active[k], db'.active[k]))
      && (forall k :: k in db'.active && db'.active[k].state == Ready ==>
            k in db.active && db.active[k].state == Ready)
  {
    assert db.nextTask !in Ids(db);
    if Spawns(db, w, t, report) { SpawnRows(db, w, t, report); }
  }

  lemma SpawnRows(db: Db, w: WorkerId, t: TaskId, report: Report)
    requires Spawns(db, w, t, report) && db.nextTask !in db.active
    ensures var db' := Spawn(db, w, t, report);
      && db'.workers == db.workers && db'.groupWorker == db.groupWorker && db'.enrolled == db.enrolled
      && (forall k :: k in db.active ==>
            k in db'.active && SameNeeds(db.active[k], db'.active[k]) && db'.active[k].state == db.active[k].state)
      && (forall k :: k in db'.active && k !in db.active ==> db'.active[k].state == Pending)
  {
  }

  lemma PlainReportIndex(db: Db, qs: Queues, inflight: Candidates, w: WorkerId, t: TaskId, report: Report)
    requires Keyed(db) && Index(db, qs, inflight) && Fetching(db, inflight) && w in db.workers
    requires !(report.Commit? && CommitAccepted(db, w, t))
    ensures var db' := ApplyReport(db, w, t, report); Index(db', qs, KeptCandidates(inflight, db'))
  {
    var db' := ApplyReport(db, w, t, report);
    PlainReport(db, w, t, report);
    Unfetched(db, db', inflight);
    UnreadyKeeps(db, db', qs, inflight, inflight);
  }

  lemma ReportIndex(db: Db, qs: Queues, inflight: Candidates, w: WorkerId, t: TaskId, report: Report)
    requires Keyed(db) && Index(db, qs, inflight) && Fetching(db, inflight) && w in db.workers
    ensures var db' := ApplyReport(db, w, t, report);
      Index(db', ReportQueues(qs, db, w, t, report), KeptCandidates(inflight, db'))
  {
    if report.Commit? && CommitAccepted(db, w, t) {
      CommitIndex(db, qs, inflight, w, t, report.result);
    } else {
      PlainReportIndex(db, qs, inflight, w, t, report);
    }
  }

  lemma RestartIndex(db: Db)
    requires Keyed(db)
    ensures Index(db, Rebuilt(db), map[])
  {
  }

  /** Every forced removal has the effect of the shutdown by filter. */
  lemma RemovalState(s: State, step: Step)
    requires Holding(s.db) && IsRemoval(step) && (step.Expire? ==> step.w in s.db.workers)
    ensures var ws := RemovedBy(step);
      && DbApply(s.db, step) == Evict(s.db, ws)
      && QueuesAfter(s, step) == OfferAll(s.queues, Evict(s.db, ws), HeldTasks(s.db, ws)) - ws
  {
    HeldIsAssigned(s.db, RemovedBy(step));
    if step.RemoveWorker? || step.Expire? { RemovalIsEviction(s.queues, s.db, step.w); }
  }

  /** A deadline of a worker whose row is gone is just forgotten. */
  lemma StaleExpiry(s: State, w: WorkerId)
    requires Fetching(s.db, s.inflight) && w !in s.db.workers
    ensures var db' := EvictAssigned(s.db, {w});
      && db'.active == s.db.active && db'.workers == s.db.workers && db'.enrolled == s.db.enrolled
      && FewerWorkers(s.db, db') && KeptCandidates(s.inflight, db') == s.inflight
  {
    assert AssignedTasks(s.db, {w}) == {};
    assert ReleaseRows(s.db.active, {}) == s.db.active;
  }

  lemma RemovalIndex(s: State, step: Step)
    requires Holding(s.db) && IndexOk(s) && Fetching(s.db, s.inflight) && IsRemoval(step)
    ensures Index(DbApply(s.db, step), QueuesAfter(s, step), KeptCandidates(s.inflight, DbApply(s.db, step)))
  {
    if step.Expire? && step.w !in s.db.workers {
      StaleExpiry(s, step.w);
      UnreadyKeeps(s.db, EvictAssigned(s.db, {step.w}), s.queues, s.inflight, s.inflight);
    } else {
      RemovalState(s, step);
      EvictIndex(s.db, s.queues, s.inflight, RemovedBy(step));
    }
  }

  lemma Unfetched(db: Db, db': Db, inflight: Candidates)
    requires Fetching(db, inflight) && db'.workers == db.workers
    ensures KeptCandidates(inflight, db') == inflight
  {
  }

  lemma StepIndex(s: State, step: Step)
    requires Keyed(s.db) && Holding(s.db) && IndexOk(s) && Fetching(s.db, s.inflight) && Guard(s, step)
    ensures IndexOk(Apply(s, step))
  {
    if IsRemoval(step) {
      RemovalIndex(s, step);
    } else if LeavesWorkers(step) {
      CallIndex(s, step);
    } else {
      match step
      case RegisterWorker(w, _, _, _) =>
        EnrolIndex(s.db, s.queues, s.inflight, w, DbApply(s.db, step));
        assert KeptCandidates(s.inflight, DbApply(s.db, step)) == s.inflight;
      case Claim(w, t) => ClaimIndex(s.db, s.queues, s.inflight, w, t);
      case ReportTask(w, t, report) => ReportIndex(s.db, s.queues, s.inflight, w, t, report);
      case GracefulShutdownOf(ws) => RetireIndex(s.db, s.queues, s.inflight, ws);
    }
  }

  lemma CallIndex(s: State, step: Step)
    requires Keyed(s.db) && IndexOk(s) && Fetching(s.db, s.inflight) && Guard(s, step) && LeavesWorkers(step)
    ensures IndexOk(Apply(s, step))
  {
    SameWorkers(s.db, step);
    Unfetched(s.db, DbApply(s.db, step), s.inflight);
    if IsCancel(step) {
      CancelIndex(s.db, s.queues, s.inflight, CancelSet(s.db, step));
    } else {
      match step
      case SubmitTask(_, _, _, _, _, _) => SubmitIndex(s.db, s.queues, s.inflight, DbApply(s.db, step));
      case ChangeTask(_, _, _, _, _, _) => ChangeIndex(s.db, s.queues, s.inflight, step);
      case Pop(w, t) => PopIndex(s.db, s.queues, s.inflight, w, t);
      case Restart => RestartIndex(s.db);
      case Heartbeat(_) =>
      case Tick(_) =>
    }
  }

  lemma StepFetching(s: State, step: Step)
    requires Sound(s) && Guard(s, step)
    ensures Fetching(Apply(s, step).db, Apply(s, step).inflight)
  {
    forall w | w in Apply(s, step).inflight && !step.Pop?
      ensures w in Apply(s, step).db.workers && Apply(s, step).db.workers[w].task.None?
    {
      IdleStays(s.db, step, w);
    }
  }

  /** No step hands a task to an idle worker other than its own claim. */
  lemma IdleStays(db: Db, step: Step, w: WorkerId)
    requires DbGuard(db, step) && w in db.workers && db.workers[w].task.None?
    requires !(step.Claim? && step.w == w) && w in DbApply(db, step).workers
    ensures DbApply(db, step).workers[w].task.None?
  {
    if LeavesWorkers(step) {
      SameWorkers(db, step);
    } else if step.ReportTask? {
      ReportWorkers(db, step.w, step.t, step.report);
    }
  }

  lemma StepTimely(s: State, step: Step)
    requires Timely(s) && Guard(s, step)
    ensures Timely(Apply(s, step))
  {
    if LeavesWorkers(step) {
      SameWorkers(s.db, step);
    } else if step.ReportTask? {
      ReportWorkers(s.db, step.w, step.t, step.report);
    }
  }

  lemma StepSound(s: State, step: Step)
    requires Sound(s) && Guard(s, step)
    ensures Sound(Apply(s, step))
  {
    StepKeeps(s.db, step);
    StepIndex(s, step);
    StepFetching(s, step);
    StepTimely(s, step);
  }

  /** In every run, with pops and claims interleaved with everything else, the queues index
      the tables: no Ready task is lost and no entry of a live worker is out of date. */
  lemma {:induction false} RunSound(s: State, steps: seq<Step>)
    requires Sound(s) && Legal(s, steps)
    ensures Sound(Run(s, steps))
    decreases |steps|
  {
    if steps != [] {
      StepSound(s, steps[0]);
      RunSound(Apply(s, steps[0]), steps[1..]);
    }
  }

  lemma StartSound(s: State)
    requires Start(s)
    ensures Sound(s)
  {
    InitialInv(s.db);
  }

  lemma ReachableSound(s0: State, steps: seq<Step>)
    requires Start(s0) && Legal(s0, steps)
    ensures Sound(Run(s0, steps))
  {
    StartSound(s0);
    RunSound(s0, steps);
  }
}
