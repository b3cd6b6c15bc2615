/** What every reachable database satisfies, and that each step keeps it. */
module Invariants {
  import opened Schema
  import opened Tables

  /** A task is in exactly one of the two tables, under an id that was handed out. */
  ghost predicate Keyed(db: Db) {
    && db.active.Keys !! db.archived.Keys
    && (forall t :: t in Ids(db) ==> t < db.nextTask)
    && (forall w :: w in db.workers ==> w in db.enrolled && db.enrolled[w] == db.workers[w].uuid)
    && db.groupWorker.Keys <= db.workers.Keys
  }

  ghost predicate UniqueUuids(db: Db) {
    forall i, j :: i in Ids(db) && j in Ids(db) && Row(db, i).uuid == Row(db, j).uuid ==> i == j
  }

  /** Numbers within a group are unique across both tables and bounded by its counter. */
  ghost predicate Numbered(db: Db) {
    && (forall t :: t in Ids(db) ==>
          Row(db, t).group in db.taskCount && Row(db, t).number <= db.taskCount[Row(db, t).group])
    && (forall i, j :: i in Ids(db) && j in Ids(db) && SameNumber(Row(db, i), Row(db, j)) ==> i == j)
  }

  predicate SameNumber(a: Task, b: Task) {
    a.group == b.group && a.number == b.number
  }

  predicate Held(row: Task) {
    row.state == Running || row.state == Finished || row.state == Cancelled
  }

  /** Who holds what is stored twice, and both copies agree: exactly the Running, Finished
      and Cancelled tasks have a holder, and holder and task name each other. */
  ghost predicate Holding(db: Db) {
    && (forall t :: t in db.active ==> (db.active[t].worker.Some? <==> Held(db.active[t])))
    && (forall t :: t in db.active ==> (!Held(db.active[t]) <==> Cancellable(db.active[t])))
    && (forall t :: t in db.active && db.active[t].worker.Some? ==>
          db.active[t].worker.value in db.workers
          && db.workers[db.active[t].worker.value].task == Some(t))
    && (forall w :: w in db.workers && db.workers[w].task.Some? ==>
          db.workers[w].task.value in db.active
          && db.active[db.workers[w].task.value].worker == Some(w))
  }

  ghost predicate IsUpstream(db: Db, i: TaskId, j: TaskId)
    requires i in Ids(db)
  {
    j in Ids(db) && Row(db, i).upstream == Some(Row(db, j).uuid)
  }

  /** Task `j` has the given uuid and was committed by a worker. */
  ghost predicate Committed(db: Db, u: Uuid, j: TaskId) {
    j in db.archived && db.archived[j].task.uuid == u && db.archived[j].reporter.Some?
  }

  /** The task was let out of Pending and did not end as cancelled by a user. */
  ghost predicate Started(db: Db, i: TaskId)
    requires i in Ids(db)
  {
    if i in db.active then db.active[i].state != Pending else db.archived[i].reporter.Some?
  }

  ghost predicate IsDownstream(db: Db, i: TaskId, j: TaskId)
    requires i in Ids(db)
  {
    j in Ids(db) && Row(db, i).downstream == Some(Row(db, j).uuid)
    && Row(db, j).upstream == Some(Row(db, i).uuid)
  }

  /** Chains: an upstream was inserted before the task it spawned. */
  ghost predicate Rooted(db: Db) {
    forall i :: i in Ids(db) && Row(db, i).upstream.Some? ==> exists j: TaskId :: IsUpstream(db, i, j) && j < i
  }

  /** A downstream link points to a task whose upstream points back. */
  ghost predicate Linked(db: Db) {
    forall i :: i in Ids(db) && Row(db, i).downstream.Some? ==> exists j: TaskId :: IsDownstream(db, i, j)
  }

  /** Causality: a spawned task leaves Pending only after its upstream was committed. */
  ghost predicate Causal(db: Db) {
    forall i :: i in Ids(db) && Started(db, i) && Row(db, i).upstream.Some? ==>
      exists j :: Committed(db, Row(db, i).upstream.value, j)
  }

  /** Active rows carry no result; archived rows are done, carry one, and were either
      cancelled by a user or reported by the worker they name. */
  ghost predicate Settled(db: Db) {
    && (forall t :: t in db.active ==> db.active[t].result.None?)
    && (forall t :: t in db.archived ==> SettledRow(db, db.archived[t]))
  }

  ghost predicate SettledRow(db: Db, a: Archived) {
    && Done(a.task) && a.task.result.Some?
    && (a.reporter.None? ==> a.task.state == Cancelled && a.task.result == Some(USER_CANCELLED))
    && (a.reporter.Some? ==> a.task.worker.Some? && a.task.worker.value in db.enrolled
                             && db.enrolled[a.task.worker.value] == a.reporter.value)
  }

  /** A worker asked to shut down gracefully still holds a task. */
  ghost predicate Leaving(db: Db) {
    forall w :: w in db.workers && db.workers[w].state == GracefulShutdown ==> db.workers[w].task.Some?
  }

  ghost predicate Inv(db: Db) {
    && Keyed(db) && UniqueUuids(db) && Numbered(db) && Holding(db)
    && Rooted(db) && Linked(db) && Causal(db) && Settled(db) && Leaving(db)
  }

  // ----- conservation

  predicate SameIdentity(a: Task, b: Task) {
    a.uuid == b.uuid && a.creator == b.creator && a.group == b.group && a.number == b.number
    && a.upstream == b.upstream
  }

  /** Nothing is lost or renamed: every task stays in some table with the same identity, and
      archived rows never change or return. */
  ghost predicate Extends(db: Db, db': Db) {
    && Ids(db) <= Ids(db')
    && (forall t :: t in Ids(db) ==> SameIdentity(Row(db, t), Row(db', t)))
    && (forall t :: t in db.archived ==> t in db'.archived && db'.archived[t] == db.archived[t])
    && (forall w :: w in db.enrolled ==> w in db'.enrolled && db'.enrolled[w] == db.enrolled[w])
    && (forall g :: g in db.taskCount ==> g in db'.taskCount && db.taskCount[g] <= db'.taskCount[g])
    && db'.userGroup == db.userGroup
    && db.nextTask <= db'.nextTask
  }

  lemma ExtendsTransitive(a: Db, b: Db, c: Db)
    requires Extends(a, b) && Extends(b, c) && c.active.Keys !! c.archived.Keys
    ensures Extends(a, c)
  {
  }

  /** A step that inserts nothing, keeps the downstream links and lets no Pending task out. */
  ghost predicate Quiet(db: Db, db': Db) {
    && Extends(db, db') && Ids(db') == Ids(db)
    && (forall t :: t in Ids(db) ==> Row(db', t).downstream == Row(db, t).downstream)
    && (forall t :: t in Ids(db) && Started(db', t) ==> Started(db, t))
  }

  /** The part of the invariant that speaks of one row at a time. */
  ghost predicate Local(db: Db) {
    Keyed(db) && Holding(db) && Settled(db) && Leaving(db)
  }

  lemma RootedStays(db: Db, db': Db, i: TaskId)
    requires Extends(db, db') && Rooted(db) && i in Ids(db) && Row(db, i).upstream.Some?
    ensures exists j: TaskId :: IsUpstream(db', i, j) && j < i
  {
    var j: TaskId :| IsUpstream(db, i, j) && j < i;
    assert SameIdentity(Row(db, i), Row(db', i)) && SameIdentity(Row(db, j), Row(db', j));
    assert IsUpstream(db', i, j);
  }

  lemma LinkedStays(db: Db, db': Db, i: TaskId)
    requires Extends(db, db') && Linked(db) && i in Ids(db) && Row(db, i).downstream.Some?
    requires Row(db', i).downstream == Row(db, i).downstream
    ensures exists j: TaskId :: IsDownstream(db', i, j)
  {
    var j: TaskId :| IsDownstream(db, i, j);
    assert SameIdentity(Row(db, i), Row(db', i)) && SameIdentity(Row(db, j), Row(db', j));
    assert IsDownstream(db', i, j);
  }

  lemma CausalStays(db: Db, db': Db, i: TaskId)
    requires Extends(db, db') && Causal(db) && i in Ids(db) && Started(db, i)
    requires Row(db, i).upstream.Some?
    ensures exists j :: Committed(db', Row(db, i).upstream.value, j)
  {
    var j :| Committed(db, Row(db, i).upstream.value, j);
    assert Committed(db', Row(db, i).upstream.value, j);
  }

  lemma IdentitiesStay(db: Db, db': Db)
    requires UniqueUuids(db) && Numbered(db) && Extends(db, db') && Ids(db') == Ids(db)
    ensures UniqueUuids(db') && Numbered(db')
  {
    forall i, j | i in Ids(db') && j in Ids(db') && SameNumber(Row(db', i), Row(db', j))
      ensures i == j
    {
      assert SameIdentity(Row(db, i), Row(db', i)) && SameIdentity(Row(db, j), Row(db', j));
      assert SameNumber(Row(db, i), Row(db, j));
    }
  }

  lemma LinksStay(db: Db, db': Db)
    requires Rooted(db) && Linked(db) && Extends(db, db') && Ids(db') == Ids(db)
    requires forall t :: t in Ids(db) ==> Row(db', t).downstream == Row(db, t).downstream
    ensures Rooted(db') && Linked(db')
  {
    forall i | i in Ids(db') && Row(db', i).upstream.Some?
      ensures exists j: TaskId :: IsUpstream(db', i, j) && j < i
    {
      assert SameIdentity(Row(db, i), Row(db', i));
      RootedStays(db, db', i);
    }
    forall i | i in Ids(db') && Row(db', i).downstream.Some?
      ensures exists j: TaskId :: IsDownstream(db', i, j)
    {
      LinkedStays(db, db', i);
    }
  }

  lemma QuietCausal(db: Db, db': Db)
    requires Causal(db) && Quiet(db, db')
    ensures Causal(db')
  {
    forall i | i in Ids(db') && Started(db', i) && Row(db', i).upstream.Some?
      ensures exists j :: Committed(db', Row(db', i).upstream.value, j)
    {
      assert SameIdentity(Row(db, i), Row(db', i));
      CausalStays(db, db', i);
    }
  }

  /** Quiet steps keep the invariant once they keep the part about single rows. */
  lemma QuietKeeps(db: Db, db': Db)
    requires Inv(db) && Quiet(db, db') && Local(db')
    ensures Inv(db') && Extends(db, db')
  {
    IdentitiesStay(db, db');
    LinksStay(db, db');
    QuietCausal(db, db');
  }

  // ----- what steps do to the worker tables

  predicate LeavesWorkers(step: Step) {
    LeavesTables(step) || IsCancel(step) || step.SubmitTask? || step.ChangeTask?
  }

  lemma SameWorkers(db: Db, step: Step)
    requires LeavesWorkers(step)
    ensures DbApply(db, step).workers == db.workers && DbApply(db, step).groupWorker == db.groupWorker
  {
  }

  /** Of the reports only an accepted commit touches a worker row, namely the reporter's. */
  lemma ReportWorkers(db: Db, w: WorkerId, t: TaskId, report: Report)
    requires w in db.workers
    ensures var db' := ApplyReport(db, w, t, report);
      if report.Commit? && CommitAccepted(db, w, t)
      then db'.workers == ArchiveCommit(db, w, t, report.result).workers
           && db'.groupWorker == ArchiveCommit(db, w, t, report.result).groupWorker
      else db'.workers == db.workers && db'.groupWorker == db.groupWorker
  {
  }

  // ----- steps that insert no task

  lemma RowUpdateQuiet(db: Db, t: TaskId, row: Task)
    requires Keyed(db) && Settled(db) && t in db.active && SameIdentity(db.active[t], row)
    requires row.downstream == db.active[t].downstream && row.result == db.active[t].result
    requires row.state != Pending ==> db.active[t].state != Pending
    ensures Quiet(db, WithRow(db, t, row))
    ensures Keyed(WithRow(db, t, row)) && Settled(WithRow(db, t, row))
  {
    assert Ids(WithRow(db, t, row)) == Ids(db);
  }

  lemma ChangeQuiet(db: Db, step: Step)
    requires Keyed(db) && Settled(db) && step.ChangeTask?
    ensures var db' := ApplyChange(db, step); Quiet(db, db') && Keyed(db') && Settled(db')
  {
    assert Ids(ApplyChange(db, step)) == Ids(db);
  }

  lemma ChangeHolding(db: Db, step: Step)
    requires Holding(db) && Leaving(db) && step.ChangeTask?
    ensures Holding(ApplyChange(db, step)) && Leaving(ApplyChange(db, step))
  {
  }

  lemma ChangeKeeps(db: Db, step: Step)
    requires Inv(db) && step.ChangeTask?
    ensures Inv(ApplyChange(db, step)) && Extends(db, ApplyChange(db, step))
  {
    ChangeQuiet(db, step);
    ChangeHolding(db, step);
    QuietKeeps(db, ApplyChange(db, step));
  }

  lemma StateKept(db: Db, t: TaskId, row: Task)
    requires Holding(db) && Leaving(db) && t in db.active && row.worker == db.active[t].worker
    requires Held(row) == Held(db.active[t]) && Cancellable(row) == Cancellable(db.active[t])
    ensures Holding(WithRow(db, t, row)) && Leaving(WithRow(db, t, row))
  {
  }

  lemma FinishKeeps(db: Db, t: TaskId, state: TaskState)
    requires Inv(db) && t in db.active && Held(db.active[t]) && (state == Finished || state == Cancelled)
    ensures var db' := WithRow(db, t, db.active[t].(state := state)); Inv(db') && Extends(db, db')
  {
    var row := db.active[t].(state := state);
    RowUpdateQuiet(db, t, row);
    StateKept(db, t, row);
    QuietKeeps(db, WithRow(db, t, row));
  }

  lemma CancelledRow(db: Db, ts: set<TaskId>, t: TaskId)
    requires db.active.Keys !! db.archived.Keys && t in Ids(db)
    ensures var db' := CancelRows(db, ts);
            t in Ids(db') && SameIdentity(Row(db, t), Row(db', t))
            && Row(db', t).downstream == Row(db, t).downstream && (Started(db', t) ==> Started(db, t))
            && (t in db.archived ==> t in db'.archived && db'.archived[t] == db.archived[t])
  {
  }

  lemma CancelQuiet(db: Db, ts: set<TaskId>)
    requires db.active.Keys !! db.archived.Keys && forall t :: t in ts ==> t in db.active
    ensures Quiet(db, CancelRows(db, ts))
  {
    forall t | t in Ids(db)
      ensures var db' := CancelRows(db, ts);
              t in Ids(db') && SameIdentity(Row(db, t), Row(db', t))
              && Row(db', t).downstream == Row(db, t).downstream && (Started(db', t) ==> Started(db, t))
    {
      CancelledRow(db, ts, t);
    }
    assert Ids(CancelRows(db, ts)) == Ids(db);
  }

  lemma CancelSettled(db: Db, ts: set<TaskId>)
    requires Keyed(db) && Settled(db) && forall t :: t in ts ==> t in db.active
    ensures Settled(CancelRows(db, ts)) && Keyed(CancelRows(db, ts))
  {
    var db' := CancelRows(db, ts);
    assert Ids(db') == Ids(db);
    forall t | t in db'.archived ensures SettledRow(db', db'.archived[t]) {
      if t !in ts { assert SettledRow(db, db.archived[t]); }
    }
  }

  lemma CancelHolding(db: Db, ts: set<TaskId>)
    requires Keyed(db) && Holding(db) && forall t :: t in ts ==> t in db.active && Cancellable(db.active[t])
    ensures Holding(CancelRows(db, ts))
  {
  }

  lemma CancelLeaving(db: Db, ts: set<TaskId>)
    requires Holding(db) && Leaving(db) && forall t :: t in ts ==> t in db.active && Cancellable(db.active[t])
    ensures Leaving(CancelRows(db, ts))
  {
  }

  lemma CancelKeeps(db: Db, ts: set<TaskId>)
    requires Inv(db) && forall t :: t in ts ==> t in db.active && Cancellable(db.active[t])
    ensures Inv(CancelRows(db, ts)) && Extends(db, CancelRows(db, ts))
  {
    CancelQuiet(db, ts);
    CancelSettled(db, ts);
    CancelHolding(db, ts);
    CancelLeaving(db, ts);
    QuietKeeps(db, CancelRows(db, ts));
  }

  lemma EnrolLocal(db: Db, w: WorkerId, badge: Uuid, tags: set<string>, roles: map<GroupId, GroupWorkerRole>)
    requires Local(db) && w !in db.enrolled
    ensures Local(Enrol(db, w, badge, tags, roles))
  {
    assert Ids(Enrol(db, w, badge, tags, roles)) == Ids(db);
  }

  lemma EnrolQuiet(db: Db, w: WorkerId, badge: Uuid, tags: set<string>, roles: map<GroupId, GroupWorkerRole>)
    requires Keyed(db) && w !in db.enrolled
    ensures Quiet(db, Enrol(db, w, badge, tags, roles))
  {
    assert Ids(Enrol(db, w, badge, tags, roles)) == Ids(db);
  }

  lemma EnrolKeeps(db: Db, w: WorkerId, badge: Uuid, tags: set<string>, roles: map<GroupId, GroupWorkerRole>)
    requires Inv(db) && w !in db.enrolled
    ensures Inv(Enrol(db, w, badge, tags, roles)) && Extends(db, Enrol(db, w, badge, tags, roles))
  {
    EnrolLocal(db, w, badge, tags, roles);
    EnrolQuiet(db, w, badge, tags, roles);
    QuietKeeps(db, Enrol(db, w, badge, tags, roles));
  }

  /** Worker rows have no part in what a quiet step promises. */
  lemma SameRows(db: Db, mid: Db, db': Db)
    requires Quiet(db, mid) && Settled(mid)
    requires db' == mid.(workers := db'.workers, groupWorker := db'.groupWorker)
    ensures Quiet(db, db') && Settled(db')
  {
    assert Ids(db') == Ids(mid);
    assert forall t :: t in Ids(mid) ==> Row(db', t) == Row(mid, t);
    assert forall t :: t in Ids(mid) ==> Started(db', t) == Started(mid, t);
  }

  lemma ClaimQuiet(db: Db, w: WorkerId, t: TaskId)
    requires Keyed(db) && Settled(db) && w in db.workers && db.workers[w].task.None?
    ensures Quiet(db, ClaimTask(db, w, t)) && Keyed(ClaimTask(db, w, t)) && Settled(ClaimTask(db, w, t))
  {
    if Claimable(db, t) {
      RowUpdateQuiet(db, t, db.active[t].(worker := Some(w), state := Running));
      SameRows(db, WithRow(db, t, db.active[t].(worker := Some(w), state := Running)), ClaimTask(db, w, t));
    }
  }

  lemma ClaimHolding(db: Db, w: WorkerId, t: TaskId)
    requires Keyed(db) && Holding(db) && w in db.workers && db.workers[w].task.None?
    ensures Holding(ClaimTask(db, w, t))
  {
  }

  lemma ClaimLeaving(db: Db, w: WorkerId, t: TaskId)
    requires Holding(db) && Leaving(db) && w in db.workers && db.workers[w].task.None?
    ensures Leaving(ClaimTask(db, w, t))
  {
  }

  lemma ClaimKeeps(db: Db, w: WorkerId, t: TaskId)
    requires Inv(db) && w in db.workers && db.workers[w].task.None?
    ensures Inv(ClaimTask(db, w, t)) && Extends(db, ClaimTask(db, w, t))
  {
    ClaimQuiet(db, w, t);
    ClaimHolding(db, w, t);
    ClaimLeaving(db, w, t);
    QuietKeeps(db, ClaimTask(db, w, t));
  }

  lemma HeldIsAssigned(db: Db, ws: set<WorkerId>)
    requires Holding(db)
    ensures HeldTasks(db, ws) == AssignedTasks(db, ws)
    ensures EvictAssigned(db, ws) == Evict(db, ws)
  {
    forall t | t in HeldTasks(db, ws) ensures t in AssignedTasks(db, ws) {
      var w := db.active[t].worker.value;
      assert w in ws && w in db.workers && db.workers[w].task == Some(t);
    }
  }

  lemma ReleaseQuiet(db: Db, ts: set<TaskId>)
    requires Keyed(db) && Settled(db) && forall t :: t in ts && t in db.active ==> db.active[t].state != Pending
    ensures var db' := db.(active := ReleaseRows(db.active, ts)); Quiet(db, db') && Settled(db')
  {
    assert Ids(db.(active := ReleaseRows(db.active, ts))) == Ids(db);
  }

  lemma EvictQuiet(db: Db, ws: set<WorkerId>)
    requires Keyed(db) && Settled(db) && Holding(db)
    ensures Quiet(db, Evict(db, ws)) && Keyed(Evict(db, ws)) && Settled(Evict(db, ws))
  {
    var ts := HeldTasks(db, ws);
    ReleaseQuiet(db, ts);
    SameRows(db, db.(active := ReleaseRows(db.active, ts)), Evict(db, ws));
    EvictKeyed(db, ws);
  }

  lemma EvictKeyed(db: Db, ws: set<WorkerId>)
    requires Keyed(db)
    ensures Keyed(Evict(db, ws))
  {
    assert Ids(Evict(db, ws)) == Ids(db);
  }

  lemma EvictHolding(db: Db, ws: set<WorkerId>)
    requires Keyed(db) && Holding(db)
    ensures Holding(Evict(db, ws))
  {
  }

  lemma EvictLeaving(db: Db, ws: set<WorkerId>)
    requires Holding(db) && Leaving(db)
    ensures Leaving(Evict(db, ws))
  {
  }

  lemma EvictKeeps(db: Db, ws: set<WorkerId>)
    requires Inv(db)
    ensures Inv(Evict(db, ws)) && Extends(db, Evict(db, ws))
  {
    EvictQuiet(db, ws);
    EvictHolding(db, ws);
    EvictLeaving(db, ws);
    QuietKeeps(db, Evict(db, ws));
  }

  lemma RetireLocal(db: Db, ws: set<WorkerId>)
    requires Local(db)
    ensures Local(Retire(db, ws))
  {
    assert Ids(Retire(db, ws)) == Ids(db);
  }

  lemma RetireKeeps(db: Db, ws: set<WorkerId>)
    requires Inv(db)
    ensures Inv(Retire(db, ws)) && Extends(db, Retire(db, ws))
  {
    RetireLocal(db, ws);
    SameRows(db, db, Retire(db, ws));
    QuietKeeps(db, Retire(db, ws));
  }

  lemma MoveQuiet(db: Db, t: TaskId, a: Archived)
    requires Keyed(db) && t in db.active
    requires SameIdentity(db.active[t], a.task) && a.task.downstream == db.active[t].downstream
    requires db.active[t].state != Pending
    ensures Quiet(db, Move(db, t, a))
  {
    var db' := Move(db, t, a);
    assert Ids(db') == Ids(db);
    assert Row(db, t) == db.active[t] && Row(db', t) == a.task;
    assert forall k :: k in Ids(db) && k != t ==> Row(db', k) == Row(db, k);
  }

  lemma MoveSettled(db: Db, t: TaskId, a: Archived)
    requires Keyed(db) && Settled(db) && t in db.active && SettledRow(db, a)
    ensures Settled(Move(db, t, a)) && Keyed(Move(db, t, a))
  {
    var db' := Move(db, t, a);
    assert Ids(db') == Ids(db);
    forall k | k in db'.archived ensures SettledRow(db', db'.archived[k]) {
      assert k != t ==> SettledRow(db, db.archived[k]);
    }
  }

  lemma ArchiveQuiet(db: Db, w: WorkerId, t: TaskId, res: TaskResultSpec)
    requires Keyed(db) && Settled(db)
    requires HeldBy(db, w, t) && w in db.workers && Done(db.active[t])
    ensures var db' := ArchiveCommit(db, w, t, res); Quiet(db, db') && Keyed(db') && Settled(db')
  {
    var a := Archived(db.active[t].(result := Some(res)), Some(db.workers[w].uuid));
    MoveQuiet(db, t, a);
    MoveSettled(db, t, a);
    SameRows(db, Move(db, t, a), ArchiveCommit(db, w, t, res));
    ArchiveKeyed(db, w, t, res);
  }

  lemma ArchiveKeyed(db: Db, w: WorkerId, t: TaskId, res: TaskResultSpec)
    requires Keyed(db) && HeldBy(db, w, t) && w in db.workers
    ensures Keyed(ArchiveCommit(db, w, t, res))
  {
    var db' := ArchiveCommit(db, w, t, res);
    assert Ids(db') == Ids(db);
  }

  lemma ArchiveHolding(db: Db, w: WorkerId, t: TaskId, res: TaskResultSpec)
    requires Keyed(db) && Holding(db) && HeldBy(db, w, t) && w in db.workers && Done(db.active[t])
    ensures Holding(ArchiveCommit(db, w, t, res))
  {
  }

  lemma ArchiveLeaving(db: Db, w: WorkerId, t: TaskId, res: TaskResultSpec)
    requires Holding(db) && Leaving(db) && HeldBy(db, w, t) && w in db.workers && Done(db.active[t])
    ensures Leaving(ArchiveCommit(db, w, t, res))
  {
  }

  lemma ArchiveKeeps(db: Db, w: WorkerId, t: TaskId, res: TaskResultSpec)
    requires Inv(db) && HeldBy(db, w, t) && w in db.workers && Done(db.active[t])
    ensures Inv(ArchiveCommit(db, w, t, res)) && Extends(db, ArchiveCommit(db, w, t, res))
  {
    ArchiveQuiet(db, w, t, res);
    ArchiveHolding(db, w, t, res);
    ArchiveLeaving(db, w, t, res);
    QuietKeeps(db, ArchiveCommit(db, w, t, res));
  }

  // ----- releasing a Pending task

  lemma TriggerQuiet(db: Db, d: Option<Uuid>)
    requires Keyed(db) && Settled(db)
    ensures var db' := Trigger(db, d);
      && Keyed(db') && Settled(db') && Extends(db, db') && Ids(db') == Ids(db)
      && forall k :: k in Ids(db) ==> Row(db', k).downstream == Row(db, k).downstream
  {
    assert Ids(Trigger(db, d)) == Ids(db);
  }

  lemma TriggerHolding(db: Db, d: Option<Uuid>)
    requires Holding(db) && Leaving(db)
    ensures Holding(Trigger(db, d)) && Leaving(Trigger(db, d))
  {
  }

  lemma TriggerCausal(db: Db, i: TaskId)
    requires Keyed(db) && UniqueUuids(db) && Linked(db) && Causal(db)
    requires i in db.archived && db.archived[i].reporter.Some?
    requires Extends(db, Trigger(db, db.archived[i].task.downstream))
    requires Ids(Trigger(db, db.archived[i].task.downstream)) == Ids(db)
    ensures Causal(Trigger(db, db.archived[i].task.downstream))
  {
    var d := db.archived[i].task.downstream;
    var db' := Trigger(db, d);
    forall k | k in Ids(db') && Started(db', k) && Row(db', k).upstream.Some?
      ensures exists j :: Committed(db', Row(db', k).upstream.value, j)
    {
      assert SameIdentity(Row(db, k), Row(db', k));
      if k in TriggerSet(db, d) {
        DownstreamOfArchived(db, i, k);
        assert Committed(db', Row(db', k).upstream.value, i);
      } else {
        CausalStays(db, db', k);
      }
    }
  }

  lemma DownstreamOfArchived(db: Db, i: TaskId, t: TaskId)
    requires Keyed(db) && UniqueUuids(db) && Linked(db) && i in db.archived && t in db.active
    requires db.archived[i].reporter.Some?
    requires db.archived[i].task.downstream == Some(db.active[t].uuid)
    ensures db.active[t].upstream.Some? && Committed(db, db.active[t].upstream.value, i)
  {
    assert i in Ids(db) && Row(db, i) == db.archived[i].task;
    var j: TaskId :| IsDownstream(db, i, j);
    assert t in Ids(db) && Row(db, t) == db.active[t];
    assert j == t;
  }

  /** Releasing the task that an archived task names as its downstream. */
  lemma TriggerKeeps(db: Db, i: TaskId)
    requires Inv(db) && i in db.archived && db.archived[i].reporter.Some?
    ensures Inv(Trigger(db, db.archived[i].task.downstream))
    ensures Extends(db, Trigger(db, db.archived[i].task.downstream))
  {
    var d := db.archived[i].task.downstream;
    TriggerQuiet(db, d);
    TriggerHolding(db, d);
    TriggerCausal(db, i);
    IdentitiesStay(db, Trigger(db, d));
    LinksStay(db, Trigger(db, d));
  }

  lemma CommitKeeps(db: Db, w: WorkerId, t: TaskId, res: TaskResultSpec)
    requires Inv(db) && CommitAccepted(db, w, t)
    ensures var db' := Trigger(ArchiveCommit(db, w, t, res), db.active[t].downstream);
            Inv(db') && Extends(db, db')
  {
    var mid := ArchiveCommit(db, w, t, res);
    ArchiveKeeps(db, w, t, res);
    assert mid.archived[t].task.downstream == db.active[t].downstream;
    TriggerKeeps(mid, t);
    ExtendsTransitive(db, mid, Trigger(mid, db.active[t].downstream));
  }

  // ----- inserting a task

  /** What a submission does to the tables, said without its intermediate states. */
  ghost predicate Inserted(db: Db, db': Db, row: Task) {
    && row.group in db.taskCount
    && db' == db.(active := db.active[db.nextTask := row], nextTask := db.nextTask + 1,
                  taskCount := db.taskCount[row.group := db.taskCount[row.group] + 1])
    && row.number == db.taskCount[row.group] + 1
    && row.worker.None? && row.result.None? && row.downstream.None?
  }

  lemma InsertLocal(db: Db, db': Db, row: Task)
    requires Local(db) && Inserted(db, db', row) && Cancellable(row)
    ensures Local(db') && Extends(db, db') && Ids(db') == Ids(db) + {db.nextTask}
    ensures Row(db', db.nextTask) == row
    ensures forall t :: t in Ids(db) ==> t != db.nextTask && Row(db', t) == Row(db, t)
  {
    assert Ids(db') == Ids(db) + {db.nextTask};
  }

  lemma InsertIdentities(db: Db, db': Db, row: Task)
    requires UniqueUuids(db) && Numbered(db) && FreshUuid(db, row.uuid) && Inserted(db, db', row)
    requires Ids(db') == Ids(db) + {db.nextTask} && Row(db', db.nextTask) == row
    requires forall t :: t in Ids(db) ==> t != db.nextTask && Row(db', t) == Row(db, t)
    ensures UniqueUuids(db') && Numbered(db')
  {
  }

  lemma InsertLinks(db: Db, db': Db, row: Task)
    requires Keyed(db) && Rooted(db) && Linked(db) && Inserted(db, db', row) && Extends(db, db')
    requires Ids(db') == Ids(db) + {db.nextTask} && Row(db', db.nextTask) == row
    requires forall t :: t in Ids(db) ==> t != db.nextTask && Row(db', t) == Row(db, t)
    requires row.upstream.Some? ==> exists j :: j in Ids(db) && Row(db, j).uuid == row.upstream.value
    ensures Rooted(db') && Linked(db')
  {
    forall i | i in Ids(db') && Row(db', i).upstream.Some?
      ensures exists j: TaskId :: IsUpstream(db', i, j) && j < i
    {
      if i == db.nextTask {
        var j :| j in Ids(db) && Row(db, j).uuid == row.upstream.value;
        assert IsUpstream(db', i, j) && j < i;
      } else {
        RootedStays(db, db', i);
      }
    }
    forall i | i in Ids(db') && Row(db', i).downstream.Some?
      ensures exists j: TaskId :: IsDownstream(db', i, j)
    {
      LinkedStays(db, db', i);
    }
  }

  lemma InsertCausal(db: Db, db': Db, row: Task)
    requires Causal(db) && Inserted(db, db', row) && Extends(db, db')
    requires row.upstream.Some? ==> row.state == Pending
    ensures Causal(db')
  {
    forall k | k in Ids(db') && Started(db', k) && Row(db', k).upstream.Some?
      ensures exists j :: Committed(db', Row(db', k).upstream.value, j)
    {
      CausalStays(db, db', k);
    }
  }

  lemma InsertKeeps(db: Db, db': Db, row: Task)
    requires Inv(db) && Inserted(db, db', row) && Cancellable(row) && FreshUuid(db, row.uuid)
    requires row.upstream.Some? ==>
      row.state == Pending && exists j :: j in Ids(db) && Row(db, j).uuid == row.upstream.value
    ensures Inv(db') && Extends(db, db')
  {
    InsertLocal(db, db', row);
    InsertIdentities(db, db', row);
    InsertLinks(db, db', row);
    InsertCausal(db, db', row);
  }

  lemma BumpKeeps(db: Db, group: GroupId)
    requires Inv(db) && group in db.taskCount
    ensures Inv(Bump(db, group)) && Extends(db, Bump(db, group))
  {
    assert Quiet(db, Bump(db, group));
    QuietKeeps(db, Bump(db, group));
  }

  lemma SubmissionKeeps(db: Db, creator: UserId, group: GroupId, tags: set<string>, priority: int,
                        uuid: Uuid, specOk: bool, state: TaskState, upstream: Option<Uuid>)
    requires Inv(db) && FreshUuid(db, uuid) && (state == Ready || state == Pending)
    requires upstream.Some? ==>
      state == Pending && exists j :: j in Ids(db) && Row(db, j).uuid == upstream.value
    ensures var db' := Submission(db, creator, group, tags, priority, uuid, specOk, state, upstream);
            Inv(db') && Extends(db, db')
  {
    if group in db.taskCount {
      if specOk {
        var bumped := Bump(db, group);
        var row := NewTask(bumped, creator, group, tags, priority, uuid, state, upstream);
        InsertKeeps(db, Insert(bumped, row), row);
      } else {
        BumpKeeps(db, group);
      }
    }
  }

  /** A report that spawns a task: the insertion, then the link from the reporting task. */
  lemma SpawnKeeps(db: Db, w: WorkerId, t: TaskId, report: Report)
    requires Inv(db) && Spawns(db, w, t, report) && FreshUuid(db, report.uuid)
    ensures Inv(Spawn(db, w, t, report)) && Extends(db, Spawn(db, w, t, report))
  {
    var row := db.active[t];
    assert t in Ids(db) && Row(db, t) == row;
    SubmissionKeeps(db, row.creator, row.group, report.tags, report.priority, report.uuid,
                    report.specOk, Pending, Some(row.uuid));
    if Submits(db, row.group, report.specOk) {
      var mid := Submission(db, row.creator, row.group, report.tags, report.priority, report.uuid,
                            report.specOk, Pending, Some(row.uuid));
      assert mid.active[t] == row && t < db.nextTask;
      LinkKeeps(mid, t, db.nextTask);
      ExtendsTransitive(db, mid, Spawn(db, w, t, report));
    }
  }

  lemma LinkLocal(db: Db, t: TaskId, row: Task)
    requires Local(db) && t in db.active && row == db.active[t].(downstream := row.downstream)
    ensures Local(WithRow(db, t, row)) && Extends(db, WithRow(db, t, row))
    ensures Ids(WithRow(db, t, row)) == Ids(db)
  {
    assert Ids(WithRow(db, t, row)) == Ids(db);
  }

  lemma LinkKeeps(db: Db, t: TaskId, d: TaskId)
    requires Inv(db) && t in db.active && d in db.active && t != d
    requires db.active[d].upstream == Some(db.active[t].uuid)
    ensures var db' := WithRow(db, t, db.active[t].(downstream := Some(db.active[d].uuid)));
            Inv(db') && Extends(db, db')
  {
    var row := db.active[t].(downstream := Some(db.active[d].uuid));
    var db' := WithRow(db, t, row);
    LinkLocal(db, t, row);
    IdentitiesStay(db, db');
    LinkChains(db, db', t, d);
    LinkCausal(db, db', t);
  }

  lemma LinkCausal(db: Db, db': Db, t: TaskId)
    requires Causal(db) && t in db.active && Extends(db, db')
    requires exists d :: db' == WithRow(db, t, db.active[t].(downstream := d))
    ensures Causal(db')
  {
    forall k | k in Ids(db') && Started(db', k) && Row(db', k).upstream.Some?
      ensures exists j :: Committed(db', Row(db', k).upstream.value, j)
    {
      CausalStays(db, db', k);
    }
  }

  lemma LinkChains(db: Db, db': Db, t: TaskId, d: TaskId)
    requires Rooted(db) && Linked(db) && t in db.active && d in db.active && t != d
    requires db.active[d].upstream == Some(db.active[t].uuid)
    requires db' == WithRow(db, t, db.active[t].(downstream := Some(db.active[d].uuid)))
    requires Extends(db, db') && Ids(db') == Ids(db)
    ensures Rooted(db') && Linked(db')
  {
    forall i | i in Ids(db') && Row(db', i).upstream.Some?
      ensures exists j: TaskId :: IsUpstream(db', i, j) && j < i
    {
      assert SameIdentity(Row(db, i), Row(db', i));
      RootedStays(db, db', i);
    }
    forall i | i in Ids(db') && Row(db', i).downstream.Some?
      ensures exists j: TaskId :: IsDownstream(db', i, j)
    {
      if i == t {
        assert IsDownstream(db', t, d);
      } else {
        LinkedStays(db, db', i);
      }
    }
  }

  // ----- all steps, all runs

  /** Every step of the coordinator keeps the invariant and loses no task. */
  lemma StepKeeps(db: Db, step: Step)
    requires Inv(db) && DbGuard(db, step)
    ensures Inv(DbApply(db, step)) && Extends(db, DbApply(db, step))
  {
    if IsCancel(step) || IsRemoval(step) || LeavesTables(step) {
      BulkKeeps(db, step);
    } else {
      match step
      case SubmitTask(creator, group, tags, priority, uuid, specOk) =>
        SubmissionKeeps(db, creator, group, tags, priority, uuid, specOk, Ready, None);
      case ChangeTask(_, _, _, _, _, _) => ChangeKeeps(db, step);
      case RegisterWorker(w, badge, tags, roles) => EnrolKeeps(db, w, badge, tags, roles);
      case Claim(w, t) => ClaimKeeps(db, w, t);
      case ReportTask(w, t, report) => ReportKeeps(db, w, t, report);
      case GracefulShutdownOf(ws) => RetireKeeps(db, ws);
    }
  }

  lemma BulkKeeps(db: Db, step: Step)
    requires Inv(db) && (IsCancel(step) || IsRemoval(step) || LeavesTables(step))
    ensures Inv(DbApply(db, step)) && Extends(db, DbApply(db, step))
  {
    BulkIs(db, step);
    if IsCancel(step) {
      CancelKeeps(db, CancelSet(db, step));
    } else if IsRemoval(step) {
      EvictKeeps(db, RemovedBy(step));
    }
  }

  lemma BulkIs(db: Db, step: Step)
    requires Holding(db)
    ensures IsCancel(step) ==> DbApply(db, step) == CancelRows(db, CancelSet(db, step))
    ensures IsRemoval(step) ==> DbApply(db, step) == Evict(db, RemovedBy(step))
    ensures LeavesTables(step) ==> DbApply(db, step) == db
  {
    if IsRemoval(step) { HeldIsAssigned(db, RemovedBy(step)); }
  }

  lemma ReportKeeps(db: Db, w: WorkerId, t: TaskId, report: Report)
    requires Inv(db) && w in db.workers && (report.Submit? ==> FreshUuid(db, report.uuid))
    ensures Inv(ApplyReport(db, w, t, report)) && Extends(db, ApplyReport(db, w, t, report))
  {
    if HeldBy(db, w, t) {
      match report
      case Finish => FinishKeeps(db, t, Finished);
      case Cancel => FinishKeeps(db, t, Cancelled);
      case Submit(_, _, _, _, _, _) => if Spawns(db, w, t, report) { SpawnKeeps(db, w, t, report); }
      case Commit(res) => if CommitAccepted(db, w, t) { CommitKeeps(db, w, t, res); }
    }
  }

  lemma InitialInv(db: Db)
    requires Initial(db)
    ensures Inv(db)
  {
  }

  /** In every run the invariant holds, and no task inserted before is lost or renamed. */
  lemma {:induction false} RunKeeps(db: Db, steps: seq<Step>)
    requires Inv(db) && DbLegal(db, steps)
    ensures Inv(DbRun(db, steps)) && Extends(db, DbRun(db, steps))
    decreases |steps|
  {
    if steps != [] {
      var mid := DbApply(db, steps[0]);
      StepKeeps(db, steps[0]);
      RunKeeps(mid, steps[1..]);
      ExtendsTransitive(db, mid, DbRun(mid, steps[1..]));
    }
  }
}
