/** The service calls as they run: statements on the tables, then messages to the dispatcher
    and to the heartbeat queue. Each method is tied to the step of the protocol it takes. */
module Coordinator {
  import opened Schema
  import opened Lists
  import opened Tables
  import opened Invariants
  import opened Dispatcher
  import opened Heartbeats
  import opened Protocol
  import opened Scheduling
  import opened Dispatching
  import opened Shutdown

  class Service {
    var active: map<TaskId, Task>
    var archived: map<TaskId, Archived>
    var workers: map<WorkerId, Worker>
    var groupWorker: map<WorkerId, map<GroupId, GroupWorkerRole>>
    var userGroup: map<(UserId, GroupId), UserGroupRole>
    var taskCount: map<GroupId, nat>
    var nextTask: TaskId
    ghost var enrolled: map<WorkerId, Uuid>
    const dispatcher: TaskDispatcher
    const heartbeats: HeartbeatQueue
    var now: nat

    constructor (db: Db, timeout: nat)
      requires Initial(db)
      ensures View().db == db && View().timeout == timeout && Start(View()) && fresh(dispatcher) && fresh(heartbeats)
    {
      active, archived, workers, groupWorker := map[], map[], map[], map[];
      userGroup, taskCount, nextTask, enrolled := db.userGroup, db.taskCount, db.nextTask, map[];
      dispatcher := new TaskDispatcher();
      heartbeats := new HeartbeatQueue(timeout);
      now := 0;
    }

    ghost function Tables(): Db
      reads this
    {
      Db(active, archived, workers, groupWorker, userGroup, taskCount, nextTask, enrolled)
    }

    /** Service calls run to completion, so no candidate is in flight between them. */
    ghost function View(): State
      reads this, dispatcher, heartbeats
    {
      State(Tables(), dispatcher.workers, map[], heartbeats.workers, heartbeats.heard, now, heartbeats.timeout)
    }

    /** Which workers can run a task, as the join selects them. */
    method SelectWorkers(row: Task) returns (ws: seq<WorkerId>)
      ensures Elements(ws) == EligibleWorkers(Tables(), row)
    {
      var selected := set w | w in workers && w in groupWorker && row.group in groupWorker[w]
                              && groupWorker[w][row.group] != WorkerRead && row.tags <= workers[w].tags;
      assert selected == EligibleWorkers(Tables(), row);
      ws := Rows(selected);
    }

    /** Offers one task to every worker that can run it. */
    method OfferTask(t: TaskId)
      requires t in active
      modifies dispatcher
      ensures dispatcher.workers == Offer(old(dispatcher.workers), Tables(), t)
    {
      var ws := SelectWorkers(active[t]);
      dispatcher.BatchAddTask(ws, t, active[t].priority);
    }

    /** Offers tasks one after another. */
    method OfferTasks(ts: set<TaskId>)
      requires ts <= active.Keys
      modifies dispatcher
      ensures dispatcher.workers == OfferAll(old(dispatcher.workers), Tables(), ts)
    {
      var todo := ts;
      OfferNone(old(dispatcher.workers), Tables());
      while todo != {}
        invariant todo <= ts
        invariant dispatcher.workers == OfferAll(old(dispatcher.workers), Tables(), ts - todo)
        decreases todo
      {
        var t :| t in todo;
        OfferOneMore(old(dispatcher.workers), Tables(), ts - todo, t);
        assert ts - (todo - {t}) == ts - todo + {t};
        OfferTask(t);
        todo := todo - {t};
      }
      assert ts - {} == ts;
    }

    method SubmitTask(creator: UserId, group: GroupId, tags: set<string>, priority: int, uuid: Uuid, specOk: bool)
      returns (r: Option<(nat, Uuid)>)
      modifies this, dispatcher
      ensures View() == Apply(old(View()), Step.SubmitTask(creator, group, tags, priority, uuid, specOk))
      ensures r.Some? <==> Submits(old(Tables()), group, specOk)
      ensures r.Some? ==> r.value == (old(taskCount)[group] + 1, uuid)
    {
      r := None;
      if group in taskCount {
        taskCount := taskCount[group := taskCount[group] + 1];
        if specOk {
          var row := Task(uuid, creator, group, taskCount[group], tags, priority, Ready, None, None, None, None);
          var t := nextTask;
          active, nextTask := active[t := row], nextTask + 1;
          OfferTask(t);
          r := Some((row.number, uuid));
        }
      }
    }

    /** Moves the tasks named by one chunk to the archive as cancelled by a user. */
    method ArchiveChunk(user: UserId, chunk: seq<Uuid>) returns (rows: seq<TaskId>, found: set<Uuid>)
      modifies this`active, this`archived
      ensures Tables() == CancelRows(old(Tables()), Moved(old(Tables()), user, chunk))
      ensures Elements(rows) == Moved(old(Tables()), user, chunk) && Distinct(rows)
      ensures found == UuidsOf(old(Tables()), Moved(old(Tables()), user, chunk))
    {
      var moved := set t | t in active && active[t].uuid in chunk
                           && (active[t].state == Ready || active[t].state == Pending)
                           && (user, active[t].group) in userGroup
                           && userGroup[(user, active[t].group)] != UserRead;
      assert moved == Moved(Tables(), user, chunk);
      found := set t | t in moved :: active[t].uuid;
      archived := archived + CancelledRows(active, moved);
      active := active - moved;
      rows := Rows(moved);
    }

    /** One message to the dispatcher for each task. */
    method RemoveTasks(ids: seq<TaskId>)
      modifies dispatcher
      ensures dispatcher.workers == Removed(old(dispatcher.workers), Elements(ids))
    {
      assert Elements(ids[..0]) == {};
      assert forall w :: w in dispatcher.workers ==> dispatcher.workers[w] - {} == dispatcher.workers[w];
      for i := 0 to |ids|
        invariant dispatcher.workers == Removed(old(dispatcher.workers), Elements(ids[..i]))
      {
        assert Elements(ids[..i + 1]) == Elements(ids[..i]) + {ids[i]};
        assert forall w :: w in old(dispatcher.workers) ==>
          old(dispatcher.workers)[w] - Elements(ids[..i]) - {ids[i]}
          == old(dispatcher.workers)[w] - Elements(ids[..i + 1]);
        dispatcher.RemoveTask(ids[i]);
      }
      assert ids[..|ids|] == ids;
    }

    /** Moves the listed tasks to the archive chunk by chunk. */
    method ArchiveChunks(user: UserId, uuids: seq<Uuid>, size: nat)
      returns (ids: seq<TaskId>, found: set<Uuid>)
      requires size > 0
      modifies this`active, this`archived
      ensures Tables() == CancelRows(old(Tables()), Moved(old(Tables()), user, uuids))
      ensures Elements(ids) == Moved(old(Tables()), user, uuids) && Distinct(ids)
      ensures found == UuidsOf(old(Tables()), Moved(old(Tables()), user, uuids))
    {
      ghost var db := Tables();
      ids, found := [], {};
      var lo := 0;
      CancelNothing(db, user);
      while lo < |uuids|
        invariant lo <= |uuids|
        invariant Tables() == CancelRows(db, Moved(db, user, uuids[..lo]))
        invariant Elements(ids) == Moved(db, user, uuids[..lo]) && Distinct(ids)
        invariant found == UuidsOf(db, Elements(ids))
      {
        var hi := if lo + size < |uuids| then lo + size else |uuids|;
        MovedNext(db, user, uuids, lo, hi);
        var rows, uuidsOfRows := ArchiveChunk(user, uuids[lo..hi]);
        CancelTwice(db, Moved(db, user, uuids[..lo]), Elements(rows));
        DistinctAppend(ids, rows);
        ids, found := ids + rows, found + uuidsOfRows;
        lo := hi;
      }
      assert uuids[..lo] == uuids;
    }

    /** Cancels the listed tasks chunk by chunk, for any positive chunk size. The effect is
        that of one cancellation of the whole list; the count is the number of tasks moved
        and the failures are the request, in order, without what was moved. An empty list is
        refused. */
    method CancelTasksByUuids(user: UserId, uuids: seq<Uuid>, size: nat)
      returns (r: Reply, count: nat, failed: seq<Uuid>)
      requires size > 0
      modifies this, dispatcher
      ensures r == if uuids == [] then InvalidRequest else Ok
      ensures View() == Apply(old(View()), CancelTasks(user, Elements(uuids)))
      ensures count == |Moved(old(Tables()), user, uuids)|
      ensures FailedIs(uuids, UuidsOf(old(Tables()), Moved(old(Tables()), user, uuids)), failed)
    {
      var ids, found := ArchiveChunks(user, uuids, size);
      RemoveTasks(ids);
      DistinctSize(ids);
      r := if uuids == [] then InvalidRequest else Ok;
      count := |ids|;
      failed := Unfound(uuids, found);
    }

    /** One Ready task, cancelled by a user who may write in its group. */
    method CancelTask(user: UserId, uuid: Uuid) returns (r: Reply)
      requires UniqueUuids(Tables())
      modifies this, dispatcher
      ensures View() == Apply(old(View()), Step.CancelTask(user, uuid))
      ensures r == Ok <==> CancelSet(old(Tables()), Step.CancelTask(user, uuid)) != {}
    {
      var found := set t | t in active && active[t].uuid == uuid && active[t].state == Ready;
      if found == {} {
        r := NotFound;
        assert CancelSet(Tables(), Step.CancelTask(user, uuid)) == {};
        NothingCancelled(Tables(), dispatcher.workers);
      } else {
        var t :| t in found;
        OnlyNamed(Tables(), uuid, t);
        assert CancelSet(Tables(), Step.CancelTask(user, uuid)) <= {t};
        if (user, active[t].group) !in userGroup {
          r := InvalidRequest;
          assert CancelSet(Tables(), Step.CancelTask(user, uuid)) == {};
          NothingCancelled(Tables(), dispatcher.workers);
        } else if userGroup[(user, active[t].group)] == UserRead {
          r := PermissionDenied;
          assert CancelSet(Tables(), Step.CancelTask(user, uuid)) == {};
          NothingCancelled(Tables(), dispatcher.workers);
        } else {
          assert CancelSet(Tables(), Step.CancelTask(user, uuid)) == {t};
          archived := archived + CancelledRows(active, {t});
          active := active - {t};
          dispatcher.RemoveTask(t);
          r := Ok;
        }
      }
    }

    /** Inserts the Pending task a report spawns. */
    method SubmitPendingTask(creator: UserId, upstream: Uuid, group: GroupId, report: Report) returns (r: Reply)
      requires report.Submit?
      modifies this
      ensures Tables() == Submission(old(Tables()), creator, group, report.tags, report.priority, report.uuid,
                                     report.specOk, Pending, Some(upstream))
      ensures r == if group !in old(taskCount) then NotFound else if !report.specOk then InvalidRequest else Ok
      ensures now == old(now)
    {
      if group !in taskCount {
        return NotFound;
      }
      taskCount := taskCount[group := taskCount[group] + 1];
      if !report.specOk {
        return InvalidRequest;
      }
      var row := Task(report.uuid, creator, group, taskCount[group], report.tags, report.priority, Pending,
                      None, None, Some(upstream), None);
      active, nextTask := active[nextTask := row], nextTask + 1;
      r := Ok;
    }

    /** Makes the Pending task with that uuid Ready and offers it. */
    method TriggerPendingTask(uuid: Uuid) returns (r: Reply)
      requires UniqueUuids(Tables())
      modifies this`active, dispatcher
      ensures Tables() == Trigger(old(Tables()), Some(uuid))
      ensures dispatcher.workers ==
        OfferAll(old(dispatcher.workers), Tables(), TriggerSet(old(Tables()), Some(uuid)))
      ensures r == if TriggerSet(old(Tables()), Some(uuid)) == {} then NotFound else Ok
    {
      var found := set t | t in active && active[t].uuid == uuid && active[t].state == Pending;
      assert found == TriggerSet(Tables(), Some(uuid));
      if found == {} {
        r := NotFound;
        OfferNone(dispatcher.workers, Tables());
        assert Trigger(Tables(), Some(uuid)).active == active;
      } else {
        var t :| t in found;
        OnlyNamed(Tables(), uuid, t);
        assert found == {t};
        assert Trigger(Tables(), Some(uuid)).active == active[t := active[t].(state := Ready)];
        active := active[t := active[t].(state := Ready)];
        OfferTasks({t});
        r := Ok;
      }
    }

    /** The four reports about a task, as the holder's requests arrive. */
    method ReportTask(w: WorkerId, t: TaskId, report: Report) returns (r: Reply)
      requires w in workers && UniqueUuids(Tables()) && Keyed(Tables())
      modifies this, dispatcher, heartbeats
      ensures View() == Apply(old(View()), Step.ReportTask(w, t, report))
      ensures r == ReportReply(old(Tables()), w, t, report)
    {
      if t !in active || active[t].worker != Some(w) {
        return NotFound;
      }
      match report {
        case Finish =>
          active := active[t := active[t].(state := Finished)];
          r := Ok;
        case Cancel =>
          active := active[t := active[t].(state := Cancelled)];
          r := Ok;
        case Submit(_, _, _, _, _, _) =>
          r := ReportSubmit(w, t, report);
        case Commit(res) =>
          r := ReportCommit(w, t, res);
      }
    }

    method ReportSubmit(w: WorkerId, t: TaskId, report: Report) returns (r: Reply)
      requires report.Submit? && HeldBy(Tables(), w, t)
      modifies this
      ensures Tables() == ApplyReport(old(Tables()), w, t, report) && now == old(now)
      ensures r == ReportReply(old(Tables()), w, t, report)
    {
      if active[t].state != Finished && active[t].state != Cancelled {
        return InvalidRequest;
      }
      if !report.userActive {
        return PermissionDenied;
      }
      if !report.groupMatches {
        return InvalidRequest;
      }
      if w !in groupWorker || active[t].group !in groupWorker[w] || groupWorker[w][active[t].group] == WorkerRead {
        return PermissionDenied;
      }
      var row := active[t];
      r := SubmitPendingTask(row.creator, row.uuid, row.group, report);
      if r == Ok {
        active := active[t := row.(downstream := Some(report.uuid))];
      }
    }

    method ReportCommit(w: WorkerId, t: TaskId, res: TaskResultSpec) returns (r: Reply)
      requires w in workers && UniqueUuids(Tables()) && Keyed(Tables()) && HeldBy(Tables(), w, t)
      modifies this, dispatcher, heartbeats
      ensures Tables() == ApplyReport(old(Tables()), w, t, Commit(res))
      ensures dispatcher.workers == ReportQueues(old(dispatcher.workers), old(Tables()), w, t, Commit(res))
      ensures heartbeats.workers ==
        if CommitAccepted(old(Tables()), w, t) && CommitUnregisters(old(Tables()), w, t, res)
        then old(heartbeats.workers) - {w} else old(heartbeats.workers)
      ensures heartbeats.heard == old(heartbeats.heard) && now == old(now)
      ensures r == ReportReply(old(Tables()), w, t, Commit(res))
    {
      if active[t].state != Finished && active[t].state != Cancelled {
        return InvalidRequest;
      }
      var downstream, leaving := active[t].downstream, workers[w].state == GracefulShutdown;
      UuidsOfCommit(Tables(), w, t, res);
      ArchiveTask(w, t, res);
      dispatcher.RemoveTask(t);
      r := ReleaseDownstream(downstream);
      if r == Ok && leaving {
        dispatcher.UnregisterWorker(w);
        heartbeats.UnregisterWorker(w);
      }
    }

    method ReleaseDownstream(downstream: Option<Uuid>) returns (r: Reply)
      requires UniqueUuids(Tables())
      modifies this`active, dispatcher
      ensures Tables() == Trigger(old(Tables()), downstream)
      ensures r == if downstream.Some? && TriggerSet(old(Tables()), downstream) == {} then NotFound else Ok
      ensures dispatcher.workers == if r == NotFound then old(dispatcher.workers)
        else OfferAll(old(dispatcher.workers), Tables(), TriggerSet(old(Tables()), downstream))
    {
      OfferNone(dispatcher.workers, Trigger(Tables(), downstream));
      if downstream.Some? {
        r := TriggerPendingTask(downstream.value);
      } else {
        assert Trigger(Tables(), None).active == active;
        r := Ok;
      }
    }

    /** The transaction of a commit. */
    method ArchiveTask(w: WorkerId, t: TaskId, res: TaskResultSpec)
      requires w in workers && HeldBy(Tables(), w, t)
      modifies this`active, this`archived, this`workers, this`groupWorker
      ensures Tables() == ArchiveCommit(old(Tables()), w, t, res)
    {
      archived := archived[t := Archived(active[t].(result := Some(res)), Some(workers[w].uuid))];
      active := active - {t};
      workers := workers[w := workers[w].(task := None)];
      if workers[w].state == GracefulShutdown {
        groupWorker := groupWorker - {w};
        workers := workers - {w};
      }
    }

    /** Changes a Ready task and offers it anew. */
    method ChangeTask(user: UserId, uuid: Uuid, newTags: Option<set<string>>, newPriority: Option<int>,
                      otherChange: bool, specOk: bool) returns (r: Reply)
      requires UniqueUuids(Tables())
      modifies this, dispatcher
      ensures View() ==
        Apply(old(View()), Step.ChangeTask(user, uuid, newTags, newPriority, otherChange, specOk))
      ensures r == Ok <==>
        ChangeSet(old(Tables()), Step.ChangeTask(user, uuid, newTags, newPriority, otherChange, specOk)) != {}
    {
      ghost var step := Step.ChangeTask(user, uuid, newTags, newPriority, otherChange, specOk);
      var found := set t | t in active && active[t].uuid == uuid && active[t].state == Ready;
      if newTags.None? && newPriority.None? && !otherChange {
        r := InvalidRequest;
      } else if found == {} {
        r := NotFound;
      } else {
        var t :| t in found;
        OnlyNamed(Tables(), uuid, t);
        assert ChangeSet(Tables(), step) <= {t};
        if (user, active[t].group) !in userGroup {
          r := InvalidRequest;
        } else if userGroup[(user, active[t].group)] == UserRead {
          r := PermissionDenied;
        } else if !specOk {
          r := InvalidRequest;
        } else {
          assert ChangeSet(Tables(), step) == {t};
          assert ApplyChange(Tables(), step).active == active[t := Changed(active[t], newTags, newPriority)];
          active := active[t := Changed(active[t], newTags, newPriority)];
          dispatcher.RemoveTask(t);
          OfferTasks({t});
          return Ok;
        }
      }
      assert ChangeSet(Tables(), step) == {};
      NothingChanged(View(), step);
    }

    /** Queues of a worker: a deadline, a queue, and every active task it can run. */
    method SetUpWorkerQueues(w: WorkerId)
      requires w in workers
      modifies dispatcher, heartbeats
      ensures dispatcher.workers == SetUp(old(dispatcher.workers), Tables(), w)
      ensures heartbeats.workers == old(heartbeats.workers)[w := now + heartbeats.timeout]
      ensures heartbeats.heard == old(heartbeats.heard)[w := now]
    {
      heartbeats.Heartbeat(w, now);
      dispatcher.RegisterWorker(w);
      var selected: set<TaskId> := set t | t in active && CanRunRow(w, active[t]);
      var ids := Rows(selected);
      assert forall t :: t in ids <==> t in Elements(ids);
      RowsOfQueue(Tables(), w, ids);
      dispatcher.AddTasks(w, Pairs(active, ids));
    }

    predicate CanRunRow(w: WorkerId, row: Task)
      reads this
      ensures CanRunRow(w, row) == CanRun(Tables(), w, row)
    {
      w in workers && w in groupWorker && row.group in groupWorker[w]
      && groupWorker[w][row.group] != WorkerRead && row.tags <= workers[w].tags
    }

    method RegisterWorker(w: WorkerId, badge: Uuid, tags: set<string>, roles: map<GroupId, GroupWorkerRole>)
      modifies this, dispatcher, heartbeats
      ensures View() == Apply(old(View()), Step.RegisterWorker(w, badge, tags, roles))
    {
      EnrolState(View(), Step.RegisterWorker(w, badge, tags, roles));
      workers := workers[w := Worker(badge, tags, Normal, None)];
      groupWorker := groupWorker[w := roles];
      enrolled := enrolled[w := badge];
      SetUpWorkerQueues(w);
    }

    /** After a restart the dispatcher and the heartbeat queue start empty and are filled from
        the tables, worker by worker. */
    method RestoreWorkers()
      requires dispatcher.workers == map[] && heartbeats.workers == map[]
      modifies dispatcher, heartbeats
      ensures View() == Apply(old(View()), Restart)
    {
      RestoredState(View());
      RefillQueues();
    }

    method RefillQueues()
      requires dispatcher.workers == map[] && heartbeats.workers == map[]
      modifies dispatcher, heartbeats
      ensures dispatcher.workers == RebuiltFor(Tables(), workers.Keys)
      ensures heartbeats.workers == Stamps(workers.Keys, now + heartbeats.timeout)
      ensures heartbeats.heard == old(heartbeats.heard) + Stamps(workers.Keys, now)
    {
      var todo := workers.Keys;
      ghost var done := {};
      while todo != {}
        invariant todo + done == workers.Keys && todo !! done
        invariant dispatcher.workers == RebuiltFor(Tables(), done)
        invariant heartbeats.workers == Stamps(done, now + heartbeats.timeout)
        invariant heartbeats.heard == old(heartbeats.heard) + Stamps(done, now)
        decreases todo
      {
        var w :| w in todo;
        RefillQueue(w, done, old(heartbeats.heard));
        todo, done := todo - {w}, done + {w};
      }
    }

    /** One round of the loop, after the workers in `done`. */
    method RefillQueue(w: WorkerId, ghost done: set<WorkerId>, ghost before: map<WorkerId, nat>)
      requires w in workers && w !in done && dispatcher.workers == RebuiltFor(Tables(), done)
      requires heartbeats.workers == Stamps(done, now + heartbeats.timeout)
      requires heartbeats.heard == before + Stamps(done, now)
      modifies dispatcher, heartbeats
      ensures dispatcher.workers == RebuiltFor(Tables(), done + {w})
      ensures heartbeats.workers == Stamps(done + {w}, now + heartbeats.timeout)
      ensures heartbeats.heard == before + Stamps(done + {w}, now)
    {
      RebuiltNext(Tables(), done, w);
      StampsNext(done, w, now + heartbeats.timeout);
      StampsAdd(done, w, now, before);
      SetUpWorkerQueues(w);
    }

    /** Pushes back the task the worker holds, if any, while the worker's rows still exist. */
    method ReleaseAssigned(w: WorkerId)
      requires w in workers && Holding(Tables())
      modifies this`active, dispatcher
      ensures Tables() == old(Tables()).(active := ReleaseRows(old(active), AssignedTasks(old(Tables()), {w})))
      ensures dispatcher.workers ==
        OfferAll(old(dispatcher.workers), Tables(), AssignedTasks(old(Tables()), {w}))
    {
      if workers[w].task.Some? {
        var t := workers[w].task.value;
        assert AssignedTasks(Tables(), {w}) == {t};
        active := active[t := active[t].(worker := None, state := Ready)];
        OfferTasks({t});
      } else {
        assert AssignedTasks(Tables(), {w}) == {};
        assert ReleaseRows(active, {}) == active;
        OfferNone(dispatcher.workers, Tables());
      }
    }

    method RemoveWorker(w: WorkerId)
      requires w in workers && Holding(Tables())
      modifies this, dispatcher, heartbeats
      ensures View() == Apply(old(View()), Step.RemoveWorker(w))
    {
      RemovedState(View(), w);
      ReleaseAssigned(w);
      groupWorker := groupWorker - {w};
      workers := workers - {w};
      dispatcher.UnregisterWorker(w);
      heartbeats.UnregisterWorker(w);
    }

    /** A heartbeat of a worker whose Running task was last updated `age` seconds ago, longer than
        its timeout and a minute, removes the worker. A task whose result is being uploaded is
        Finished or Cancelled and has all the time it needs. */
    method Heartbeat(w: WorkerId, age: int, timeout: int)
      requires w in workers && Holding(Tables())
      modifies this, dispatcher, heartbeats
      ensures View() ==
        Apply(old(View()), if Overdue(old(Tables()), w, age, timeout) then Step.RemoveWorker(w) else Step.Heartbeat(w))
    {
      var task := workers[w].task;
      if task.Some? && task.value in active && active[task.value].state == Running && age > timeout + 60 {
        RemoveWorker(w);
      } else {
        heartbeats.Heartbeat(w, now);
      }
    }

    /** One turn of the heartbeat queue when its sleep is over. */
    method HandleTimeout() returns (r: Option<WorkerId>)
      requires Holding(Tables()) && Keyed(Tables())
      modifies this, dispatcher, heartbeats
      ensures r.Some? ==> Guard(old(View()), Expire(r.value)) && View() == Apply(old(View()), Expire(r.value))
      ensures r.None? ==> View() == old(View()) && forall w :: w in heartbeats.workers ==> now < heartbeats.workers[w]
    {
      ghost var before := View();
      r := heartbeats.PopExpired(now);
      if r.Some? {
        ExpiredState(before, r.value);
        if r.value in workers {
          RemoveWorker(r.value);
        }
      }
    }

    /** Unregisters workers from both queues. */
    method Unregister(ws: set<WorkerId>)
      modifies dispatcher, heartbeats`workers
      ensures dispatcher.workers == old(dispatcher.workers) - ws
      ensures heartbeats.workers == old(heartbeats.workers) - ws
    {
      var todo := ws;
      while todo != {}
        invariant todo <= ws
        invariant dispatcher.workers == old(dispatcher.workers) - (ws - todo)
        invariant heartbeats.workers == old(heartbeats.workers) - (ws - todo)
        decreases todo
      {
        var w :| w in todo;
        dispatcher.UnregisterWorker(w);
        heartbeats.UnregisterWorker(w);
        DropTwice(old(dispatcher.workers), ws - todo, {w});
        DropTwice(old(heartbeats.workers), ws - todo, {w});
        assert ws - (todo - {w}) == ws - todo + {w};
        todo := todo - {w};
      }
      assert ws - {} == ws;
    }

    /** Forced shutdown of the workers a filter selected. */
    method ShutdownByFilter(ws: set<WorkerId>)
      modifies this, dispatcher, heartbeats
      ensures View() == Apply(old(View()), ForceShutdown(ws))
    {
      FilterIsForced(View(), ws);
      var released := set t | t in active && active[t].worker.Some? && active[t].worker.value in ws;
      assert released == HeldTasks(Tables(), ws);
      active := ReleaseRows(active, released);
      groupWorker := groupWorker - ws;
      workers := workers - ws;
      OfferTasks(released);
      Unregister(ws);
    }

    /** Graceful shutdown of the workers a filter selected. */
    method RetireByFilter(ws: set<WorkerId>)
      modifies this, dispatcher, heartbeats
      ensures View() == Apply(old(View()), GracefulShutdownOf(ws))
    {
      var idle := set w | w in workers && w in ws && workers[w].task.None?;
      assert idle == IdleAmong(Tables(), ws);
      groupWorker := groupWorker - idle;
      workers := workers - idle;
      workers := map w | w in workers :: if w in ws then workers[w].(state := GracefulShutdown) else workers[w];
      Unregister(idle);
    }

    predicate MayShutDown(user: UserId, w: WorkerId)
      reads this
      ensures MayShutDown(user, w) == Permitted(Tables(), user, w)
    {
      w in groupWorker && exists g :: g in groupWorker[w] && groupWorker[w][g] == WorkerAdmin
                                      && (user, g) in userGroup && userGroup[(user, g)] == UserAdmin
    }

    /** The transaction for one chunk of a forced shutdown by uuid. */
    method EvictChunk(user: UserId, chunk: seq<Uuid>)
      returns (ws: set<WorkerId>, released: set<TaskId>, found: set<Uuid>)
      requires Holding(Tables())
      modifies this`active, this`workers, this`groupWorker
      ensures ws == Named(old(Tables()), user, chunk) && released == HeldTasks(old(Tables()), ws)
      ensures found == Badges(old(Tables()), ws)
      ensures Tables() == Evict(old(Tables()), ws)
    {
      ws := set w | w in workers && workers[w].uuid in chunk && MayShutDown(user, w);
      found := set w | w in ws :: workers[w].uuid;
      released := set w | w in ws && workers[w].task.Some? :: workers[w].task.value;
      assert released == AssignedTasks(Tables(), ws);
      HeldIsAssigned(Tables(), ws);
      active := ReleaseRows(active, released);
      groupWorker := groupWorker - ws;
      workers := workers - ws;
    }

    /** Forced shutdown by uuid, chunk by chunk: tasks are offered and workers unregistered
        only after the last chunk. The effect is that of one shutdown of all that are named. */
    method ShutdownByUuids(user: UserId, uuids: seq<Uuid>, size: nat) returns (r: Reply, failed: seq<Uuid>)
      requires size > 0 && Holding(Tables()) && Keyed(Tables())
      modifies this, dispatcher, heartbeats
      ensures View() == Apply(old(View()), ForceShutdownByUuids(Named(old(Tables()), user, uuids)))
      ensures r == if uuids == [] then InvalidRequest else Ok
      ensures FailedIs(uuids, Badges(old(Tables()), Named(old(Tables()), user, uuids)), failed)
    {
      var found := ShutDown(user, uuids, size);
      r := if uuids == [] then InvalidRequest else Ok;
      failed := Unfound(uuids, found);
    }

    method ShutDown(user: UserId, uuids: seq<Uuid>, size: nat) returns (found: set<Uuid>)
      requires size > 0 && Holding(Tables()) && Keyed(Tables())
      modifies this, dispatcher, heartbeats
      ensures View() == Apply(old(View()), ForceShutdownByUuids(Named(old(Tables()), user, uuids)))
      ensures found == Badges(old(Tables()), Named(old(Tables()), user, uuids))
    {
      ghost var db := Tables();
      UuidsIsForced(View(), Named(db, user, uuids));
      var ws, released;
      ws, released, found := EvictChunks(user, uuids, size);
      OfferTasks(released);
      Unregister(ws);
    }

    method EvictChunks(user: UserId, uuids: seq<Uuid>, size: nat)
      returns (ws: set<WorkerId>, released: set<TaskId>, found: set<Uuid>)
      requires size > 0 && Holding(Tables()) && Keyed(Tables())
      modifies this`active, this`workers, this`groupWorker
      ensures ws == Named(old(Tables()), user, uuids) && released == HeldTasks(old(Tables()), ws)
      ensures found == Badges(old(Tables()), ws)
      ensures released <= active.Keys && Tables() == Evict(old(Tables()), ws)
    {
      ghost var db := Tables();
      ws, released, found := {}, {}, {};
      var lo := 0;
      EvictNobody(db);
      assert Named(db, user, []) == {};
      while lo < |uuids|
        invariant lo <= |uuids| && ws == Named(db, user, uuids[..lo]) && released == HeldTasks(db, ws)
        invariant found == Badges(db, ws)
        invariant Tables() == Evict(db, ws)
      {
        var hi := if lo + size < |uuids| then lo + size else |uuids|;
        EvictHolding(db, ws);
        NamedNext(db, user, uuids, lo, hi);
        BadgesNext(db, Evict(db, ws), ws, Named(Evict(db, ws), user, uuids[lo..hi]));
        var more, tasks, badges := EvictChunk(user, uuids[lo..hi]);
        EvictTwice(db, ws, more);
        ws, released, found, lo := ws + more, released + tasks, found + badges, hi;
      }
      assert uuids[..lo] == uuids;
    }

    /** The transaction for one chunk of a graceful shutdown by uuid: idle workers are deleted
        and busy ones marked. */
    method RetireChunk(user: UserId, chunk: seq<Uuid>) returns (idle: set<WorkerId>, found: set<Uuid>)
      modifies this`workers, this`groupWorker
      ensures var db, ws := old(Tables()), Named(old(Tables()), user, chunk);
        idle == IdleAmong(db, ws) && found == Badges(db, ws) && Tables() == Retire(db, ws)
    {
      var ws := set w | w in workers && workers[w].uuid in chunk && MayShutDown(user, w);
      found := set w | w in ws :: workers[w].uuid;
      idle := set w | w in ws && workers[w].task.None?;
      assert ws == Named(Tables(), user, chunk) && idle == IdleAmong(Tables(), ws);
      groupWorker := groupWorker - idle;
      workers := workers - idle;
      workers := map w | w in workers :: if w in ws then workers[w].(state := GracefulShutdown) else workers[w];
    }

    method RetireChunks(user: UserId, uuids: seq<Uuid>, size: nat) returns (idle: set<WorkerId>, found: set<Uuid>)
      requires size > 0
      modifies this`workers, this`groupWorker
      ensures var db, ws := old(Tables()), Named(old(Tables()), user, uuids);
        idle == IdleAmong(db, ws) && found == Badges(db, ws) && Tables() == Retire(db, ws)
    {
      ghost var db, ws := Tables(), {};
      idle, found := {}, {};
      var lo := 0;
      RetireNobody(db);
      assert Named(db, user, []) == {};
      while lo < |uuids|
        invariant lo <= |uuids| && ws == Named(db, user, uuids[..lo])
        invariant idle == IdleAmong(db, ws) && found == Badges(db, ws) && Tables() == Retire(db, ws)
      {
        var hi := if lo + size < |uuids| then lo + size else |uuids|;
        ghost var mid := Tables();
        ghost var more := Named(mid, user, uuids[lo..hi]);
        NamedAfterRetire(db, user, uuids, lo, hi);
        BadgesNext(db, mid, ws, more);
        RetireTwice(db, ws, more);
        var gone, badges := RetireChunk(user, uuids[lo..hi]);
        ws, idle, found, lo := ws + more, idle + gone, found + badges, hi;
      }
      assert uuids[..lo] == uuids;
    }

    /** Graceful shutdown by uuid, chunk by chunk: the effect of one graceful shutdown of all
        that are named, also when a later chunk names a worker that is already marked. */
    method RetireByUuids(user: UserId, uuids: seq<Uuid>, size: nat) returns (r: Reply, failed: seq<Uuid>)
      requires size > 0
      modifies this, dispatcher, heartbeats
      ensures View() == Apply(old(View()), GracefulShutdownOf(Named(old(Tables()), user, uuids)))
      ensures r == if uuids == [] then InvalidRequest else Ok
      ensures FailedIs(uuids, Badges(old(Tables()), Named(old(Tables()), user, uuids)), failed)
    {
      var idle, found := RetireChunks(user, uuids, size);
      Unregister(idle);
      r := if uuids == [] then InvalidRequest else Ok;
      failed := Unfound(uuids, found);
    }

    /** Shutdown of one worker by uuid: by force, or gracefully, which for an idle worker is the
        same removal. */
    method RemoveWorkerByUuid(uuid: Uuid, force: bool) returns (r: Reply, ghost w: WorkerId)
      requires Holding(Tables()) && Keyed(Tables())
      modifies this, dispatcher, heartbeats
      ensures r == NotFound || r == Ok
      ensures r == NotFound ==> View() == old(View()) && forall v :: v in workers ==> workers[v].uuid != uuid
      ensures r == Ok ==> w in old(workers) && old(workers)[w].uuid == uuid
      ensures r == Ok ==>
        View() == Apply(old(View()), if force then Step.RemoveWorker(w) else GracefulShutdownOf({w}))
    {
      var named := set v | v in workers && workers[v].uuid == uuid;
      w := 0;
      if named == {} {
        assert forall v :: v in workers ==> v !in named;
        return NotFound, w;
      }
      var v :| v in named;
      w := v;
      r := Ok;
      ghost var before := View();
      if force || workers[v].task.None? {
        if !force { IdleRemoval(before, v); }
        RemoveWorker(v);
      } else {
        BusyRetirement(before, v);
        workers := workers[v := workers[v].(state := GracefulShutdown)];
      }
    }

    /** Pops candidates until one can be claimed or the queue is empty. The answer is that of
        the plain query: a best Ready task, or none exactly when there is none. The worker may
        hold a task already, which is not checked; the steps are those of the protocol if not. */
    method FetchTask(w: WorkerId) returns (r: Option<TaskId>, ghost picks: seq<TaskId>)
      requires Holding(Tables()) && IndexOk(View()) && w in workers
      modifies this, dispatcher
      ensures View() == Run(old(View()), FetchSteps(w, picks))
      ensures old(workers)[w].task.None? ==> Legal(old(View()), FetchSteps(w, picks))
      ensures r.Some? ==> Best(old(Tables()), w, r.value) && Tables() == ClaimTask(old(Tables()), w, r.value)
      ensures r.None? ==> Tables() == old(Tables()) && forall t :: !ReadyFor(Tables(), w, t)
    {
      ghost var before := View();
      picks := [];
      while true
        invariant Tables() == before.db && IndexOk(View()) && Asks(View(), w)
        invariant View() == Run(before, FetchSteps(w, picks))
        invariant before.db.workers[w].task.None? ==> Legal(before, FetchSteps(w, picks))
        decreases |dispatcher.workers[w]|
      {
        ghost var s := View();
        var candidate, claimed := TryCandidate(w);
        if candidate.None? {
          EmptyMeansNone(s, w);
          return None, picks;
        }
        FetchOneMore(before, w, picks, candidate.value);
        picks := picks + [candidate.value];
        if claimed {
          TopIsBest(s, w, candidate.value);
          return candidate, picks;
        }
        StaleEntryGone(s, w, candidate.value);
      }
    }

    /** One round of the loop: a pop and a claim. */
    method TryCandidate(w: WorkerId) returns (candidate: Option<TaskId>, claimed: bool)
      requires Asks(View(), w)
      modifies this, dispatcher
      ensures candidate.None? ==> View() == old(View()) && (w !in View().queues || View().queues[w] == map[])
      ensures candidate.Some? ==>
        && w in old(View()).queues && IsTop(old(View()).queues[w], candidate.value)
        && View() == Apply(Apply(old(View()), Pop(w, candidate.value)), Claim(w, candidate.value))
        && claimed == Claimable(old(Tables()), candidate.value)
        && View().queues == Popped(old(View()).queues, w, candidate.value)
      ensures candidate.Some? && claimed ==> Tables() == ClaimTask(old(Tables()), w, candidate.value)
      ensures candidate.Some? && !claimed ==>
        View() == old(View()).(queues := Popped(old(View()).queues, w, candidate.value)) && Asks(View(), w)
    {
      ghost var s := View();
      candidate := dispatcher.FetchTask(w);
      claimed := false;
      if candidate.Some? {
        ClaimedState(s, w, candidate.value);
        claimed := ClaimRow(w, candidate.value);
        if !claimed { FailedTry(s, w, candidate.value); }
      }
    }

    /** The conditional update of the task row, and of the worker row if it took effect. */
    method ClaimRow(w: WorkerId, t: TaskId) returns (ok: bool)
      requires w in workers
      modifies this`active, this`workers
      ensures ok == Claimable(old(Tables()), t) && Tables() == ClaimTask(old(Tables()), w, t)
    {
      ok := t in active && active[t].state == Ready && active[t].worker == None;
      if ok {
        active := active[t := active[t].(worker := Some(w), state := Running)];
        workers := workers[w := workers[w].(task := Some(t))];
      }
    }
  }

  ghost predicate Overdue(db: Db, w: WorkerId, age: int, timeout: int) {
    && w in db.workers && db.workers[w].task.Some? && db.workers[w].task.value in db.active
    && db.active[db.workers[w].task.value].state == Running && age > timeout + 60
  }

  /** Only a Running task can be overdue, and it is so from the sixty-first second after its
      timeout on. */
  lemma OverdueMeans(db: Db, w: WorkerId, t: TaskId, age: int, timeout: int)
    requires Holding(db) && w in db.workers
    ensures db.workers[w].task.None? ==> !Overdue(db, w, age, timeout)
    ensures db.workers[w].task == Some(t) && db.active[t].state in {Finished, Cancelled} ==>
      !Overdue(db, w, age, timeout)
    ensures db.workers[w].task == Some(t) && db.active[t].state == Running ==>
      (Overdue(db, w, age, timeout) <==> age - timeout >= 61)
  {
  }

  /** The workers of a list a user may shut down: those with one of the uuids for which some group
      has the role Admin in which the user is Admin. */
  lemma NamedMeans(db: Db, user: UserId, us: seq<Uuid>, w: WorkerId)
    ensures w in Named(db, user, us) <==>
      && w in db.workers && w in db.groupWorker && (exists i :: 0 <= i < |us| && us[i] == db.workers[w].uuid)
      && exists g :: (w in db.groupWorker && g in db.groupWorker[w] && db.groupWorker[w][g] == WorkerAdmin
                      && (user, g) in db.userGroup && db.userGroup[(user, g)] == UserAdmin)
  {
  }

  lemma OfferNone(qs: Queues, db: Db)
    ensures OfferAll(qs, db, {}) == qs
  {
    assert forall w :: w in qs ==> qs[w] + Runnable(db, w, {}) == qs[w];
  }

  lemma OfferOneMore(qs: Queues, db: Db, ts: set<TaskId>, t: TaskId)
    requires t in db.active
    ensures Offer(OfferAll(qs, db, ts), db, t) == OfferAll(qs, db, ts + {t})
  {
    forall w | w in qs
      ensures qs[w] + Runnable(db, w, ts + {t}) ==
        if CanRun(db, w, db.active[t]) then Put(qs[w] + Runnable(db, w, ts), t, db.active[t].priority)
        else qs[w] + Runnable(db, w, ts)
    {
      RunnableOneMore(db, w, ts, t, qs[w]);
    }
  }

  lemma RunnableOneMore(db: Db, w: WorkerId, ts: set<TaskId>, t: TaskId, q: Queue)
    requires t in db.active
    ensures q + Runnable(db, w, ts + {t}) ==
      if CanRun(db, w, db.active[t]) then Put(q + Runnable(db, w, ts), t, db.active[t].priority)
      else q + Runnable(db, w, ts)
  {
  }

  // ----- cancelling in chunks

  lemma CancelledTwice(active: map<TaskId, Task>, a: set<TaskId>, b: set<TaskId>)
    requires a !! b
    ensures CancelledRows(active, a) + CancelledRows(active - a, b) == CancelledRows(active, a + b)
  {
  }

  lemma MergeTwice<K, V>(m: map<K, V>, a: map<K, V>, b: map<K, V>)
    ensures m + a + b == m + (a + b)
  {
  }

  lemma CancelTwice(db: Db, a: set<TaskId>, b: set<TaskId>)
    requires a !! b
    ensures CancelRows(CancelRows(db, a), b) == CancelRows(db, a + b)
  {
    assert db.active - a - b == db.active - (a + b);
    CancelledTwice(db.active, a, b);
    MergeTwice(db.archived, CancelledRows(db.active, a), CancelledRows(db.active - a, b));
  }

  lemma CancelNothing(db: Db, user: UserId)
    ensures CancelRows(db, {}) == db && Moved(db, user, []) == {} && UuidsOf(db, {}) == {}
  {
    assert db.active - {} == db.active;
    assert CancelRows(db, {}).archived == db.archived;
  }

  /** The tasks a list of uuids moves. */
  ghost function Moved(db: Db, user: UserId, us: seq<Uuid>): set<TaskId> {
    CancelSet(db, CancelTasks(user, Elements(us)))
  }

  /** A later chunk moves what it names and earlier chunks have not moved. */
  lemma MovedNext(db: Db, user: UserId, us: seq<Uuid>, lo: nat, hi: nat)
    requires lo <= hi <= |us|
    ensures var mid := CancelRows(db, Moved(db, user, us[..lo]));
      && Moved(mid, user, us[lo..hi]) !! Moved(db, user, us[..lo])
      && Moved(db, user, us[..lo]) + Moved(mid, user, us[lo..hi]) == Moved(db, user, us[..hi])
      && forall t :: t in Moved(mid, user, us[lo..hi]) ==> t in db.active && mid.active[t] == db.active[t]
  {
    assert us[..hi] == us[..lo] + us[lo..hi];
    assert forall u :: u in Elements(us[..hi]) <==> u in Elements(us[..lo]) || u in Elements(us[lo..hi]);
  }

  ghost function UuidsOf(db: Db, ts: set<TaskId>): set<Uuid> {
    set t | t in ts && t in db.active :: db.active[t].uuid
  }

  lemma OnlyNamed(db: Db, u: Uuid, t: TaskId)
    requires UniqueUuids(db) && t in db.active && db.active[t].uuid == u
    ensures forall k :: k in db.active && db.active[k].uuid == u ==> k == t
  {
    assert Row(db, t).uuid == u;
    forall k | k in db.active && db.active[k].uuid == u ensures k == t {
      assert Row(db, k).uuid == u;
    }
  }

  lemma NothingCancelled(db: Db, qs: Queues)
    ensures CancelRows(db, {}) == db && Removed(qs, {}) == qs
  {
    assert db.active - {} == db.active;
    assert db.archived + CancelledRows(db.active, {}) == db.archived;
    assert forall w :: w in qs ==> qs[w] - {} == qs[w];
  }

  lemma UuidsOfCommit(db: Db, w: WorkerId, t: TaskId, res: TaskResultSpec)
    requires Keyed(db) && UniqueUuids(db) && HeldBy(db, w, t) && w in db.workers
    ensures UniqueUuids(ArchiveCommit(db, w, t, res))
  {
    var db' := ArchiveCommit(db, w, t, res);
    assert Ids(db') == Ids(db);
    assert forall k :: k in Ids(db) ==> Row(db', k).uuid == Row(db, k).uuid;
  }

  lemma NothingChanged(s: State, step: Step)
    requires step.ChangeTask? && ChangeSet(s.db, step) == {} && s.inflight == map[]
    ensures Apply(s, step) == s
  {
    assert ApplyChange(s.db, step).active == s.db.active;
    assert ApplyChange(s.db, step) == s.db;
    NothingCancelled(s.db, s.queues);
    OfferNone(s.queues, s.db);
  }

  function Pairs(active: map<TaskId, Task>, ids: seq<TaskId>): seq<(TaskId, int)>
    requires forall t :: t in ids ==> t in active
  {
    seq(|ids|, i requires 0 <= i < |ids| => (ids[i], active[ids[i]].priority))
  }

  lemma EnrolState(s: State, step: Step)
    requires step.RegisterWorker? && s.inflight == map[]
    ensures var db' := Enrol(s.db, step.w, step.badge, step.tags, step.roles);
      Apply(s, step) == s.(db := db', queues := SetUp(s.queues, db', step.w),
                           beats := s.beats[step.w := s.now + s.timeout], heard := s.heard[step.w := s.now])
  {
  }

  lemma RowsOfQueue(db: Db, w: WorkerId, ids: seq<TaskId>)
    requires forall t :: t in ids <==> t in db.active && CanRun(db, w, db.active[t])
    ensures Entries(Pairs(db.active, ids)) == Runnable(db, w, db.active.Keys)
  {
    var rows, tasks := Runnable(db, w, db.active.Keys), Pairs(db.active, ids);
    forall t | t in rows ensures exists i :: 0 <= i < |tasks| && tasks[i].0 == t {
      var i :| 0 <= i < |ids| && ids[i] == t;
      assert tasks[i].0 == t;
    }
    EntriesOfRows(tasks, rows);
  }

  // ----- refilling the queues after a restart

  function RebuiltFor(db: Db, ws: set<WorkerId>): Queues {
    map w | w in ws :: Runnable(db, w, db.active.Keys)
  }

  function Stamps(ws: set<WorkerId>, time: nat): map<WorkerId, nat> {
    map w | w in ws :: time
  }

  lemma RebuiltNext(db: Db, ws: set<WorkerId>, w: WorkerId)
    requires w !in ws
    ensures SetUp(RebuiltFor(db, ws), db, w) == RebuiltFor(db, ws + {w})
  {
    assert map[] + Runnable(db, w, db.active.Keys) == Runnable(db, w, db.active.Keys);
  }

  lemma StampsNext(ws: set<WorkerId>, w: WorkerId, time: nat)
    ensures Stamps(ws, time)[w := time] == Stamps(ws + {w}, time)
  {
  }

  lemma StampsAdd(ws: set<WorkerId>, w: WorkerId, time: nat, base: map<WorkerId, nat>)
    ensures (base + Stamps(ws, time))[w := time] == base + Stamps(ws + {w}, time)
  {
  }

  lemma RestoredState(s: State)
    requires s.inflight == map[]
    ensures Apply(s, Restart) ==
      s.(queues := RebuiltFor(s.db, s.db.workers.Keys),
         beats := Stamps(s.db.workers.Keys, s.now + s.timeout),
         heard := s.heard + Stamps(s.db.workers.Keys, s.now))
  {
  }

  // ----- removing workers

  lemma RemovedState(s: State, w: WorkerId)
    requires s.inflight == map[]
    ensures Apply(s, Step.RemoveWorker(w)) ==
      s.(db := EvictAssigned(s.db, {w}), queues := RemovalQueues(s.queues, s.db, w), beats := s.beats - {w})
  {
  }

  lemma ExpiredState(s: State, w: WorkerId)
    requires s.inflight == map[] && Keyed(s.db)
    ensures Apply(s, Expire(w)) ==
      if w in s.db.workers then Apply(s.(beats := s.beats - {w}), Step.RemoveWorker(w))
      else s.(beats := s.beats - {w})
  {
    assert s.beats - {w} - {w} == s.beats - {w};
    if w !in s.db.workers {
      assert AssignedTasks(s.db, {w}) == {};
      assert ReleaseRows(s.db.active, {}) == s.db.active;
      assert s.db.groupWorker - {w} == s.db.groupWorker && s.db.workers - {w} == s.db.workers;
    }
  }

  ghost predicate Permitted(db: Db, user: UserId, w: WorkerId) {
    w in db.groupWorker && exists g :: g in db.groupWorker[w] && db.groupWorker[w][g] == WorkerAdmin
                                       && (user, g) in db.userGroup && db.userGroup[(user, g)] == UserAdmin
  }

  /** The workers a list of uuids names and the user may shut down. */
  ghost function Named(db: Db, user: UserId, us: seq<Uuid>): set<WorkerId> {
    set w | w in db.workers && db.workers[w].uuid in us && Permitted(db, user, w)
  }

  /** A later chunk finds what it names and earlier chunks have not removed. */
  lemma NamedNext(db: Db, user: UserId, us: seq<Uuid>, lo: nat, hi: nat)
    requires lo <= hi <= |us|
    ensures var mid := Evict(db, Named(db, user, us[..lo]));
      Named(db, user, us[..lo]) + Named(mid, user, us[lo..hi]) == Named(db, user, us[..hi])
  {
    assert us[..hi] == us[..lo] + us[lo..hi];
    var gone := Named(db, user, us[..lo]);
    var mid := Evict(db, gone);
    forall w | w in mid.workers ensures Permitted(mid, user, w) == Permitted(db, user, w) {
      assert w !in gone && (w in mid.groupWorker <==> w in db.groupWorker);
    }
  }

  /** The uuids of workers. */
  ghost function Badges(db: Db, ws: set<WorkerId>): set<Uuid> {
    set w | w in ws && w in db.workers :: db.workers[w].uuid
  }

  lemma BadgesNext(db: Db, mid: Db, a: set<WorkerId>, b: set<WorkerId>)
    requires forall w :: w in mid.workers ==> w in db.workers && mid.workers[w].uuid == db.workers[w].uuid
    requires forall w :: w in b ==> w in mid.workers
    ensures Badges(db, a + b) == Badges(db, a) + Badges(mid, b)
  {
  }

  lemma RetireTwice(db: Db, a: set<WorkerId>, b: set<WorkerId>)
    ensures Retire(Retire(db, a), b) == Retire(db, a + b)
    ensures IdleAmong(db, a + b) == IdleAmong(db, a) + IdleAmong(Retire(db, a), b)
  {
    RetireIdle(db, a, b);
    RetireWorkers(db, a, b);
    DropTwice(db.groupWorker, IdleAmong(db, a), IdleAmong(Retire(db, a), b));
  }

  lemma RetireIdle(db: Db, a: set<WorkerId>, b: set<WorkerId>)
    ensures IdleAmong(db, a + b) == IdleAmong(db, a) + IdleAmong(Retire(db, a), b)
  {
  }

  lemma RetireWorkers(db: Db, a: set<WorkerId>, b: set<WorkerId>)
    ensures Retire(Retire(db, a), b).workers == Retire(db, a + b).workers
  {
  }

  lemma RetireNobody(db: Db)
    ensures Retire(db, {}) == db && IdleAmong(db, {}) == {}
  {
    assert IdleAmong(db, {}) == {};
    assert db.workers - {} == db.workers && db.groupWorker - {} == db.groupWorker;
    assert Retire(db, {}).workers == db.workers;
  }

  /** A later chunk finds what it names unless an earlier chunk has removed it. */
  lemma NamedAfterRetire(db: Db, user: UserId, us: seq<Uuid>, lo: nat, hi: nat)
    requires lo <= hi <= |us|
    ensures var mid := Retire(db, Named(db, user, us[..lo]));
      Named(db, user, us[..lo]) + Named(mid, user, us[lo..hi]) == Named(db, user, us[..hi])
  {
    assert us[..hi] == us[..lo] + us[lo..hi];
    var mid := Retire(db, Named(db, user, us[..lo]));
    forall w | w in mid.workers ensures Permitted(mid, user, w) == Permitted(db, user, w) {
      assert w in mid.groupWorker <==> w in db.groupWorker;
    }
  }

  /** An idle worker is removed the same way, gracefully or not. */
  lemma IdleRemoval(s: State, w: WorkerId)
    requires w in s.db.workers && s.db.workers[w].task.None? && s.inflight == map[]
    ensures Apply(s, GracefulShutdownOf({w})) == Apply(s, Step.RemoveWorker(w))
  {
    assert AssignedTasks(s.db, {w}) == {} && IdleAmong(s.db, {w}) == {w};
    assert ReleaseRows(s.db.active, {}) == s.db.active;
    assert Retire(s.db, {w}).workers == s.db.workers - {w};
    OfferNone(s.queues, s.db);
  }

  lemma BusyRetirement(s: State, w: WorkerId)
    requires w in s.db.workers && s.db.workers[w].task.Some? && s.inflight == map[]
    ensures Apply(s, GracefulShutdownOf({w})) ==
      s.(db := s.db.(workers := s.db.workers[w := s.db.workers[w].(state := GracefulShutdown)]))
  {
    assert IdleAmong(s.db, {w}) == {};
    assert s.db.workers - {} == s.db.workers && s.db.groupWorker - {} == s.db.groupWorker;
    assert s.queues - {} == s.queues && s.beats - {} == s.beats;
  }

  lemma EvictNobody(db: Db)
    ensures Evict(db, {}) == db && HeldTasks(db, {}) == {}
  {
    assert HeldTasks(db, {}) == {};
    assert ReleaseRows(db.active, {}) == db.active;
    assert db.workers - {} == db.workers && db.groupWorker - {} == db.groupWorker;
  }

  // ----- the fetch loop

  lemma {:induction false} FetchStepsAppend(w: WorkerId, picks: seq<TaskId>, t: TaskId)
    ensures FetchSteps(w, picks + [t]) == FetchSteps(w, picks) + [Pop(w, t), Claim(w, t)]
    decreases |picks|
  {
    if picks == [] {
      assert picks + [t] == [t] && [t][1..] == [];
      assert FetchSteps(w, [t]) == [Pop(w, t), Claim(w, t)] + [];
    } else {
      assert (picks + [t])[1..] == picks[1..] + [t];
      FetchStepsAppend(w, picks[1..], t);
    }
  }

  lemma FetchOneMore(s: State, w: WorkerId, picks: seq<TaskId>, t: TaskId)
    ensures Run(s, FetchSteps(w, picks + [t])) ==
      Apply(Apply(Run(s, FetchSteps(w, picks)), Pop(w, t)), Claim(w, t))
    ensures var mid := Run(s, FetchSteps(w, picks));
      Legal(s, FetchSteps(w, picks)) && Idle(mid, w) && w in mid.queues && IsTop(mid.queues[w], t) ==>
        Legal(s, FetchSteps(w, picks + [t]))
  {
    var mid := Run(s, FetchSteps(w, picks));
    RunOfTwo(mid, Pop(w, t), Claim(w, t));
    PopThenClaim(mid, w, t);
    FetchStepsAppend(w, picks, t);
    RunAppend(s, FetchSteps(w, picks), [Pop(w, t), Claim(w, t)]);
  }

  lemma ClaimedState(s: State, w: WorkerId, t: TaskId)
    requires w in s.queues && s.inflight == map[]
    ensures Apply(Apply(s, Pop(w, t)), Claim(w, t)) ==
      s.(db := ClaimTask(s.db, w, t), queues := Popped(s.queues, w, t))
  {
    assert Apply(s, Pop(w, t)).inflight - {w} == map[];
  }

  lemma RunOfTwo(s: State, a: Step, b: Step)
    ensures Run(s, [a, b]) == Apply(Apply(s, a), b)
    ensures Guard(s, a) && Guard(Apply(s, a), b) ==> Legal(s, [a, b])
  {
    var steps, s', s'' := [a, b], Apply(s, a), Apply(Apply(s, a), b);
    assert steps[1..] == [b] && [b][1..] == [];
    assert Legal(s'', []) && Run(s'', []) == s'';
    assert Run(s', [b]) == s'' && (Guard(s', b) ==> Legal(s', [b]));
  }

  lemma PopThenClaim(s: State, w: WorkerId, t: TaskId)
    ensures Idle(s, w) && w in s.queues && IsTop(s.queues[w], t) ==>
      Guard(s, Pop(w, t)) && Guard(Apply(s, Pop(w, t)), Claim(w, t))
  {
  }
}
