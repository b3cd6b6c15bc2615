/** What each call does, said row by row and with every role and state spelled out, without the
    functions the steps are built from. */
module Effects {
  import opened Schema
  import opened Tables
  import opened Invariants
  import opened Dispatcher
  import opened Protocol
  import opened Scheduling

  // ----- roles

  /** A user who may write in a group. */
  ghost predicate Writer(db: Db, user: UserId, group: GroupId) {
    (user, group) in db.userGroup && db.userGroup[(user, group)] in {UserWrite, UserAdmin}
  }

  /** A live worker whose role in the group is above Read and whose tags contain the given ones. */
  ghost predicate Able(db: Db, w: WorkerId, group: GroupId, tags: set<string>) {
    && w in db.workers && tags <= db.workers[w].tags
    && w in db.groupWorker && group in db.groupWorker[w]
    && db.groupWorker[w][group] in {WorkerWrite, WorkerAdmin}
  }

  lemma RolesMean(db: Db, user: UserId, w: WorkerId, group: GroupId, row: Task)
    ensures MayWrite(db, user, group) <==> Writer(db, user, group)
    ensures CanRun(db, w, row) <==> Able(db, w, row.group, row.tags)
  {
  }

  // ----- submitting

  ghost function Counted(db: Db, group: GroupId): map<GroupId, nat>
    requires group in db.taskCount
  {
    db.taskCount[group := db.taskCount[group] + 1]
  }

  /** A user's task is inserted Ready, under the next number of its group and the next row id; a
      refused specification uses up the number; an unknown group changes nothing. */
  lemma SubmitEffect(db: Db, user: UserId, group: GroupId, tags: set<string>, priority: int, uuid: Uuid, specOk: bool)
    ensures var db' := DbApply(db, SubmitTask(user, group, tags, priority, uuid, specOk));
      if group !in db.taskCount then db' == db
      else if !specOk then db' == db.(taskCount := Counted(db, group))
      else db' == db.(taskCount := Counted(db, group), nextTask := db.nextTask + 1,
                      active := db.active[db.nextTask := Task(uuid, user, group, db.taskCount[group] + 1, tags,
                                                              priority, Ready, None, None, None, None)])
  {
  }

  /** The new task goes, with its priority, to the queue of exactly the workers that can run it. */
  lemma SubmitOffers(s: State, user: UserId, group: GroupId, tags: set<string>, priority: int, uuid: Uuid, v: WorkerId)
    requires group in s.db.taskCount && v in s.queues
    ensures var s' := Apply(s, SubmitTask(user, group, tags, priority, uuid, true));
      v in s'.queues && s'.queues[v] ==
        if Able(s.db, v, group, tags) then s.queues[v][s.db.nextTask := priority] else s.queues[v]
  {
    var step := SubmitTask(user, group, tags, priority, uuid, true);
    var db' := DbApply(s.db, step);
    SubmitEffect(s.db, user, group, tags, priority, uuid, true);
    RolesMean(db', user, v, group, db'.active[s.db.nextTask]);
  }

  /** So every live worker that can run it will find it. */
  lemma SubmitIsFetchable(s: State, user: UserId, group: GroupId, tags: set<string>, priority: int, uuid: Uuid,
                          v: WorkerId)
    requires Sound(s) && group in s.db.taskCount && FreshUuid(s.db, uuid) && Able(s.db, v, group, tags)
    ensures var s' := Apply(s, SubmitTask(user, group, tags, priority, uuid, true));
      ReadyFor(s'.db, v, s.db.nextTask) && Waiting(s'.queues, s'.inflight, v, s.db.nextTask)
  {
    SubmitEffect(s.db, user, group, tags, priority, uuid, true);
    SubmitOffers(s, user, group, tags, priority, uuid, v);
  }

  /** A report that spawns a task inserts it Pending, with the reporting task as upstream, and
      links the two. */
  lemma SpawnEffect(db: Db, w: WorkerId, t: TaskId, uuid: Uuid, tags: set<string>, priority: int)
    requires Keyed(db) && t in db.active && db.active[t].worker == Some(w)
    requires db.active[t].state in {Finished, Cancelled} && db.active[t].group in db.taskCount
    requires w in db.groupWorker && db.active[t].group in db.groupWorker[w]
    requires db.groupWorker[w][db.active[t].group] in {WorkerWrite, WorkerAdmin}
    ensures var row, report := db.active[t], Submit(uuid, tags, priority, true, true, true);
      && ReportReply(db, w, t, report) == Ok
      && DbApply(db, ReportTask(w, t, report)) ==
         db.(taskCount := Counted(db, row.group), nextTask := db.nextTask + 1,
             active := db.active[db.nextTask := Task(uuid, row.creator, row.group, db.taskCount[row.group] + 1, tags,
                                                     priority, Pending, None, None, Some(row.uuid), None)]
                                [t := row.(downstream := Some(uuid))])
  {
    assert t in Ids(db);
  }

  /** A submission by report is answered Ok exactly if it inserts a task. */
  lemma SpawnReplyIff(db: Db, w: WorkerId, t: TaskId, report: Report)
    requires report.Submit?
    ensures ReportReply(db, w, t, report) == Ok <==>
      DbApply(db, ReportTask(w, t, report)).nextTask == db.nextTask + 1
  {
  }

  // ----- changing

  /** The row after a change request. */
  function Amended(row: Task, tags: Option<set<string>>, priority: Option<int>): Task {
    match (tags, priority)
    case (None, None) => row
    case (Some(x), None) => row.(tags := x)
    case (None, Some(p)) => row.(priority := p)
    case (Some(x), Some(p)) => row.(tags := x, priority := p)
  }

  /** An accepted change gives a Ready task exactly the tags and the priority asked for. */
  lemma ChangeEffect(db: Db, user: UserId, t: TaskId, tags: Option<set<string>>, priority: Option<int>, other: bool)
    requires UniqueUuids(db) && t in db.active && db.active[t].state == Ready
    requires Writer(db, user, db.active[t].group) && (tags.Some? || priority.Some? || other)
    ensures var step := ChangeTask(user, db.active[t].uuid, tags, priority, other, true);
      && ChangeSet(db, step) == {t}
      && DbApply(db, step) == db.(active := db.active[t := Amended(db.active[t], tags, priority)])
  {
    var step := ChangeTask(user, db.active[t].uuid, tags, priority, other, true);
    RolesMean(db, user, 0, db.active[t].group, db.active[t]);
    forall k | k in ChangeSet(db, step) ensures k == t {
      assert Row(db, k).uuid == Row(db, t).uuid;
    }
    assert DbApply(db, step).active == db.active[t := Amended(db.active[t], tags, priority)];
  }

  /** Everything else is refused and changes nothing. */
  lemma ChangeRefused(db: Db, step: Step)
    requires step.ChangeTask?
    requires !step.specOk || (step.newTags.None? && step.newPriority.None? && !step.otherChange)
      || forall t :: t in db.active && db.active[t].uuid == step.uuid ==>
           db.active[t].state != Ready || !Writer(db, step.user, db.active[t].group)
    ensures DbApply(db, step) == db
  {
    forall t | t in db.active ensures t !in ChangeSet(db, step) {
      RolesMean(db, step.user, 0, db.active[t].group, db.active[t]);
    }
    assert DbApply(db, step).active == db.active;
  }

  /** Afterwards exactly the queues of workers that can run the task hold it, with the priority it
      has now, and nothing else in them has changed. */
  lemma ChangeOffers(s: State, user: UserId, t: TaskId, tags: Option<set<string>>, priority: Option<int>,
                     other: bool, v: WorkerId)
    requires UniqueUuids(s.db) && t in s.db.active && s.db.active[t].state == Ready && v in s.queues
    requires Writer(s.db, user, s.db.active[t].group) && (tags.Some? || priority.Some? || other)
    ensures var s' := Apply(s, ChangeTask(user, s.db.active[t].uuid, tags, priority, other, true));
      var row := Amended(s.db.active[t], tags, priority);
      v in s'.queues && s'.queues[v] ==
        if Able(s.db, v, row.group, row.tags) then s.queues[v][t := row.priority] else s.queues[v] - {t}
  {
    var step := ChangeTask(user, s.db.active[t].uuid, tags, priority, other, true);
    ChangeEffect(s.db, user, t, tags, priority, other);
    var db', row := DbApply(s.db, step), Amended(s.db.active[t], tags, priority);
    RolesMean(db', user, v, row.group, row);
    OfferedAgain(s.queues, db', t, v);
  }

  lemma OfferedAgain(qs: Queues, db: Db, t: TaskId, v: WorkerId)
    requires t in db.active && v in qs
    ensures var qs' := OfferAll(Removed(qs, {t}), db, {t});
      v in qs' && qs'[v] ==
        if CanRun(db, v, db.active[t]) then qs[v][t := db.active[t].priority] else qs[v] - {t}
  {
    assert Runnable(db, v, {t}) == if CanRun(db, v, db.active[t]) then map[t := db.active[t].priority] else map[];
  }

  // ----- reporting

  /** Finish and Cancel change the state of a held task and nothing else. */
  lemma AnnounceEffect(db: Db, w: WorkerId, t: TaskId)
    requires t in db.active && db.active[t].worker == Some(w)
    ensures ReportReply(db, w, t, Finish) == Ok && ReportReply(db, w, t, Cancel) == Ok
    ensures DbApply(db, ReportTask(w, t, Finish)) == db.(active := db.active[t := db.active[t].(state := Finished)])
    ensures DbApply(db, ReportTask(w, t, Cancel)) == db.(active := db.active[t := db.active[t].(state := Cancelled)])
  {
  }

  /** A report about a task the worker does not hold is not-found and changes nothing. */
  lemma ForeignReport(db: Db, w: WorkerId, t: TaskId, report: Report)
    requires t !in db.active || db.active[t].worker != Some(w)
    ensures ReportReply(db, w, t, report) == NotFound && DbApply(db, ReportTask(w, t, report)) == db
  {
  }

  /** The Pending task that waits for the given one. */
  ghost predicate WaitsFor(db: Db, k: TaskId, t: TaskId)
    requires t in db.active
  {
    k in db.active && db.active[k].state == Pending && db.active[t].downstream == Some(db.active[k].uuid)
  }

  /** An accepted commit archives the task with the committed result and the worker's uuid, makes
      the task that waits for it Ready, and frees the worker or, if it is leaving, deletes it. No
      other row changes. */
  lemma CommitEffect(db: Db, w: WorkerId, t: TaskId, res: TaskResultSpec)
    requires t in db.active && db.active[t].worker == Some(w) && w in db.workers
    requires db.active[t].state in {Finished, Cancelled}
    ensures var db' := DbApply(db, ReportTask(w, t, Commit(res)));
      && db'.active.Keys == db.active.Keys - {t}
      && (forall k :: k in db.active && k != t ==>
            db'.active[k] == if WaitsFor(db, k, t) then db.active[k].(state := Ready) else db.active[k])
      && db'.archived == db.archived[t := Archived(db.active[t].(result := Some(res)), Some(db.workers[w].uuid))]
      && (db.workers[w].state == Normal ==>
            db'.workers == db.workers[w := db.workers[w].(task := None)] && db'.groupWorker == db.groupWorker)
      && (db.workers[w].state == GracefulShutdown ==>
            db'.workers == db.workers - {w} && db'.groupWorker == db.groupWorker - {w})
      && db'.taskCount == db.taskCount && db'.nextTask == db.nextTask && db'.enrolled == db.enrolled
  {
    var mid := ArchiveCommit(db, w, t, res);
    assert mid.active == db.active - {t};
  }

  /** A commit is answered InvalidRequest exactly if the task is held and not done, and Ok exactly
      if it is done and the task it names as downstream, if any, waits. */
  lemma CommitReplyIff(db: Db, w: WorkerId, t: TaskId, res: TaskResultSpec)
    requires Holding(db) && w in db.workers && t in db.active && db.active[t].worker == Some(w)
    ensures ReportReply(db, w, t, Commit(res)) == InvalidRequest <==> db.active[t].state == Running
    ensures ReportReply(db, w, t, Commit(res)) == Ok <==>
      db.active[t].state != Running && (db.active[t].downstream.Some? ==> exists k :: WaitsFor(db, k, t))
  {
    var mid, d := ArchiveCommit(db, w, t, res), db.active[t].downstream;
    assert mid.active == db.active - {t};
    assert Done(db.active[t]) <==> db.active[t].state != Running;
    if Done(db.active[t]) {
      assert forall k :: k in TriggerSet(mid, d) <==> k != t && WaitsFor(db, k, t);
      if exists k :: WaitsFor(db, k, t) {
        var k :| WaitsFor(db, k, t);
        assert k in TriggerSet(mid, d);
      }
    }
  }

  /** The released task is found by every live worker that can run it. */
  lemma ReleasedIsFetchable(s: State, s': State, w: WorkerId, t: TaskId, res: TaskResultSpec, k: TaskId, v: WorkerId)
    requires Sound(s) && w in s.db.workers && t in s.db.active && s.db.active[t].worker == Some(w)
    requires s.db.active[t].state in {Finished, Cancelled} && WaitsFor(s.db, k, t)
    requires s' == Apply(s, ReportTask(w, t, Commit(res)))
    requires Able(s'.db, v, s.db.active[k].group, s.db.active[k].tags)
    ensures ReadyFor(s'.db, v, k) && Waiting(s'.queues, s'.inflight, v, k)
  {
    ReleasedIsReady(s.db, w, t, res, k, v);
    ReadyIsWaiting(s, ReportTask(w, t, Commit(res)), v, k);
  }

  lemma ReleasedIsReady(db: Db, w: WorkerId, t: TaskId, res: TaskResultSpec, k: TaskId, v: WorkerId)
    requires w in db.workers && t in db.active && db.active[t].worker == Some(w)
    requires db.active[t].state in {Finished, Cancelled} && WaitsFor(db, k, t)
    ensures var db' := DbApply(db, ReportTask(w, t, Commit(res)));
      Able(db', v, db.active[k].group, db.active[k].tags) ==> ReadyFor(db', v, k)
  {
    CommitEffect(db, w, t, res);
    var db' := DbApply(db, ReportTask(w, t, Commit(res)));
    assert k != t;
    RolesMean(db', 0, v, 0, db'.active[k]);
  }

  /** After any step from a sound state, what is Ready is waiting for those who can run it. */
  lemma ReadyIsWaiting(s: State, step: Step, v: WorkerId, k: TaskId)
    requires Sound(s) && Guard(s, step) && ReadyFor(Apply(s, step).db, v, k)
    ensures Waiting(Apply(s, step).queues, Apply(s, step).inflight, v, k)
  {
    StepSound(s, step);
  }

  // ----- claiming

  lemma ClaimEffect(db: Db, w: WorkerId, t: TaskId)
    requires w in db.workers
    ensures DbApply(db, Claim(w, t)) ==
      if t in db.active && db.active[t].state == Ready && db.active[t].worker == None
      then db.(active := db.active[t := db.active[t].(worker := Some(w), state := Running)],
               workers := db.workers[w := db.workers[w].(task := Some(t))])
      else db
  {
  }

  // ----- cancelling

  /** What a cancellation may take: one Ready task, or Ready and Pending tasks out of a list or a
      filter, where the user may write. */
  ghost predicate Takes(db: Db, step: Step, t: TaskId)
    requires IsCancel(step)
  {
    t in db.active &&
    match step
    case CancelTask(user, uuid) =>
      db.active[t].uuid == uuid && db.active[t].state == Ready && Writer(db, user, db.active[t].group)
    case CancelTasks(user, uuids) =>
      db.active[t].uuid in uuids && db.active[t].state in {Ready, Pending} && Writer(db, user, db.active[t].group)
    case CancelByFilter(matching) => t in matching && db.active[t].state in {Ready, Pending}
  }

  function ByUser(row: Task): Archived {
    Archived(row.(state := Cancelled, result := Some(TaskResultSpec(0, Some(UserCancellation)))), None)
  }

  /** The taken tasks, and no others, move to the archive as cancelled by a user. */
  lemma CancelEffect(db: Db, step: Step, t: TaskId)
    requires IsCancel(step)
    ensures var db' := DbApply(db, step);
      && (t in db'.active <==> t in db.active && !Takes(db, step, t))
      && (t in db'.active ==> db'.active[t] == db.active[t])
      && (Takes(db, step, t) ==> t in db'.archived && db'.archived[t] == ByUser(db.active[t]))
      && (!Takes(db, step, t) ==>
            (t in db'.archived <==> t in db.archived) && (t in db.archived ==> db'.archived[t] == db.archived[t]))
      && db'.workers == db.workers && db'.groupWorker == db.groupWorker
  {
    if t in db.active && !step.CancelByFilter? {
      RolesMean(db, step.user, 0, db.active[t].group, db.active[t]);
    }
    assert t in CancelSet(db, step) <==> Takes(db, step, t);
  }

  /** And they leave every queue. */
  lemma CancelUnqueues(s: State, step: Step, v: WorkerId, t: TaskId)
    requires IsCancel(step) && v in s.queues
    ensures var s' := Apply(s, step);
      && v in s'.queues && (t in s'.queues[v] <==> t in s.queues[v] && !Takes(s.db, step, t))
      && (t in s'.queues[v] ==> s'.queues[v][t] == s.queues[v][t])
  {
    if t in s.db.active && !step.CancelByFilter? {
      RolesMean(s.db, step.user, 0, s.db.active[t].group, s.db.active[t]);
    }
    assert t in CancelSet(s.db, step) <==> Takes(s.db, step, t);
  }

  // ----- workers

  /** A new worker is idle and Normal; nothing else in the tables changes. */
  lemma EnrolEffect(db: Db, w: WorkerId, badge: Uuid, tags: set<string>, roles: map<GroupId, GroupWorkerRole>)
    ensures DbApply(db, RegisterWorker(w, badge, tags, roles)) ==
      db.(workers := db.workers[w := Worker(badge, tags, Normal, None)],
          groupWorker := db.groupWorker[w := roles], enrolled := db.enrolled[w := badge])
  {
  }

  /** Its queue holds exactly the active tasks it can run, with their priorities. */
  lemma EnrolFills(s: State, w: WorkerId, badge: Uuid, tags: set<string>, roles: map<GroupId, GroupWorkerRole>,
                   t: TaskId)
    requires w !in s.queues
    ensures var s' := Apply(s, RegisterWorker(w, badge, tags, roles));
      && w in s'.queues
      && (t in s'.queues[w] <==> t in s.db.active && Able(s'.db, w, s.db.active[t].group, s.db.active[t].tags))
      && (t in s'.queues[w] ==> s'.queues[w][t] == s.db.active[t].priority)
      && w in s'.beats && s'.beats[w] == s.now + s.timeout
  {
    if t in s.db.active {
      RolesMean(DbApply(s.db, RegisterWorker(w, badge, tags, roles)), 0, w, 0, s.db.active[t]);
    }
  }

  /** Forced removal, in each of its forms: the tasks of the removed workers become Ready and
      nobody's, their rows and group rows go, and nothing else changes. */
  lemma RemovalEffect(db: Db, step: Step)
    requires Holding(db) && IsRemoval(step)
    ensures var db', ws := DbApply(db, step), if step.RemoveWorker? || step.Expire? then {step.w} else step.ws;
      && db'.active.Keys == db.active.Keys
      && (forall t :: t in db.active ==>
            db'.active[t] == if db.active[t].worker.Some? && db.active[t].worker.value in ws
                             then db.active[t].(worker := None, state := Ready) else db.active[t])
      && db' == db.(active := db'.active, workers := db.workers - ws, groupWorker := db.groupWorker - ws)
  {
    BulkIs(db, step);
  }

  /** Graceful removal: idle workers go, busy ones are marked and keep their task. */
  lemma RetireEffect(db: Db, ws: set<WorkerId>, w: WorkerId)
    requires w in db.workers
    ensures var db' := DbApply(db, GracefulShutdownOf(ws));
      && db'.active == db.active && db'.archived == db.archived
      && (w !in ws ==> w in db'.workers && db'.workers[w] == db.workers[w])
      && (w in ws && db.workers[w].task.None? ==> w !in db'.workers && w !in db'.groupWorker)
      && (w in ws && db.workers[w].task.Some? ==>
            && w in db'.workers && db'.workers[w] == db.workers[w].(state := GracefulShutdown)
            && (w in db'.groupWorker <==> w in db.groupWorker)
            && (w in db.groupWorker ==> db'.groupWorker[w] == db.groupWorker[w]))
  {
  }

  /** A heartbeat moves the worker's deadline and nothing else. */
  lemma HeartbeatEffect(s: State, w: WorkerId)
    requires forall v :: v in s.inflight ==> v in s.db.workers
    ensures Apply(s, Heartbeat(w)) == s.(beats := s.beats[w := s.now + s.timeout], heard := s.heard[w := s.now])
  {
    assert KeptCandidates(s.inflight, s.db) == s.inflight;
  }
}
