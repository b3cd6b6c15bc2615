/** What the tables promise over whole runs, whatever the queues contain: the steps below
    include a claim of any task by any live, idle worker. */
module Guarantees {
  import opened Schema
  import opened Tables
  import opened Invariants

  // ----- exclusive holding

  /** In every reachable database a task and a worker name each other or neither names the
      other, and exactly the Running, Finished and Cancelled tasks are held. */
  lemma ExclusiveHolding(db0: Db, steps: seq<Step>)
    requires Initial(db0) && DbLegal(db0, steps)
    ensures var db := DbRun(db0, steps);
      && (forall t, w :: (t in db.active && db.active[t].worker == Some(w)) <==>
                         (w in db.workers && db.workers[w].task == Some(t)))
      && (forall t :: t in db.active ==>
            (db.active[t].worker.Some? <==> db.active[t].state in {Running, Finished, Cancelled}))
      && (forall t :: t in db.active && db.active[t].worker.None? ==> db.active[t].state in {Pending, Ready})
  {
    InitialInv(db0);
    RunKeeps(db0, steps);
  }

  /** The server does not check that a worker asking for a task holds none, nor that its row
      still exists when the claim is made. A claim keeps the two copies in agreement exactly
      when it fails or the worker is live and idle. */
  lemma ClaimKeepsHoldingIff(db: Db, w: WorkerId, t: TaskId)
    requires Holding(db)
    ensures Holding(ClaimTask(db, w, t)) <==>
            !Claimable(db, t) || (w in db.workers && db.workers[w].task.None?)
  {
    var db' := ClaimTask(db, w, t);
    if Claimable(db, t) {
      if w !in db.workers {
        assert db'.active[t].worker == Some(w);
      } else if db.workers[w].task.Some? {
        var held := db.workers[w].task.value;
        assert held != t && db'.active[held].worker == Some(w) && db'.workers[w].task == Some(t);
      }
    }
  }

  /** What goes wrong otherwise: a busy worker that claims a second task leaves the first one
      behind. Removing that worker then strands it, held by a worker that no longer exists,
      while the shutdown by filter would have released it. */
  lemma BusyClaimStrands(db: Db, w: WorkerId, held: TaskId, t: TaskId)
    requires Holding(db) && w in db.workers && db.workers[w].task == Some(held) && Claimable(db, t)
    ensures var claimed := ClaimTask(db, w, t);
      && EvictAssigned(claimed, {w}).active[held] == db.active[held]
      && w !in EvictAssigned(claimed, {w}).workers
      && Evict(claimed, {w}).active[held].state == Ready
  {
    var claimed := ClaimTask(db, w, t);
    assert claimed.workers[w].task == Some(t);
    assert AssignedTasks(claimed, {w}) == {t};
  }

  /** Of the whole invariant: a claim keeps it exactly when it fails or the worker is live and
      idle. */
  lemma ClaimKeepsInvIff(db: Db, w: WorkerId, t: TaskId)
    requires Inv(db)
    ensures Inv(ClaimTask(db, w, t)) <==> !Claimable(db, t) || (w in db.workers && db.workers[w].task.None?)
  {
    ClaimKeepsHoldingIff(db, w, t);
    if w in db.workers && db.workers[w].task.None? { ClaimKeeps(db, w, t); }
  }

  /** The task is Running and held by a worker whose row is gone, and no worker row names it. */
  ghost predicate Stranded(db: Db, w: WorkerId, t: TaskId) {
    && t in db.active && t < db.nextTask && db.active[t].state == Running && db.active[t].worker == Some(w)
    && w in db.enrolled && w !in db.workers
    && forall v :: v in db.workers ==> db.workers[v].task != Some(t)
  }

  /** A claim for a worker whose row is gone still updates the task row. */
  lemma DeadClaimStrands(db: Db, w: WorkerId, t: TaskId)
    requires Keyed(db) && Holding(db) && w in db.enrolled && w !in db.workers && Claimable(db, t)
    ensures Stranded(ClaimTask(db, w, t), w, t)
  {
    assert t in Ids(db);
  }

  /** Of all steps only a forced shutdown by filter that names the dead worker would release the
      task, and that filter selects from the worker rows. */
  lemma StrandedStepIff(db: Db, step: Step, w: WorkerId, t: TaskId)
    requires Stranded(db, w, t) && DbGuard(db, step)
    ensures Stranded(DbApply(db, step), w, t) <==> !(step.ForceShutdown? && w in step.ws)
  {
    GoneStep(db, step, w);
    if LeavesWorkers(step) {
      SameWorkers(db, step);
      StrandedCall(db, step, w, t);
    } else if step.ReportTask? {
      StrandedReport(db, step.w, step.t, step.report, w, t);
    } else if IsRemoval(step) {
      StrandedRemoval(db, step, w, t);
    }
  }

  lemma StrandedCall(db: Db, step: Step, w: WorkerId, t: TaskId)
    requires Stranded(db, w, t) && LeavesWorkers(step)
    ensures Stranded(DbApply(db, step), w, t)
  {
    SameWorkers(db, step);
  }

  lemma StrandedReport(db: Db, v: WorkerId, k: TaskId, report: Report, w: WorkerId, t: TaskId)
    requires Stranded(db, w, t) && v in db.workers
    ensures Stranded(ApplyReport(db, v, k, report), w, t)
  {
    ReportWorkers(db, v, k, report);
    if HeldBy(db, v, k) {
      assert k != t;
      if report.Commit? && CommitAccepted(db, v, k) {
        assert ArchiveCommit(db, v, k, report.result).active[t] == db.active[t];
      }
    }
  }

  lemma StrandedRemoval(db: Db, step: Step, w: WorkerId, t: TaskId)
    requires Stranded(db, w, t) && IsRemoval(step)
    ensures Stranded(DbApply(db, step), w, t) <==> !(step.ForceShutdown? && w in step.ws)
  {
    var ws := RemovedBy(step);
    assert t !in AssignedTasks(db, ws);
    assert t in HeldTasks(db, ws) <==> w in ws;
  }

  /** So in every run in which shutdowns by filter name live workers, the task stays Running and
      nobody's. */
  lemma {:induction false} StrandedStays(db: Db, steps: seq<Step>, w: WorkerId, t: TaskId)
    requires Stranded(db, w, t) && DbLegal(db, steps)
    requires forall i :: 0 <= i < |steps| && steps[i].ForceShutdown? ==> w !in steps[i].ws
    ensures Stranded(DbRun(db, steps), w, t)
    decreases |steps|
  {
    if steps != [] {
      StrandedStepIff(db, steps[0], w, t);
      StrandedStays(DbApply(db, steps[0]), steps[1..], w, t);
    }
  }

  // ----- chains of spawned tasks

  /** Each element names the next one as its upstream. */
  ghost predicate Chain(db: Db, chain: seq<TaskId>) {
    && chain != [] && chain[0] in Ids(db)
    && forall k :: 0 <= k < |chain| - 1 ==> chain[k] in Ids(db) && IsUpstream(db, chain[k], chain[k + 1])
  }

  /** Following upstream links always leads to smaller row ids, so every chain ends. */
  lemma {:induction false} ChainsEnd(db: Db, chain: seq<TaskId>)
    requires Inv(db) && Chain(db, chain)
    ensures forall k :: 0 <= k < |chain| - 1 ==> chain[k + 1] < chain[k]
    ensures |chain| <= chain[0] + 1
    decreases |chain|
  {
    if |chain| > 1 {
      LinkDecreases(db, chain[0], chain[1]);
      var rest := chain[1..];
      assert forall k :: 0 <= k < |rest| ==> rest[k] == chain[k + 1];
      ChainsEnd(db, rest);
    }
  }

  lemma LinkDecreases(db: Db, i: TaskId, j: TaskId)
    requires Inv(db) && i in Ids(db) && IsUpstream(db, i, j)
    ensures j < i
  {
    var k: TaskId :| IsUpstream(db, i, k) && k < i;
    assert Row(db, j).uuid == Row(db, k).uuid;
  }

  /** Causality along the whole chain: once a task has left Pending, every task it descends
      from is archived and was committed by a worker. */
  lemma {:induction false} AncestorsCommitted(db: Db, chain: seq<TaskId>)
    requires Inv(db) && Chain(db, chain) && Started(db, chain[0])
    ensures forall k :: 0 < k < |chain| ==>
      chain[k] in db.archived && db.archived[chain[k]].reporter.Some?
    decreases |chain|
  {
    if |chain| > 1 {
      UpstreamCommitted(db, chain[0], chain[1]);
      var rest := chain[1..];
      assert forall k :: 0 <= k < |rest| ==> rest[k] == chain[k + 1];
      AncestorsCommitted(db, rest);
      forall k | 0 < k < |chain|
        ensures chain[k] in db.archived && db.archived[chain[k]].reporter.Some?
      {
        if k > 1 { assert rest[k - 1] == chain[k]; }
      }
    }
  }

  lemma UpstreamCommitted(db: Db, i: TaskId, j: TaskId)
    requires Inv(db) && i in Ids(db) && Started(db, i) && IsUpstream(db, i, j)
    ensures j in db.archived && db.archived[j].reporter.Some? && Started(db, j)
  {
    var k :| Committed(db, Row(db, i).upstream.value, k);
    assert Row(db, k).uuid == Row(db, j).uuid;
    assert k == j;
  }

  // ----- commit after an accepted report

  ghost predicate Reported(db: Db, w: WorkerId, t: TaskId) {
    HeldBy(db, w, t) && Done(db.active[t])
  }

  predicate Removes(step: Step, w: WorkerId) {
    IsRemoval(step) && w in RemovedBy(step)
  }

  predicate Commits(step: Step, w: WorkerId, t: TaskId) {
    step.ReportTask? && step.w == w && step.t == t && step.report.Commit?
  }

  lemma ReportedStep(db: Db, step: Step, w: WorkerId, t: TaskId)
    requires Keyed(db) && Holding(db) && DbGuard(db, step) && Reported(db, w, t)
    requires !Removes(step, w) && !Commits(step, w, t)
    ensures Reported(DbApply(db, step), w, t)
  {
    if IsRemoval(step) {
      ReportedRemoval(db, step, w, t);
    } else if step.ReportTask? {
      ReportedReport(db, step.w, step.t, step.report, w, t);
    } else if step.SubmitTask? {
      assert t in Ids(db);
    }
  }

  lemma ReportedRemoval(db: Db, step: Step, w: WorkerId, t: TaskId)
    requires Holding(db) && Reported(db, w, t) && IsRemoval(step) && w !in RemovedBy(step)
    ensures Reported(DbApply(db, step), w, t)
  {
    HeldIsAssigned(db, RemovedBy(step));
  }

  lemma ReportedReport(db: Db, v: WorkerId, k: TaskId, report: Report, w: WorkerId, t: TaskId)
    requires Keyed(db) && Holding(db) && v in db.workers && Reported(db, w, t)
    requires !(v == w && k == t && report.Commit?)
    ensures Reported(ApplyReport(db, v, k, report), w, t)
  {
    if HeldBy(db, v, k) {
      match report
      case Finish =>
      case Cancel =>
      case Submit(_, _, _, _, _, _) => assert t < db.nextTask by { assert t in Ids(db); }
      case Commit(res) =>
        if Done(db.active[k]) {
          assert ArchiveCommit(db, v, k, res).active[t] == db.active[t];
        }
    }
  }

  /** Once the holder's Finish or Cancel was accepted, the task stays done until that worker
      commits it or is removed, so the commit is never refused as not done. */
  lemma {:induction false} ReportedStays(db: Db, steps: seq<Step>, w: WorkerId, t: TaskId)
    requires Inv(db) && DbLegal(db, steps) && Reported(db, w, t)
    requires forall i :: 0 <= i < |steps| ==> !Removes(steps[i], w) && !Commits(steps[i], w, t)
    ensures Reported(DbRun(db, steps), w, t)
    ensures forall res :: ReportReply(DbRun(db, steps), w, t, Commit(res)) != InvalidRequest
    decreases |steps|
  {
    if steps != [] {
      StepKeeps(db, steps[0]);
      ReportedStep(db, steps[0], w, t);
      ReportedStays(DbApply(db, steps[0]), steps[1..], w, t);
    }
  }

  // ----- graceful shutdown

  ghost predicate LeavingWith(db: Db, w: WorkerId, t: TaskId) {
    w in db.workers && db.workers[w].state == GracefulShutdown && db.workers[w].task == Some(t)
  }

  lemma GoneStep(db: Db, step: Step, w: WorkerId)
    requires DbGuard(db, step) && w in db.enrolled && w !in db.workers
    ensures w !in DbApply(db, step).workers
  {
    if LeavesWorkers(step) {
      SameWorkers(db, step);
    } else if step.ReportTask? {
      ReportWorkers(db, step.w, step.t, step.report);
    }
  }

  /** A worker row that was deleted never comes back. */
  lemma {:induction false} GoneStays(db: Db, steps: seq<Step>, w: WorkerId)
    requires Inv(db) && DbLegal(db, steps) && w in db.enrolled && w !in db.workers
    ensures w !in DbRun(db, steps).workers
    decreases |steps|
  {
    if steps != [] {
      StepKeeps(db, steps[0]);
      GoneStep(db, steps[0], w);
      GoneStays(DbApply(db, steps[0]), steps[1..], w);
    }
  }

  lemma LeavingStep(db: Db, step: Step, w: WorkerId, t: TaskId)
    requires Keyed(db) && Holding(db) && DbGuard(db, step) && LeavingWith(db, w, t)
    ensures w in DbApply(db, step).workers ==> LeavingWith(DbApply(db, step), w, t)
  {
    if LeavesWorkers(step) {
      SameWorkers(db, step);
    } else if step.ReportTask? {
      LeavingReport(db, step.w, step.t, step.report, w, t);
    } else if step.GracefulShutdownOf? {
      assert w !in IdleAmong(db, step.ws);
    }
  }

  lemma LeavingReport(db: Db, v: WorkerId, k: TaskId, report: Report, w: WorkerId, t: TaskId)
    requires Keyed(db) && Holding(db) && v in db.workers && LeavingWith(db, w, t)
    ensures var db' := ApplyReport(db, v, k, report); w in db'.workers ==> LeavingWith(db', w, t)
  {
    ReportWorkers(db, v, k, report);
    if report.Commit? && CommitAccepted(db, v, k) { assert v == w <==> k == t; }
  }

  /** A worker marked for graceful shutdown keeps the task it holds for as long as its row
      exists, so it never obtains another one; its row is gone once that task is archived. */
  lemma {:induction false} LeavingNeverFetches(db: Db, steps: seq<Step>, w: WorkerId, t: TaskId)
    requires Inv(db) && DbLegal(db, steps) && w in db.enrolled
    requires w in db.workers ==> LeavingWith(db, w, t)
    ensures var db' := DbRun(db, steps);
      && (w in db'.workers ==> LeavingWith(db', w, t))
      && (t in db'.archived ==> w !in db'.workers)
    decreases |steps|
  {
    if steps != [] {
      StepKeeps(db, steps[0]);
      if w in db.workers { LeavingStep(db, steps[0], w, t); } else { GoneStep(db, steps[0], w); }
      LeavingNeverFetches(DbApply(db, steps[0]), steps[1..], w, t);
    }
  }

  /** The commit that archives the task of a worker in graceful shutdown deletes its row and
      its group rows in the same step. */
  lemma CommitDropsLeaving(db: Db, w: WorkerId, t: TaskId, res: TaskResultSpec)
    requires Inv(db) && LeavingWith(db, w, t) && Done(db.active[t])
    ensures var db' := DbApply(db, ReportTask(w, t, Commit(res)));
            t in db'.archived && w !in db'.workers && w !in db'.groupWorker
  {
  }

  // ----- conservation

  /** From the first insertion on: a task is in exactly one table, its number is unique within
      its group and bounded by the counter, and archived rows are done, carry a result and
      name the worker that reported them. */
  lemma Conservation(db0: Db, before: seq<Step>, after: seq<Step>)
    requires Initial(db0) && DbLegal(db0, before) && DbLegal(DbRun(db0, before), after)
    ensures var db, db' := DbRun(db0, before), DbRun(DbRun(db0, before), after);
      && Extends(db, db')
      && (forall t :: t in Ids(db) ==> (t in db'.active <==> t !in db'.archived))
      && (forall i, j :: i in Ids(db') && j in Ids(db') && i != j ==>
            Row(db', i).uuid != Row(db', j).uuid && !SameNumber(Row(db', i), Row(db', j)))
      && (forall t :: t in Ids(db') ==>
            Row(db', t).group in db'.taskCount && Row(db', t).number <= db'.taskCount[Row(db', t).group])
      && (forall t :: t in db'.archived ==> SettledRow(db', db'.archived[t]))
  {
    InitialInv(db0);
    RunKeeps(db0, before);
    RunKeeps(DbRun(db0, before), after);
  }
}
