/** What the index gives: fetches answer like a query of the tables, a restart loses nothing
    a worker could claim, evictions are late, and the one race a fetch is open to. */
module Dispatching {
  import opened Schema
  import opened Tables
  import opened Invariants
  import opened Guarantees
  import opened Dispatcher
  import opened Protocol
  import opened Scheduling

  /** The plain query the queues speed up: a Ready task of greatest priority among all Ready
      tasks the worker can run. */
  ghost predicate Best(db: Db, w: WorkerId, t: TaskId) {
    && ReadyFor(db, w, t)
    && forall k :: ReadyFor(db, w, k) ==> db.active[k].priority <= db.active[t].priority
  }

  /** A live worker that holds nothing and has no fetch under way. */
  ghost predicate Idle(s: State, w: WorkerId) {
    w in s.db.workers && s.db.workers[w].task.None? && w !in s.inflight
  }

  /** A live worker that has no fetch under way, whether or not it holds a task. */
  ghost predicate Asks(s: State, w: WorkerId) {
    w in s.db.workers && w !in s.inflight
  }

  /** The steps of one fetch: a pop and a claim for each candidate tried. */
  function FetchSteps(w: WorkerId, picks: seq<TaskId>): seq<Step> {
    if picks == [] then [] else [Pop(w, picks[0]), Claim(w, picks[0])] + FetchSteps(w, picks[1..])
  }

  lemma TopIsBest(s: State, w: WorkerId, t: TaskId)
    requires IndexOk(s) && Asks(s, w) && w in s.queues && IsTop(s.queues[w], t) && Claimable(s.db, t)
    ensures Best(s.db, w, t)
  {
    assert EntryOk(s.db, w, t, s.queues[w][t]);
    forall k | ReadyFor(s.db, w, k) ensures s.db.active[k].priority <= s.db.active[t].priority {
      assert Waiting(s.queues, s.inflight, w, k);
      assert EntryOk(s.db, w, k, s.queues[w][k]);
    }
  }

  lemma EmptyMeansNone(s: State, w: WorkerId)
    requires IndexOk(s) && Asks(s, w) && (w !in s.queues || s.queues[w] == map[])
    ensures forall t :: !ReadyFor(s.db, w, t)
  {
    assert forall t :: !Waiting(s.queues, s.inflight, w, t);
  }

  /** A pop whose claim fails changes nothing but the queue it was taken from. */
  lemma FailedTry(s: State, w: WorkerId, t: TaskId)
    requires Asks(s, w) && w in s.queues && !Claimable(s.db, t)
    ensures var s' := Apply(Apply(s, Pop(w, t)), Claim(w, t));
      s' == s.(queues := Popped(s.queues, w, t)) && Asks(s', w)
  {
    assert Apply(s, Pop(w, t)).inflight - {w} == s.inflight;
  }

  /** An entry whose task is not Ready is not missed. */
  lemma StaleEntryGone(s: State, w: WorkerId, t: TaskId)
    requires Holding(s.db) && IndexOk(s) && w in s.queues && t in s.queues[w] && !Claimable(s.db, t)
    ensures IndexOk(s.(queues := Popped(s.queues, w, t)))
  {
    var qs' := Popped(s.queues, w, t);
    forall v, k | ReadyFor(s.db, v, k) ensures Waiting(qs', s.inflight, v, k) {
      assert Waiting(s.queues, s.inflight, v, k);
    }
    forall v, k | v in s.db.workers && v in qs' && k in qs'[v] ensures EntryOk(s.db, v, k, qs'[v][k]) {
      assert EntryOk(s.db, v, k, s.queues[v][k]);
    }
  }

  lemma FetchUnrolls(s: State, w: WorkerId, picks: seq<TaskId>)
    requires picks != [] && Legal(s, FetchSteps(w, picks))
    ensures var popped := Apply(s, Pop(w, picks[0]));
      var tried := Apply(popped, Claim(w, picks[0]));
      && Guard(s, Pop(w, picks[0])) && Guard(popped, Claim(w, picks[0]))
      && Legal(tried, FetchSteps(w, picks[1..]))
      && Run(s, FetchSteps(w, picks)) == Run(tried, FetchSteps(w, picks[1..]))
  {
    var steps := FetchSteps(w, picks);
    assert steps[0] == Pop(w, picks[0]) && steps[1..][0] == Claim(w, picks[0]);
    assert steps[1..][1..] == FetchSteps(w, picks[1..]);
  }

  lemma FetchRetries(s: State, w: WorkerId, picks: seq<TaskId>) returns (next: State)
    requires Holding(s.db) && IndexOk(s) && Idle(s, w) && picks != [] && Legal(s, FetchSteps(w, picks))
    requires !Claimable(s.db, picks[0])
    requires forall i :: 0 <= i < |picks| - 1 ==> !Claimable(s.db, picks[i])
    ensures IndexOk(next) && Idle(next, w) && next.db == s.db && Legal(next, FetchSteps(w, picks[1..]))
    ensures forall i :: 0 <= i < |picks[1..]| - 1 ==> !Claimable(s.db, picks[1..][i])
    ensures Run(s, FetchSteps(w, picks)) == Run(next, FetchSteps(w, picks[1..]))
  {
    FetchUnrolls(s, w, picks);
    FailedTry(s, w, picks[0]);
    StaleEntryGone(s, w, picks[0]);
    next := s.(queues := Popped(s.queues, w, picks[0]));
  }

  /** What a fetch of worker `w` that tried these candidates in turn, starting from tables
      `db`, has found out. If the last one could be claimed, it is the best answer to the
      query; if none could and the queue is now empty, there is no answer. */
  ghost predicate Answers(db: Db, w: WorkerId, picks: seq<TaskId>, s': State) {
    if picks != [] && Claimable(db, picks[|picks| - 1])
    then Best(db, w, picks[|picks| - 1]) && s'.db == ClaimTask(db, w, picks[|picks| - 1])
    else s'.db == db && ((w !in s'.queues || s'.queues[w] == map[]) ==> forall t :: !ReadyFor(db, w, t))
  }

  lemma LastTry(s: State, w: WorkerId, t: TaskId)
    requires IndexOk(s) && Idle(s, w) && Guard(s, Pop(w, t)) && Claimable(s.db, t)
    ensures Answers(s.db, w, [t], Apply(Apply(s, Pop(w, t)), Claim(w, t)))
  {
    TopIsBest(s, w, t);
  }

  lemma AnswersCarry(db: Db, w: WorkerId, picks: seq<TaskId>, s': State)
    requires picks != [] && !Claimable(db, picks[0]) && Answers(db, w, picks[1..], s')
    ensures Answers(db, w, picks, s')
  {
    if |picks| > 1 { assert picks[1..][|picks[1..]| - 1] == picks[|picks| - 1]; }
  }

  lemma FetchEnds(s: State, w: WorkerId, picks: seq<TaskId>)
    requires IndexOk(s) && Idle(s, w) && Legal(s, FetchSteps(w, picks)) && |picks| <= 1
    requires picks != [] ==> Claimable(s.db, picks[0])
    ensures Answers(s.db, w, picks, Run(s, FetchSteps(w, picks)))
  {
    if picks == [] {
      if w !in s.queues || s.queues[w] == map[] { EmptyMeansNone(s, w); }
    } else {
      FetchUnrolls(s, w, picks);
      assert picks == [picks[0]] && picks[1..] == [];
      LastTry(s, w, picks[0]);
    }
  }

  /** The loop of `fetch_task`, in which every candidate but the last one could not be
      claimed, answers the query. */
  lemma {:induction false} FetchAnswersQuery(s: State, w: WorkerId, picks: seq<TaskId>)
    requires Holding(s.db) && IndexOk(s) && Idle(s, w) && Legal(s, FetchSteps(w, picks))
    requires forall i :: 0 <= i < |picks| - 1 ==> !Claimable(s.db, picks[i])
    ensures Answers(s.db, w, picks, Run(s, FetchSteps(w, picks)))
    decreases |picks|
  {
    if picks == [] || Claimable(s.db, picks[0]) {
      FetchEnds(s, w, picks);
    } else {
      var next := FetchRetries(s, w, picks);
      FetchAnswersQuery(next, w, picks[1..]);
      AnswersCarry(s.db, w, picks, Run(s, FetchSteps(w, picks)));
    }
  }

  /** In every run, with every other step between pops and claims: a Ready task is in the queue
      of every live worker that can run it or is that worker's candidate. */
  lemma NoReadyTaskLost(s0: State, steps: seq<Step>, w: WorkerId, t: TaskId)
    requires Start(s0) && Legal(s0, steps) && ReadyFor(Run(s0, steps).db, w, t)
    ensures Waiting(Run(s0, steps).queues, Run(s0, steps).inflight, w, t)
  {
    ReachableSound(s0, steps);
  }

  /** In every run a fetch of an idle live worker answers the query on the tables. */
  lemma FetchInEveryRun(s0: State, steps: seq<Step>, w: WorkerId, picks: seq<TaskId>)
    requires Start(s0) && Legal(s0, steps)
    requires Idle(Run(s0, steps), w) && Legal(Run(s0, steps), FetchSteps(w, picks))
    requires forall i :: 0 <= i < |picks| - 1 ==> !Claimable(Run(s0, steps).db, picks[i])
    ensures Answers(Run(s0, steps).db, w, picks, Run(Run(s0, steps), FetchSteps(w, picks)))
  {
    ReachableSound(s0, steps);
    FetchAnswersQuery(Run(s0, steps), w, picks);
  }

  // ----- restart

  /** What a queue entry is good for: the tasks that can be claimed, with their priorities. */
  ghost function ClaimableEntries(db: Db, q: Queue): Queue {
    map t: TaskId | t in q && Claimable(db, t) :: q[t]
  }

  /** After a restart every live worker finds the claimable tasks it would have found, with
      the same priorities; a candidate it had popped comes back if it can still be run. */
  lemma RestartRecovers(s: State, w: WorkerId)
    requires Sound(s) && w in s.db.workers
    ensures var s' := Apply(s, Restart);
      && Sound(s') && w in s'.queues
      && (w !in s.inflight ==>
            ClaimableEntries(s.db, s'.queues[w]) == ClaimableEntries(s.db, s.queues[w]))
      && (w in s.inflight ==>
            ClaimableEntries(s.db, s'.queues[w] - {s.inflight[w]}) ==
            ClaimableEntries(s.db, s.queues[w] - {s.inflight[w]}))
  {
    StepSound(s, Restart);
    RebuiltEntries(s, w);
  }

  lemma RebuiltEntries(s: State, w: WorkerId)
    requires Holding(s.db) && IndexOk(s) && w in s.db.workers
    ensures var q, q' := s.queues[w], Rebuilt(s.db)[w];
      && (w !in s.inflight ==> ClaimableEntries(s.db, q') == ClaimableEntries(s.db, q))
      && (w in s.inflight ==>
            ClaimableEntries(s.db, q' - {s.inflight[w]}) == ClaimableEntries(s.db, q - {s.inflight[w]}))
  {
    var q, q' := s.queues[w], Rebuilt(s.db)[w];
    forall t | t in q' && Claimable(s.db, t) ensures t in q || (w in s.inflight && s.inflight[w] == t) {
      assert ReadyFor(s.db, w, t);
      assert Waiting(s.queues, s.inflight, w, t);
    }
    forall t | t in q ensures t in q' && q'[t] == q[t] {
      assert EntryOk(s.db, w, t, q[t]);
    }
  }

  // ----- eviction by the heartbeat queue

  lemma LateWhenExpired(s: State, w: WorkerId)
    requires Timely(s) && IsEarliest(s.beats, w) && s.beats[w] <= s.now
    ensures w in s.heard && s.heard[w] + s.timeout <= s.now
  {
  }

  /** In every run a worker evicted by timeout has the earliest deadline and was last heard of
      at least the timeout ago. */
  lemma EvictionIsLate(s0: State, steps: seq<Step>, s: State, w: WorkerId)
    requires Start(s0) && Legal(s0, steps) && s == Run(s0, steps) && Guard(s, Expire(w))
    ensures IsEarliest(s.beats, w) && w in s.heard && s.heard[w] + s.timeout <= s.now
  {
    ReachableSound(s0, steps);
    LateWhenExpired(s, w);
  }

  /** In every run a live worker has both a deadline and a queue. */
  lemma LiveWorkersServed(s0: State, steps: seq<Step>, s: State)
    requires Start(s0) && Legal(s0, steps) && s == Run(s0, steps)
    ensures s.db.workers.Keys <= s.beats.Keys && s.db.workers.Keys <= s.queues.Keys
  {
    ReachableSound(s0, steps);
  }

  // ----- the race between pop and claim

  /** The tags an accepted change request gives the task, if the step is one that does. */
  function Retag(db: Db, step: Step, t: TaskId): Option<set<string>> {
    if step.ChangeTask? && t in ChangeSet(db, step) then step.newTags else None
  }

  /** The tags the last such request of a run gives the task. */
  ghost function LastRetag(db: Db, steps: seq<Step>, t: TaskId): Option<set<string>>
    decreases |steps|
  {
    if steps == [] then None
    else
      var later := LastRetag(DbApply(db, steps[0]), steps[1..], t);
      if later.Some? then later else Retag(db, steps[0], t)
  }

  /** A set of tags, unless there is none, is within the worker's. */
  ghost predicate Within(db: Db, w: WorkerId, tags: Option<set<string>>) {
    w in db.workers && (tags.Some? ==> tags.value <= db.workers[w].tags)
  }

  predicate Untouched(a: Task, b: Task) {
    SameNeeds(a, b) && a.uuid == b.uuid
  }

  /** Only a change request gives a task other tags. */
  lemma TagsStay(db: Db, step: Step, t: TaskId)
    requires t in db.active && t < db.nextTask && t in DbApply(db, step).active
    requires !step.ChangeTask?
    ensures Untouched(db.active[t], DbApply(db, step).active[t])
  {
    if LeavesWorkers(step) { CallTags(db, step, t); } else { CrewTags(db, step, t); }
  }

  lemma CallTags(db: Db, step: Step, t: TaskId)
    requires t in db.active && t < db.nextTask && t in DbApply(db, step).active && LeavesWorkers(step)
    requires !step.ChangeTask?
    ensures Untouched(db.active[t], DbApply(db, step).active[t])
  {
  }

  lemma CrewTags(db: Db, step: Step, t: TaskId)
    requires t in db.active && t < db.nextTask && t in DbApply(db, step).active && !LeavesWorkers(step)
    ensures Untouched(db.active[t], DbApply(db, step).active[t])
  {
    match step
    case ReportTask(v, k, report) => ReportTags(db, v, k, report, t);
    case Claim(v, k) => ClaimTags(db, v, k, t);
    case RegisterWorker(_, _, _, _) =>
    case GracefulShutdownOf(_) =>
    case RemoveWorker(w) => ReleaseTags(db.active, AssignedTasks(db, {w}), t);
    case Expire(w) => ReleaseTags(db.active, AssignedTasks(db, {w}), t);
    case ForceShutdown(ws) => ReleaseTags(db.active, HeldTasks(db, ws), t);
    case ForceShutdownByUuids(ws) => ReleaseTags(db.active, AssignedTasks(db, ws), t);
  }

  lemma ReleaseTags(active: map<TaskId, Task>, ts: set<TaskId>, t: TaskId)
    requires t in active
    ensures t in ReleaseRows(active, ts) && Untouched(active[t], ReleaseRows(active, ts)[t])
  {
  }

  lemma ClaimTags(db: Db, v: WorkerId, k: TaskId, t: TaskId)
    requires t in db.active
    ensures t in ClaimTask(db, v, k).active && Untouched(db.active[t], ClaimTask(db, v, k).active[t])
  {
  }

  lemma SpawnTags(db: Db, v: WorkerId, k: TaskId, report: Report, t: TaskId)
    requires t in db.active && t < db.nextTask && Spawns(db, v, k, report)
    ensures t in Spawn(db, v, k, report).active && Untouched(db.active[t], Spawn(db, v, k, report).active[t])
  {
    SubmissionRow(db, db.active[k].creator, db.active[k].group, report.tags, report.priority, report.uuid,
                  report.specOk, Pending, Some(db.active[k].uuid), t);
  }

  lemma SubmissionRow(db: Db, creator: UserId, group: GroupId, tags: set<string>, priority: int, uuid: Uuid,
                      specOk: bool, state: TaskState, upstream: Option<Uuid>, t: TaskId)
    requires t in db.active && t < db.nextTask
    ensures var db' := Submission(db, creator, group, tags, priority, uuid, specOk, state, upstream);
      t in db'.active && db'.active[t] == db.active[t]
  {
  }

  lemma CommitTags(db: Db, v: WorkerId, k: TaskId, res: TaskResultSpec, t: TaskId)
    requires t in db.active && t != k && CommitAccepted(db, v, k)
    ensures var db' := Trigger(ArchiveCommit(db, v, k, res), db.active[k].downstream);
      t in db'.active && Untouched(db.active[t], db'.active[t])
  {
    assert ArchiveCommit(db, v, k, res).active[t] == db.active[t];
  }

  lemma ReportTags(db: Db, v: WorkerId, k: TaskId, report: Report, t: TaskId)
    requires t in db.active && t < db.nextTask && t in ApplyReport(db, v, k, report).active
    ensures Untouched(db.active[t], ApplyReport(db, v, k, report).active[t])
  {
    if HeldBy(db, v, k) {
      match report
      case Finish =>
      case Cancel =>
      case Submit(_, _, _, _, _, _) => if Spawns(db, v, k, report) { SpawnTags(db, v, k, report, t); }
      case Commit(res) =>
        if CommitAccepted(db, v, k) {
          CommittedGone(db, v, k, res);
          CommitTags(db, v, k, res, t);
        }
    }
  }

  lemma CommittedGone(db: Db, v: WorkerId, k: TaskId, res: TaskResultSpec)
    requires CommitAccepted(db, v, k)
    ensures k !in Trigger(ArchiveCommit(db, v, k, res), db.active[k].downstream).active
  {
  }

  /** Workers left by a step keep their tags and roles. */
  lemma CrewStays(db: Db, step: Step, w: WorkerId)
    requires DbGuard(db, step) && w in db.workers && w in db.enrolled && w in DbApply(db, step).workers
    ensures var db' := DbApply(db, step);
      && db'.workers[w].tags == db.workers[w].tags
      && (w in db'.groupWorker <==> w in db.groupWorker)
      && (w in db.groupWorker ==> db'.groupWorker[w] == db.groupWorker[w])
  {
    if LeavesWorkers(step) {
      SameWorkers(db, step);
    } else if step.ReportTask? {
      ReportWorkers(db, step.w, step.t, step.report);
    }
  }

  /** A row as far as eligibility is concerned, after a request for these tags. */
  predicate Tagged(a: Task, b: Task, tags: Option<set<string>>) {
    b.group == a.group && b.tags == if tags.Some? then tags.value else a.tags
  }

  lemma TagsAfter(db: Db, step: Step, t: TaskId)
    requires t in db.active && t < db.nextTask && t in DbApply(db, step).active
    ensures Tagged(db.active[t], DbApply(db, step).active[t], Retag(db, step, t))
  {
    if !step.ChangeTask? { TagsStay(db, step, t); }
  }

  ghost predicate SameCrew(db: Db, db': Db, w: WorkerId) {
    && w in db.workers && w in db'.workers && db'.workers[w].tags == db.workers[w].tags
    && (w in db'.groupWorker <==> w in db.groupWorker)
    && (w in db.groupWorker ==> db'.groupWorker[w] == db.groupWorker[w])
  }

  lemma TaggedRuns(db: Db, db': Db, w: WorkerId, t: TaskId, tags: Option<set<string>>)
    requires SameCrew(db, db', w) && t in db.active && t in db'.active && CanRun(db, w, db.active[t])
    requires Tagged(db.active[t], db'.active[t], tags)
    ensures CanRun(db', w, db'.active[t]) <==> Within(db, w, tags)
  {
  }

  /** One step that leaves task and worker in place takes the task from a worker that could run
      it exactly if it is an accepted change to tags the worker lacks. */
  lemma EligibleStepIff(db: Db, step: Step, w: WorkerId, t: TaskId)
    requires Keyed(db) && DbGuard(db, step) && t in db.active && CanRun(db, w, db.active[t])
    requires t in DbApply(db, step).active && w in DbApply(db, step).workers
    ensures CanRun(DbApply(db, step), w, DbApply(db, step).active[t]) <==> Within(db, w, Retag(db, step, t))
  {
    assert t in Ids(db);
    TagsAfter(db, step, t);
    CrewStays(db, step, w);
    TaggedRuns(db, DbApply(db, step), w, t, Retag(db, step, t));
  }

  lemma LostStays(db: Db, step: Step, steps: seq<Step>, w: WorkerId, t: TaskId)
    requires Inv(db) && DbGuard(db, step) && DbLegal(DbApply(db, step), steps)
    requires t in db.active && w in db.workers
    requires t !in DbApply(db, step).active || w !in DbApply(db, step).workers
    ensures t !in DbRun(DbApply(db, step), steps).active || w !in DbRun(DbApply(db, step), steps).workers
  {
    StepKeeps(db, step);
    RunKeeps(DbApply(db, step), steps);
    if t !in DbApply(db, step).active {
      assert t in Ids(db) && t in DbApply(db, step).archived;
    } else {
      GoneStays(DbApply(db, step), steps, w);
    }
  }

  /** Over a whole run the tags of a task are those of the last accepted request, and a worker
      keeps its tags and roles. */
  lemma {:induction false} TagsOverRun(db: Db, steps: seq<Step>, w: WorkerId, t: TaskId)
    requires Inv(db) && DbLegal(db, steps) && t in db.active && w in db.workers
    requires t in DbRun(db, steps).active && w in DbRun(db, steps).workers
    ensures SameCrew(db, DbRun(db, steps), w)
    ensures Tagged(db.active[t], DbRun(db, steps).active[t], LastRetag(db, steps, t))
    decreases |steps|
  {
    if steps != [] {
      var mid := DbApply(db, steps[0]);
      StepKeeps(db, steps[0]);
      if t !in mid.active || w !in mid.workers {
        LostStays(db, steps[0], steps[1..], w, t);
      } else {
        assert t in Ids(db);
        TagsAfter(db, steps[0], t);
        CrewStays(db, steps[0], w);
        TagsOverRun(mid, steps[1..], w, t);
      }
    }
  }

  /** Between two moments at which task and worker exist, the worker stays able to run the task
      exactly if the last accepted request for other tags, if any, names only tags of the
      worker. Refused requests and changes of the priority do not matter. */
  lemma EligibleRunIff(db: Db, steps: seq<Step>, w: WorkerId, t: TaskId)
    requires Inv(db) && DbLegal(db, steps) && t in db.active && CanRun(db, w, db.active[t])
    requires t in DbRun(db, steps).active && w in DbRun(db, steps).workers
    ensures CanRun(DbRun(db, steps), w, DbRun(db, steps).active[t]) <==> Within(db, w, LastRetag(db, steps, t))
  {
    TagsOverRun(db, steps, w, t);
    TaggedRuns(db, DbRun(db, steps), w, t, LastRetag(db, steps, t));
  }

  /** The claim of a candidate, after any steps since its pop, gives the worker a task it can run
      exactly if the task can still be claimed and the last accepted request for other tags
      since the pop, if any, names only tags of the worker. */
  lemma ClaimEligibleIff(s: State, popped: State, steps: seq<Step>, before: State, w: WorkerId, t: TaskId)
    requires Inv(s.db) && IndexOk(s) && Guard(s, Pop(w, t)) && popped == Apply(s, Pop(w, t))
    requires Legal(popped, steps) && before == Run(popped, steps) && Guard(before, Claim(w, t))
    ensures var db' := Apply(before, Claim(w, t)).db;
      (HeldBy(db', w, t) && CanRun(db', w, db'.active[t])) <==>
      (Claimable(before.db, t) && Within(s.db, w, LastRetag(s.db, steps, t)))
  {
    PoppedEligible(s, w, t);
    TablesOfRun(popped, steps);
    RunKeeps(s.db, steps);
    ClaimedEligible(before.db, w, t);
    if Claimable(before.db, t) { EligibleRunIff(s.db, steps, w, t); }
  }

  lemma PoppedEligible(s: State, w: WorkerId, t: TaskId)
    requires IndexOk(s) && Guard(s, Pop(w, t))
    ensures Apply(s, Pop(w, t)).db == s.db && t in s.db.active && CanRun(s.db, w, s.db.active[t])
  {
    assert EntryOk(s.db, w, t, s.queues[w][t]);
  }

  lemma ClaimedEligible(db: Db, w: WorkerId, t: TaskId)
    requires Holding(db) && w in db.workers && db.workers[w].task.None?
    ensures var db' := ClaimTask(db, w, t);
      && (HeldBy(db', w, t) <==> Claimable(db, t))
      && (Claimable(db, t) ==> (CanRun(db', w, db'.active[t]) <==> CanRun(db, w, db.active[t])))
  {
  }

  /** The race itself: between pop and claim the user gives the candidate a tag the worker
      lacks, and the claim still succeeds. */
  lemma RetaggedClaim(s: State, w: WorkerId, t: TaskId, user: UserId, tag: string)
    requires Idle(s, w) && w in s.queues && IsTop(s.queues[w], t)
    requires Claimable(s.db, t) && MayWrite(s.db, user, s.db.active[t].group)
    requires tag !in s.db.workers[w].tags
    ensures var change := ChangeTask(user, s.db.active[t].uuid, Some({tag}), None, false, true);
      var popped := Apply(s, Pop(w, t));
      var changed := Apply(popped, change);
      var claimed := Apply(changed, Claim(w, t));
      && Guard(s, Pop(w, t)) && Guard(popped, change) && Guard(changed, Claim(w, t))
      && HeldBy(claimed.db, w, t) && !CanRun(claimed.db, w, claimed.db.active[t])
  {
    var change := ChangeTask(user, s.db.active[t].uuid, Some({tag}), None, false, true);
    assert t in ChangeSet(s.db, change);
    assert tag in ApplyChange(s.db, change).active[t].tags;
  }

  /** The other race: the worker is removed between its pop and its claim. The claim is still
      made, and nothing releases the task again. */
  lemma RemovedClaimStrands(s: State, removed: State, w: WorkerId, t: TaskId, after: seq<Step>)
    requires Inv(s.db) && Guard(s, Pop(w, t)) && Claimable(s.db, t)
    requires removed == Apply(Apply(s, Pop(w, t)), RemoveWorker(w))
    requires DbLegal(ClaimTask(removed.db, w, t), after)
    requires forall i :: 0 <= i < |after| && after[i].ForceShutdown? ==> w !in after[i].ws
    ensures Guard(Apply(s, Pop(w, t)), RemoveWorker(w))
    ensures Stranded(DbRun(ClaimTask(removed.db, w, t), after), w, t)
  {
    var db' := EvictAssigned(s.db, {w});
    StepKeeps(s.db, RemoveWorker(w));
    IdleEviction(s.db, w);
    DeadClaimStrands(db', w, t);
    StrandedStays(ClaimTask(db', w, t), after, w, t);
  }

  lemma IdleEviction(db: Db, w: WorkerId)
    requires w in db.workers && db.workers[w].task.None?
    ensures EvictAssigned(db, {w}).active == db.active && w !in EvictAssigned(db, {w}).workers
    ensures EvictAssigned(db, {w}).enrolled == db.enrolled
  {
    assert AssignedTasks(db, {w}) == {};
    assert ReleaseRows(db.active, {}) == db.active;
  }
}
