/** The coordinator and its workers together. Every worker keeps the discipline of its loop,
    every answer is the coordinator's, and other steps come in between, also between the pops
    and claims of a fetch. Then the steps are a legal run of the protocol: what it assumes about
    fetching workers holds, and so does everything proved of its runs. */
module Session {
  import opened Schema
  import opened Tables
  import opened Invariants
  import opened Guarantees
  import opened Discipline
  import opened Dispatcher
  import opened Protocol
  import opened Scheduling
  import opened Dispatching

  /** A fetch the coordinator is working on: the answer the worker is going to see and the
      candidate that was popped and not yet tried. */
  datatype Handler = Handler(seen: FetchAnswer, candidate: Option<TaskId>)

  datatype Scene = Scene(s: State, serving: map<WorkerId, Handler>)

  /** What happens. A worker sends something, which the coordinator may or may not handle; a
      fetch is entered when it is sent, with the answer it will get. The coordinator pops or
      claims a candidate for a fetch, or ends one without a task. Or it takes a step no worker's
      request asked for. */
  datatype Item =
    | Own(w: WorkerId, m: Message, handled: bool)
    | Popping(w: WorkerId, t: TaskId)
    | Claiming(w: WorkerId, t: TaskId)
    | Ending(w: WorkerId)
    | Other(step: Step)

  function StepOf(item: Item): Option<Step> {
    match item
    case Own(w, Tell(t, report, _), handled) => if handled then Some(ReportTask(w, t, report)) else None
    case Own(_, _, _) => None
    case Popping(w, t) => Some(Pop(w, t))
    case Claiming(w, t) => Some(Claim(w, t))
    case Ending(_) => None
    case Other(step) => Some(step)
  }

  /** Fetches in progress. A successful claim ends one; a restart ends all. */
  function ServingAfter(c: Scene, item: Item): map<WorkerId, Handler> {
    match item
    case Own(w, Fetch(seen), handled) => if handled then c.serving[w := Handler(seen, None)] else c.serving
    case Own(_, _, _) => c.serving
    case Popping(w, t) => if w in c.serving then c.serving[w := c.serving[w].(candidate := Some(t))] else c.serving
    case Claiming(w, t) =>
      if w !in c.serving then c.serving
      else if Claimable(c.s.db, t) then c.serving - {w}
      else c.serving[w := c.serving[w].(candidate := None)]
    case Ending(w) => c.serving - {w}
    case Other(step) => if step.Restart? then map[] else c.serving
  }

  ghost function SceneAfter(c: Scene, item: Item): Scene {
    Scene(if StepOf(item).None? then c.s else Apply(c.s, StepOf(item).value), ServingAfter(c, item))
  }

  predicate Foreign(step: Step) {
    !step.Claim? && !step.ReportTask? && !step.Pop?
  }

  predicate Lost(seen: FetchAnswer) {
    seen.Garbled? || seen.FetchBroken?
  }

  /** What the worker sees agrees with what the coordinator does; lost answers leave it open. A
      worker sends nothing while it waits for the answer to a fetch. The coordinator pops the
      top of the worker's queue, tries each candidate before the next one, and ends a fetch
      without a task when the queue is empty. Nothing is said here about what a fetching worker
      holds or about how many of its fetches are in progress. */
  ghost predicate Consistent(c: Scene, item: Item) {
    var db := c.s.db;
    match item
    case Own(w, m, handled) =>
      && (w in c.serving ==> c.serving[w].seen.FetchBroken? || m.TokenCancelled?)
      && (handled ==> w in db.workers)
      && (m.Fetch? ==> Delivered(m.seen, handled))
      && (m.Tell? ==> Answered(db, w, m.t, m.report, m.answer, handled))
    case Popping(w, t) =>
      && w in c.serving && c.serving[w].candidate.None?
      && w in db.workers && w in c.s.queues && IsTop(c.s.queues[w], t)
    case Claiming(w, t) =>
      && w in c.serving && c.serving[w].candidate == Some(t) && w in db.workers
      && (Claimable(db, t) ==> (c.serving[w].seen.Assigned? && c.serving[w].seen.t == t) || Lost(c.serving[w].seen))
    case Ending(w) =>
      && w in c.serving && !c.serving[w].seen.Assigned?
      && (w in db.workers ==> c.serving[w].candidate.None? && (w !in c.s.queues || c.s.queues[w] == map[]))
    case Other(step) =>
      && Foreign(step) && Guard(c.s, step)
      && (step.Restart? ==> forall w :: w in c.serving ==> Lost(c.serving[w].seen))
  }

  predicate Delivered(seen: FetchAnswer, handled: bool) {
    && (seen.Assigned? || seen.Nothing? || seen.Garbled? ==> handled)
    && (seen.FetchUnauthorized? || seen.FetchNoConnection? ==> !handled)
  }

  ghost predicate Answered(db: Db, w: WorkerId, t: TaskId, report: Report, answer: Answer, handled: bool) {
    && (handled && report.Submit? ==> FreshUuid(db, report.uuid))
    && (answer == Success ==> handled && ReportReply(db, w, t, report) == Ok)
    && (answer == Missing ==> handled && ReportReply(db, w, t, report) == NotFound)
    && (answer == Unauthorized || answer == NoConnection ==> !handled)
  }

  ghost function SceneOf(s: State, items: seq<Item>): Scene {
    if items == [] then Scene(s, map[])
    else SceneAfter(SceneOf(s, items[..|items| - 1]), items[|items| - 1])
  }

  ghost predicate Consistently(s: State, items: seq<Item>) {
    items == [] || (Consistently(s, items[..|items| - 1])
                    && Consistent(SceneOf(s, items[..|items| - 1]), items[|items| - 1]))
  }

  /** What one worker sent and was answered. */
  function Sent(items: seq<Item>, w: WorkerId): seq<Message> {
    if items == [] then []
    else
      var last := items[|items| - 1];
      Sent(items[..|items| - 1], w) + (if last.Own? && last.w == w then [last.m] else [])
  }

  function StepsOf(items: seq<Item>): seq<Step> {
    if items == [] then []
    else
      var step := StepOf(items[|items| - 1]);
      StepsOf(items[..|items| - 1]) + (if step.Some? then [step.value] else [])
  }

  // ----- what the worker believes and what the tables say

  /** The worker row names nothing the worker does not know of, and a task it has not announced
      as done is not done. */
  ghost predicate Agrees(db: Db, w: WorkerId, h: Hold) {
    w in db.workers ==>
      match h
      case Nought => db.workers[w].task.None?
      case Has(t, outcome, _, _, _) =>
        db.workers[w].task.None? || (db.workers[w].task == Some(t) && Announced(db, t, outcome))
      case Doubt => true
  }

  ghost predicate Announced(db: Db, t: TaskId, outcome: Option<TaskState>) {
    t in db.active && (db.active[t].state == Running || outcome == Some(db.active[t].state))
  }

  /** Committed tasks that were cancelled say why. */
  ghost predicate Explained(db: Db) {
    forall t :: t in db.archived && db.archived[t].task.state == Cancelled ==>
      db.archived[t].task.result.Some? && db.archived[t].task.result.value.msg.Some?
  }

  /** What a step leaves alone as far as a worker is concerned: its task and that task's state. */
  ghost predicate Spared(db: Db, db': Db, w: WorkerId) {
    w in db'.workers ==>
      && (w !in db.workers ==> db'.workers[w].task.None?)
      && (w in db.workers ==> db'.workers[w].task == db.workers[w].task)
      && (w in db.workers && db.workers[w].task.Some? ==> SameState(db, db', db.workers[w].task.value))
  }

  ghost predicate SameState(db: Db, db': Db, t: TaskId) {
    t in db.active && t in db'.active && db'.active[t].state == db.active[t].state
  }

  lemma SparedAgrees(db: Db, db': Db, w: WorkerId, h: Hold)
    requires Spared(db, db', w) && Agrees(db, w, h)
    ensures Agrees(db', w, h)
  {
  }

  lemma ForeignSpares(db: Db, step: Step, w: WorkerId)
    requires Keyed(db) && Holding(db) && DbGuard(db, step) && Foreign(step)
    ensures Spared(db, DbApply(db, step), w)
  {
    if LeavesWorkers(step) {
      SameWorkers(db, step);
      if w in db.workers && db.workers[w].task.Some? { CallSpares(db, step, db.workers[w].task.value); }
    } else if IsRemoval(step) {
      HeldIsAssigned(db, RemovedBy(step));
      EvictSpares(db, RemovedBy(step), w);
    }
  }

  lemma CallSpares(db: Db, step: Step, t: TaskId)
    requires Keyed(db) && LeavesWorkers(step) && t in db.active && !Cancellable(db.active[t])
    ensures SameState(db, DbApply(db, step), t)
  {
    assert t in Ids(db);
  }

  lemma EvictSpares(db: Db, ws: set<WorkerId>, w: WorkerId)
    requires Holding(db)
    ensures Spared(db, Evict(db, ws), w)
  {
    if w in db.workers && w !in ws && db.workers[w].task.Some? {
      assert db.workers[w].task.value !in HeldTasks(db, ws);
    }
  }

  lemma ClaimSpares(db: Db, v: WorkerId, t: TaskId, w: WorkerId)
    requires Holding(db) && v in db.workers && w != v
    ensures Spared(db, ClaimTask(db, v, t), w)
  {
  }

  lemma ReportSpares(db: Db, v: WorkerId, t: TaskId, report: Report, w: WorkerId)
    requires Keyed(db) && Holding(db) && v in db.workers && w != v
    ensures Spared(db, ApplyReport(db, v, t, report), w)
  {
    ReportWorkers(db, v, t, report);
    if w in db.workers && db.workers[w].task.Some? {
      ReportSparesTask(db, v, t, report, db.workers[w].task.value);
    }
  }

  lemma ReportSparesTask(db: Db, v: WorkerId, t: TaskId, report: Report, k: TaskId)
    requires Keyed(db) && v in db.workers && k in db.active && db.active[k].worker != Some(v)
    requires !Cancellable(db.active[k])
    ensures SameState(db, ApplyReport(db, v, t, report), k)
  {
    assert k in Ids(db);
    if HeldBy(db, v, t) {
      assert k != t;
      if report.Commit? && CommitAccepted(db, v, t) {
        assert ArchiveCommit(db, v, t, report.result).active[k] == db.active[k];
      }
    }
  }

  // ----- the worker's own exchanges

  lemma ClaimAgrees(db: Db, w: WorkerId, t: TaskId)
    requires w in db.workers && Claimable(db, t)
    ensures forall resources, watches :: Agrees(ClaimTask(db, w, t), w, Fetched(t, resources, watches))
    ensures Agrees(ClaimTask(db, w, t), w, Doubt)
  {
  }

  /** What a disciplined report guarantees the coordinator. */
  predicate Tells(h: Hold, report: Report) {
    && h.Has?
    && (report.Finish? ==> h.outcome.None? || h.outcome == Some(Finished))
    && (report.Cancel? ==> h.outcome.None? || h.outcome == Some(Cancelled))
    && (report.Commit? ==> h.outcome.Some? && (h.outcome == Some(Cancelled) ==> report.result.msg.Some?))
  }

  lemma ReportAgrees(db: Db, w: WorkerId, h: Hold, t: TaskId, report: Report, answer: Answer)
    requires Keyed(db) && Holding(db) && w in db.workers && Agrees(db, w, h) && h.Has? && h.t == t
    requires Tells(h, report)
    requires answer == Success ==> ReportReply(db, w, t, report) == Ok
    requires answer == Missing ==> ReportReply(db, w, t, report) == NotFound
    ensures Agrees(ApplyReport(db, w, t, report), w, HoldAfter(h, report, answer))
  {
    if HeldBy(db, w, t) {
      match report
      case Finish =>
      case Cancel =>
      case Submit(_, _, _, _, _, _) => assert t in Ids(db);
      case Commit(_) =>
        ReportWorkers(db, w, t, report);
    }
  }

  /** A report that was not delivered, or one about a task the worker lost, changes no table. */
  lemma UntoldAgrees(db: Db, w: WorkerId, h: Hold, report: Report, answer: Answer)
    requires Agrees(db, w, h) && Tells(h, report)
    requires answer != Success && answer != Missing
    ensures Agrees(db, w, HoldAfter(h, report, answer))
  {
  }

  // ----- messages of cancelled tasks

  lemma CommitExplained(db: Db, w: WorkerId, h: Hold, t: TaskId, res: TaskResultSpec)
    requires Holding(db) && Explained(db) && Agrees(db, w, h) && h.Has? && h.t == t
    requires Tells(h, Commit(res)) && CommitAccepted(db, w, t)
    ensures Explained(Trigger(ArchiveCommit(db, w, t, res), db.active[t].downstream))
  {
    assert db.workers[w].task == Some(t);
  }

  lemma ReportExplained(db: Db, w: WorkerId, h: Hold, t: TaskId, report: Report)
    requires Holding(db) && Explained(db) && Agrees(db, w, h) && h.Has? && h.t == t
    requires Tells(h, report)
    ensures Explained(ApplyReport(db, w, t, report))
  {
    if report.Commit? && CommitAccepted(db, w, t) { CommitExplained(db, w, h, t, report.result); }
  }

  lemma ForeignExplained(db: Db, step: Step)
    requires Explained(db) && Foreign(step)
    ensures Explained(DbApply(db, step))
  {
    if IsCancel(step) {
      CancelExplained(db, CancelSet(db, step));
    } else {
      ForeignArchives(db, step);
    }
  }

  lemma ForeignArchives(db: Db, step: Step)
    requires Foreign(step) && !IsCancel(step)
    ensures DbApply(db, step).archived == db.archived
  {
  }

  lemma CancelExplained(db: Db, ts: set<TaskId>)
    requires Explained(db)
    ensures Explained(CancelRows(db, ts))
  {
  }

  lemma ClaimExplained(db: Db, w: WorkerId, t: TaskId)
    requires Explained(db)
    ensures Explained(ClaimTask(db, w, t))
  {
  }

  lemma OwnExplained(c: Scene, item: Item, h: Hold)
    requires Holding(c.s.db) && Explained(c.s.db) && item.Own? && Agrees(c.s.db, item.w, h)
    requires item.m.Tell? ==> Tells(h, item.m.report) && h.t == item.m.t
    ensures Explained(SceneAfter(c, item).s.db)
  {
    if item.m.Tell? && item.handled { ReportExplained(c.s.db, item.w, h, item.m.t, item.m.report); }
  }

  lemma ItemExplained(c: Scene, item: Item, h: Hold)
    requires Holding(c.s.db) && Explained(c.s.db) && Consistent(c, item)
    requires item.Own? && item.m.Tell? ==> Tells(h, item.m.report) && h.t == item.m.t
    requires item.Own? ==> Agrees(c.s.db, item.w, h)
    ensures Explained(SceneAfter(c, item).s.db)
  {
    match item
    case Own(_, _, _) => OwnExplained(c, item, h);
    case Popping(_, _) =>
    case Claiming(w, t) => ClaimExplained(c.s.db, w, t);
    case Ending(_) =>
    case Other(step) => ForeignExplained(c.s.db, step);
  }

  // ----- one worker, one item

  /** What a worker holds as long as its fetch is in progress. */
  function HoldFor(seen: FetchAnswer): Hold {
    match seen
    case Assigned(t, resources, watches) => Fetched(t, resources, watches)
    case Garbled => Doubt
    case FetchBroken => Doubt
    case _ => Nought
  }

  /** The tables agree with what the worker believes; a fetch in progress is that of an idle
      worker; and the protocol's candidate is the one of that fetch. */
  ghost predicate WorkerOk(c: Scene, w: WorkerId, h: Hold) {
    && Agrees(c.s.db, w, h) && ServedOk(c, w, h) && CandidateOk(c, w)
  }

  ghost predicate ServedOk(c: Scene, w: WorkerId, h: Hold) {
    w in c.serving ==>
      && w in c.s.db.enrolled && h == HoldFor(c.serving[w].seen)
      && (w in c.s.db.workers ==> c.s.db.workers[w].task.None?)
  }

  ghost predicate CandidateOk(c: Scene, w: WorkerId) {
    && (w in c.s.inflight ==> w in c.s.db.enrolled)
    && (w in c.s.db.workers ==> Candidate(c.s.inflight, w) == HandlersCandidate(c, w))
  }

  function Candidate(inflight: Candidates, w: WorkerId): Option<TaskId> {
    if w in inflight then Some(inflight[w]) else None
  }

  function HandlersCandidate(c: Scene, w: WorkerId): Option<TaskId> {
    if w in c.serving then c.serving[w].candidate else None
  }

  /** What an item leaves alone as far as a worker is concerned. */
  ghost predicate Unaffected(c: Scene, c': Scene, w: WorkerId) {
    && Spared(c.s.db, c'.s.db, w) && c.s.db.enrolled.Keys <= c'.s.db.enrolled.Keys
    && (w in c'.serving <==> w in c.serving) && (w in c.serving ==> c'.serving[w] == c.serving[w])
    && (w in c'.s.inflight ==> w in c.s.inflight && c'.s.inflight[w] == c.s.inflight[w])
    && (w in c.s.inflight && w in c'.s.db.workers ==> w in c'.s.inflight)
    && (w in c'.s.db.workers && w !in c.s.db.workers ==> w !in c.s.db.enrolled)
  }

  lemma UnaffectedOk(c: Scene, c': Scene, w: WorkerId, h: Hold)
    requires WorkerOk(c, w, h) && Unaffected(c, c', w)
    ensures WorkerOk(c', w, h)
  {
    SparedAgrees(c.s.db, c'.s.db, w, h);
  }

  /** Steps add workers only under ids never used. */
  lemma NewWorkers(db: Db, step: Step, w: WorkerId)
    requires DbGuard(db, step)
    ensures db.enrolled.Keys <= DbApply(db, step).enrolled.Keys
    ensures w in DbApply(db, step).workers && w !in db.workers ==> w !in db.enrolled
  {
    if w in db.enrolled && w !in db.workers { GoneStep(db, step, w); }
    EnrolledStay(db, step);
  }

  lemma EnrolledStay(db: Db, step: Step)
    ensures db.enrolled.Keys <= DbApply(db, step).enrolled.Keys
  {
    if step.ReportTask? {
      ReportEnrols(db, step.w, step.t, step.report);
    } else if LeavesWorkers(step) {
      CallEnrols(db, step);
    }
  }

  lemma CallEnrols(db: Db, step: Step)
    requires LeavesWorkers(step)
    ensures DbApply(db, step).enrolled == db.enrolled
  {
  }

  lemma ReportEnrols(db: Db, w: WorkerId, t: TaskId, report: Report)
    ensures ApplyReport(db, w, t, report).enrolled == db.enrolled
  {
  }

  lemma StepUnaffected(c: Scene, step: Step, serving: map<WorkerId, Handler>, w: WorkerId)
    requires DbGuard(c.s.db, step) && !step.Restart? && Spared(c.s.db, DbApply(c.s.db, step), w)
    requires (step.Pop? || step.Claim?) ==> step.w != w
    requires (w in serving <==> w in c.serving) && (w in c.serving ==> serving[w] == c.serving[w])
    ensures Unaffected(c, Scene(Apply(c.s, step), serving), w)
  {
    NewWorkers(c.s.db, step, w);
  }

  lemma OthersUnaffected(c: Scene, item: Item, w: WorkerId)
    requires Keyed(c.s.db) && Holding(c.s.db) && Consistent(c, item) && !item.Other? && item.w != w
    requires StepOf(item).Some? ==> DbGuard(c.s.db, StepOf(item).value)
    ensures Unaffected(c, SceneAfter(c, item), w)
  {
    match item
    case Own(v, m, handled) =>
      if m.Tell? && handled {
        ReportSpares(c.s.db, v, m.t, m.report, w);
        StepUnaffected(c, StepOf(item).value, c.serving, w);
      }
    case Popping(v, t) => StepUnaffected(c, Pop(v, t), ServingAfter(c, item), w);
    case Claiming(v, t) =>
      ClaimSpares(c.s.db, v, t, w);
      StepUnaffected(c, Claim(v, t), ServingAfter(c, item), w);
    case Ending(_) =>
  }

  lemma ForeignOk(c: Scene, step: Step, w: WorkerId, h: Hold)
    requires Keyed(c.s.db) && Holding(c.s.db) && Foreign(step) && Guard(c.s, step) && WorkerOk(c, w, h)
    ensures WorkerOk(SceneAfter(c, Other(step)), w, h)
  {
    if step.Restart? {
      RestartOk(c, w, h);
    } else {
      ForeignSpares(c.s.db, step, w);
      StepUnaffected(c, step, c.serving, w);
      UnaffectedOk(c, Scene(Apply(c.s, step), c.serving), w, h);
      OtherScene(c, step);
    }
  }

  lemma OtherScene(c: Scene, step: Step)
    ensures SceneAfter(c, Other(step)) == Scene(Apply(c.s, step), if step.Restart? then map[] else c.serving)
  {
  }

  lemma RestartOk(c: Scene, w: WorkerId, h: Hold)
    requires WorkerOk(c, w, h)
    ensures WorkerOk(SceneAfter(c, Other(Restart)), w, h)
  {
    assert SceneAfter(c, Other(Restart)).s.db == c.s.db;
  }

  /** A worker whose fetch is in progress may send nothing but the note that it was cancelled. */
  lemma ServedIsSilent(c: Scene, w: WorkerId, v: Discipline.View, m: Message, handled: bool)
    requires WorkerOk(c, w, v.hold) && Consistent(c, Own(w, m, handled)) && May(v, m) && !m.TokenCancelled?
    ensures w !in c.serving
  {
  }

  lemma AskOk(c: Scene, w: WorkerId, v: Discipline.View, seen: FetchAnswer, handled: bool)
    requires Keyed(c.s.db) && WorkerOk(c, w, v.hold) && Consistent(c, Own(w, Fetch(seen), handled))
    requires May(v, Fetch(seen))
    ensures WorkerOk(SceneAfter(c, Own(w, Fetch(seen), handled)), w, Next(v, Fetch(seen)).hold)
  {
    ServedIsSilent(c, w, v, Fetch(seen), handled);
  }

  lemma TellOk(c: Scene, w: WorkerId, v: Discipline.View, m: Message, handled: bool)
    requires Keyed(c.s.db) && Holding(c.s.db) && WorkerOk(c, w, v.hold) && m.Tell?
    requires Consistent(c, Own(w, m, handled)) && May(v, m)
    ensures WorkerOk(SceneAfter(c, Own(w, m, handled)), w, Next(v, m).hold)
  {
    ServedIsSilent(c, w, v, m, handled);
    if handled {
      ReportAgrees(c.s.db, w, v.hold, m.t, m.report, m.answer);
      NewWorkers(c.s.db, ReportTask(w, m.t, m.report), w);
    } else {
      UntoldAgrees(c.s.db, w, v.hold, m.report, m.answer);
    }
  }

  lemma OwnOk(c: Scene, item: Item, v: Discipline.View)
    requires Keyed(c.s.db) && Holding(c.s.db) && item.Own? && Consistent(c, item)
    requires WorkerOk(c, item.w, v.hold) && May(v, item.m)
    ensures WorkerOk(SceneAfter(c, item), item.w, Next(v, item.m).hold)
  {
    match item.m
    case Fetch(seen) => AskOk(c, item.w, v, seen, item.handled);
    case Tell(_, _, _) => TellOk(c, item.w, v, item.m, item.handled);
    case Upload(_, _, _) =>
    case Local(_, _) =>
    case Cleaned(_) =>
    case TokenCancelled(_) =>
  }

  lemma PopOk(c: Scene, w: WorkerId, t: TaskId, h: Hold)
    requires WorkerOk(c, w, h) && Consistent(c, Popping(w, t))
    ensures Guard(c.s, Pop(w, t)) && WorkerOk(SceneAfter(c, Popping(w, t)), w, h)
  {
  }

  lemma ClaimOk(c: Scene, w: WorkerId, t: TaskId, h: Hold)
    requires Keyed(c.s.db) && WorkerOk(c, w, h) && Consistent(c, Claiming(w, t))
    ensures Guard(c.s, Claim(w, t)) && WorkerOk(SceneAfter(c, Claiming(w, t)), w, h)
  {
    if Claimable(c.s.db, t) { ClaimAgrees(c.s.db, w, t); }
  }

  lemma EndOk(c: Scene, w: WorkerId, h: Hold)
    requires WorkerOk(c, w, h) && Consistent(c, Ending(w))
    ensures WorkerOk(SceneAfter(c, Ending(w)), w, h)
  {
  }

  // ----- whole sessions

  ghost predicate AllDisciplined(items: seq<Item>) {
    forall w :: Disciplined(Sent(items, w))
  }

  function HoldOf(items: seq<Item>, w: WorkerId): Hold {
    ViewOf(Sent(items, w)).hold
  }

  ghost predicate AllOk(c: Scene, items: seq<Item>) {
    forall w :: WorkerOk(c, w, HoldOf(items, w))
  }

  lemma SentNext(items: seq<Item>, w: WorkerId)
    requires items != [] && Disciplined(Sent(items, w))
    ensures var before, last := items[..|items| - 1], items[|items| - 1];
      && Disciplined(Sent(before, w))
      && (if last.Own? && last.w == w
          then May(ViewOf(Sent(before, w)), last.m) && ViewOf(Sent(items, w)) == Next(ViewOf(Sent(before, w)), last.m)
          else Sent(items, w) == Sent(before, w))
  {
    var before, last := items[..|items| - 1], items[|items| - 1];
    if last.Own? && last.w == w {
      var log := Sent(before, w);
      assert Sent(items, w) == log + [last.m] && (log + [last.m])[..|log|] == log;
    } else {
      assert Sent(before, w) + [] == Sent(before, w);
    }
  }

  lemma BeforeDisciplined(items: seq<Item>)
    requires items != [] && AllDisciplined(items)
    ensures AllDisciplined(items[..|items| - 1])
  {
    var before := items[..|items| - 1];
    forall w ensures Disciplined(Sent(before, w)) {
      SentNext(items, w);
    }
  }

  /** The step an item causes is one the protocol allows. */
  lemma ItemGuarded(c: Scene, items: seq<Item>)
    requires items != [] && AllOk(c, items[..|items| - 1]) && Consistent(c, items[|items| - 1])
    ensures StepOf(items[|items| - 1]).Some? ==> Guard(c.s, StepOf(items[|items| - 1]).value)
  {
    var before, last := items[..|items| - 1], items[|items| - 1];
    match last
    case Popping(w, t) => PopOk(c, w, t, HoldOf(before, w));
    case Claiming(w, t) => assert WorkerOk(c, w, HoldOf(before, w));
    case Own(_, _, _) =>
    case Ending(_) =>
    case Other(_) =>
  }

  lemma ItemOk(c: Scene, items: seq<Item>, w: WorkerId)
    requires items != [] && Keyed(c.s.db) && Holding(c.s.db) && Consistent(c, items[|items| - 1])
    requires Disciplined(Sent(items, w)) && WorkerOk(c, w, HoldOf(items[..|items| - 1], w))
    requires StepOf(items[|items| - 1]).Some? ==> Guard(c.s, StepOf(items[|items| - 1]).value)
    ensures WorkerOk(SceneAfter(c, items[|items| - 1]), w, HoldOf(items, w))
  {
    var before, last := items[..|items| - 1], items[|items| - 1];
    SentNext(items, w);
    if last.Other? {
      ForeignOk(c, last.step, w, HoldOf(before, w));
    } else if last.w != w {
      OthersUnaffected(c, last, w);
      UnaffectedOk(c, SceneAfter(c, last), w, HoldOf(before, w));
    } else {
      match last
      case Own(_, _, _) => OwnOk(c, last, ViewOf(Sent(before, w)));
      case Popping(_, t) => PopOk(c, w, t, HoldOf(before, w));
      case Claiming(_, t) => ClaimOk(c, w, t, HoldOf(before, w));
      case Ending(_) => EndOk(c, w, HoldOf(before, w));
    }
  }

  lemma StartOk(s: State)
    requires Start(s)
    ensures AllOk(Scene(s, map[]), []) && Explained(s.db)
  {
  }

  /** The steps of a session are a legal run of the whole protocol, queues and candidates
      included: nothing has to be assumed about who fetches, or when. */
  lemma {:induction false} SessionIsLegal(s: State, items: seq<Item>)
    requires Start(s) && Consistently(s, items) && AllDisciplined(items)
    ensures Legal(s, StepsOf(items)) && Run(s, StepsOf(items)) == SceneOf(s, items).s
    ensures Sound(SceneOf(s, items).s)
    ensures AllOk(SceneOf(s, items), items) && Explained(SceneOf(s, items).s.db)
    decreases |items|
  {
    if items == [] {
      StartOk(s);
      ReachableSound(s, []);
    } else {
      BeforeDisciplined(items);
      SessionIsLegal(s, items[..|items| - 1]);
      LastItem(s, items);
      LastStep(s, items);
      ReachableSound(s, StepsOf(items));
    }
  }

  lemma LastItem(s: State, items: seq<Item>)
    requires items != [] && AllDisciplined(items)
    requires var before := items[..|items| - 1];
      var c := SceneOf(s, before);
      && Consistent(c, items[|items| - 1]) && Keyed(c.s.db) && Holding(c.s.db)
      && AllOk(c, before) && Explained(c.s.db)
    ensures AllOk(SceneOf(s, items), items) && Explained(SceneOf(s, items).s.db)
    ensures var step := StepOf(items[|items| - 1]);
      step.Some? ==> Guard(SceneOf(s, items[..|items| - 1]).s, step.value)
  {
    var before, last := items[..|items| - 1], items[|items| - 1];
    var c := SceneOf(s, before);
    ItemGuarded(c, items);
    forall w ensures WorkerOk(SceneOf(s, items), w, HoldOf(items, w)) {
      ItemOk(c, items, w);
    }
    if last.Own? {
      SentNext(items, last.w);
      ItemExplained(c, last, HoldOf(before, last.w));
    } else {
      ItemExplained(c, last, Nought);
    }
  }

  lemma LastStep(s: State, items: seq<Item>)
    requires items != []
    requires var before := items[..|items| - 1];
      var mid, step := SceneOf(s, before).s, StepOf(items[|items| - 1]);
      && Legal(s, StepsOf(before)) && Run(s, StepsOf(before)) == mid && (step.Some? ==> Guard(mid, step.value))
    ensures Legal(s, StepsOf(items)) && Run(s, StepsOf(items)) == SceneOf(s, items).s
  {
    var before, step := items[..|items| - 1], StepOf(items[|items| - 1]);
    if step.Some? {
      OneStep(SceneOf(s, before).s, step.value);
      RunAppend(s, StepsOf(before), [step.value]);
    } else {
      assert StepsOf(before) + [] == StepsOf(before);
    }
  }

  lemma OneStep(s: State, step: Step)
    requires Guard(s, step)
    ensures Legal(s, [step]) && Run(s, [step]) == Apply(s, step)
  {
    assert [step][1..] == [];
    assert Legal(Apply(s, step), []) && Run(Apply(s, step), []) == Apply(s, step);
  }

  lemma {:induction false} SessionPrefix(s: State, items: seq<Item>, n: nat)
    requires Consistently(s, items) && AllDisciplined(items) && n <= |items|
    ensures Consistently(s, items[..n]) && AllDisciplined(items[..n])
    ensures n < |items| ==> Consistent(SceneOf(s, items[..n]), items[n])
    decreases |items| - n
  {
    if n == |items| {
      assert items[..n] == items;
    } else {
      SessionPrefix(s, items, n + 1);
      assert items[..n + 1][..n] == items[..n];
      BeforeDisciplined(items[..n + 1]);
    }
  }

  /** In every session a live worker that sends a fetch is idle: it holds no task and no earlier
      fetch of it is in progress. */
  lemma FetchersAreIdle(s: State, items: seq<Item>, k: nat)
    requires Start(s) && Consistently(s, items) && AllDisciplined(items)
    requires k < |items| && items[k].Own? && items[k].m.Fetch?
    ensures var c := SceneOf(s, items[..k]);
      && items[k].w !in c.serving && (items[k].w in c.s.db.workers ==> Idle(c.s, items[k].w))
      && forall t :: !HeldBy(c.s.db, items[k].w, t)
  {
    var w := items[k].w;
    SessionPrefix(s, items, k);
    SessionIsLegal(s, items[..k]);
    SendsAllowed(s, items, k);
    var c := SceneOf(s, items[..k]);
    assert WorkerOk(c, w, HoldOf(items[..k], w));
    AskerIdle(c, items[k], ViewOf(Sent(items[..k], w)));
  }

  lemma SendsAllowed(s: State, items: seq<Item>, k: nat)
    requires Consistently(s, items) && AllDisciplined(items) && k < |items| && items[k].Own?
    ensures May(ViewOf(Sent(items[..k], items[k].w)), items[k].m)
  {
    SessionPrefix(s, items, k + 1);
    var upto := items[..k + 1];
    assert upto[..|upto| - 1] == items[..k] && upto[|upto| - 1] == items[k];
    SentNext(upto, items[k].w);
  }

  lemma AskerIdle(c: Scene, item: Item, v: Discipline.View)
    requires item.Own? && item.m.Fetch? && Consistent(c, item) && May(v, item.m)
    requires Holding(c.s.db) && WorkerOk(c, item.w, v.hold)
    ensures item.w !in c.serving && (item.w in c.s.db.workers ==> Idle(c.s, item.w))
    ensures forall t :: !HeldBy(c.s.db, item.w, t)
  {
    ServedIsSilent(c, item.w, v, item.m, item.handled);
  }

  /** In every session no Ready task is lost, whatever happens between pops and claims. */
  lemma SessionLosesNothing(s: State, items: seq<Item>, w: WorkerId, t: TaskId)
    requires Start(s) && Consistently(s, items) && AllDisciplined(items)
    requires ReadyFor(SceneOf(s, items).s.db, w, t)
    ensures Waiting(SceneOf(s, items).s.queues, SceneOf(s, items).s.inflight, w, t)
  {
    SessionIsLegal(s, items);
    NoReadyTaskLost(s, StepsOf(items), w, t);
  }

  /** In every session the fetch of a worker that may fetch answers the query on the tables. */
  lemma SessionFetchAnswers(s: State, items: seq<Item>, w: WorkerId, picks: seq<TaskId>)
    requires Start(s) && Consistently(s, items) && AllDisciplined(items)
    requires var c := SceneOf(s, items);
      && w in c.s.db.workers && w !in c.serving && HoldOf(items, w) == Nought
      && Legal(c.s, FetchSteps(w, picks))
      && forall i :: 0 <= i < |picks| - 1 ==> !Claimable(c.s.db, picks[i])
    ensures var c := SceneOf(s, items);
      Idle(c.s, w) && Answers(c.s.db, w, picks, Run(c.s, FetchSteps(w, picks)))
  {
    SessionIsLegal(s, items);
    var c := SceneOf(s, items);
    assert WorkerOk(c, w, HoldOf(items, w));
    FetchInEveryRun(s, StepsOf(items), w, picks);
  }

  /** In every session an eviction by timeout is late. */
  lemma SessionEvictsLate(s: State, items: seq<Item>, w: WorkerId)
    requires Start(s) && Consistently(s, items) && AllDisciplined(items)
    requires Guard(SceneOf(s, items).s, Expire(w))
    ensures var s' := SceneOf(s, items).s; w in s'.heard && s'.heard[w] + s'.timeout <= s'.now
  {
    SessionIsLegal(s, items);
    EvictionIsLate(s, StepsOf(items), SceneOf(s, items).s, w);
  }

  // ----- from the event on the worker to the archived row

  /** What a fate looks like in the archive. */
  predicate Bears(fate: Fate, state: TaskState, result: Option<TaskResultSpec>) {
    && result.Some?
    && match fate
       case Ended(exitStatus) => state == Finished && result.value.exitStatus == exitStatus
       case Overrunning => false
       case Overran(exitStatus) =>
         state == Cancelled && result.value.exitStatus == exitStatus && result.value.msg.Some?
       case Abandoned(reason) => state == Cancelled && result.value == TaskResultSpec(0, Some(reason))
  }

  /** Some worker observed what the archived row says. */
  ghost predicate Borne(items: seq<Item>, t: TaskId, row: Task) {
    exists i: nat, fate :: Observes(items, i, t, fate) && Bears(fate, row.state, row.result)
  }

  predicate Observes(items: seq<Item>, i: nat, t: TaskId, fate: Fate) {
    i < |items| && items[i].Own? && Decides(items[i].m, t, fate)
  }

  ghost predicate AllBorne(db: Db, items: seq<Item>) {
    forall t :: t in db.archived && db.archived[t].reporter.Some? ==> Borne(items, t, db.archived[t].task)
  }

  lemma BorneStays(before: seq<Item>, items: seq<Item>, t: TaskId, row: Task)
    requires before <= items && Borne(before, t, row)
    ensures Borne(items, t, row)
  {
    var i: nat, fate :| Observes(before, i, t, fate) && Bears(fate, row.state, row.result);
    assert Observes(items, i, t, fate);
  }

  /** A disciplined worker has seen the fate of the task it holds, and announced accordingly. */
  lemma {:induction false} FateSeen(log: seq<Message>)
    requires Disciplined(log)
    ensures var h := ViewOf(log).hold;
      h.Has? && h.work.fate.Some? ==> exists k | 0 <= k < |log| :: Decides(log[k], h.t, h.work.fate.value)
    decreases |log|
  {
    if log != [] {
      var before, m := log[..|log| - 1], log[|log| - 1];
      FateSeen(before);
      var v := ViewOf(before);
      if v.hold.Has? && Discipline.Next(v, m).hold.Has? {
        StaysWith(v, m, v.hold.t);
        FateStep(v.hold, m, v.hold.t);
      }
    }
  }

  predicate Matches(h: Hold) {
    h.Has? && h.outcome.Some? ==>
      && h.work.fate.Some? && (h.outcome == Some(Finished) || h.outcome == Some(Cancelled))
      && (h.outcome == Some(Finished) <==> h.work.fate.value.Ended?)
      && (h.outcome == Some(Cancelled) <==> h.work.fate.value.Overran? || h.work.fate.value.Abandoned?)
  }

  lemma {:induction false} OutcomeMatches(log: seq<Message>)
    requires Disciplined(log)
    ensures Matches(ViewOf(log).hold)
    decreases |log|
  {
    if log != [] {
      OutcomeMatches(log[..|log| - 1]);
      MatchesNext(ViewOf(log[..|log| - 1]), log[|log| - 1]);
    }
  }

  lemma MatchesNext(v: Discipline.View, m: Message)
    requires May(v, m) && Matches(v.hold)
    ensures Matches(Discipline.Next(v, m).hold)
  {
    if m.Local? { MatchesObserved(v, m.o); }
  }

  lemma MatchesObserved(v: Discipline.View, o: Observation)
    requires v.hold.Has? && MayObserve(v, o) && Matches(v.hold)
    ensures Matches(v.hold.(work := WorkAfter(v.hold.work, o)))
  {
  }

  lemma {:induction false} SentComes(items: seq<Item>, w: WorkerId, k: nat)
    requires k < |Sent(items, w)|
    ensures exists i: nat :: i < |items| && items[i].Own? && items[i].m == Sent(items, w)[k]
    decreases |items|
  {
    var before, last := items[..|items| - 1], items[|items| - 1];
    if k < |Sent(before, w)| {
      SentComes(before, w, k);
      var i: nat :| i < |before| && before[i].Own? && before[i].m == Sent(before, w)[k];
      assert items[i] == before[i];
    } else {
      assert items[|items| - 1].m == Sent(items, w)[k];
    }
  }

  /** The row an accepted commit archives bears what the worker observed. */
  lemma CommitBorne(c: Scene, before: seq<Item>, w: WorkerId, t: TaskId, res: TaskResultSpec)
    requires Holding(c.s.db) && Disciplined(Sent(before, w)) && Agrees(c.s.db, w, HoldOf(before, w))
    requires May(ViewOf(Sent(before, w)), Tell(t, Commit(res), Success)) && CommitAccepted(c.s.db, w, t)
    ensures Borne(before, t, c.s.db.active[t].(result := Some(res)))
  {
    var log, h := Sent(before, w), HoldOf(before, w);
    FateSeen(log);
    OutcomeMatches(log);
    var fate := h.work.fate.value;
    var k :| 0 <= k < |log| && Decides(log[k], t, fate);
    SentComes(before, w, k);
    var i: nat :| i < |before| && before[i].Own? && before[i].m == log[k];
    assert Observes(before, i, t, fate);
    assert c.s.db.workers[w].task == Some(t);
    assert Bears(fate, c.s.db.active[t].state, Some(res));
  }

  /** What an item adds to the archive as reported: the row of a commit. */
  lemma ArchiveGrows(c: Scene, item: Item, t: TaskId)
    requires Keyed(c.s.db) && Consistent(c, item)
    requires var db' := SceneAfter(c, item).s.db; t in db'.archived && db'.archived[t].reporter.Some?
    ensures var db, db' := c.s.db, SceneAfter(c, item).s.db;
      || (t in db.archived && db'.archived[t] == db.archived[t])
      || (item.Own? && item.handled && item.m.Tell? && item.m.t == t && item.m.report.Commit?
          && CommitAccepted(db, item.w, t)
          && db'.archived[t].task == db.active[t].(result := Some(item.m.report.result)))
  {
    match item
    case Own(w, m, handled) => if m.Tell? && handled { ReportArchives(c.s.db, w, m.t, m.report, t); }
    case Popping(_, _) =>
    case Claiming(w, k) => assert ClaimTask(c.s.db, w, k).archived == c.s.db.archived;
    case Ending(_) =>
    case Other(step) => OtherArchives(c.s.db, step, t);
  }

  /** Other steps archive only tasks cancelled by a user. */
  lemma OtherArchives(db: Db, step: Step, t: TaskId)
    requires Keyed(db) && Foreign(step)
    requires t in DbApply(db, step).archived && DbApply(db, step).archived[t].reporter.Some?
    ensures t in db.archived && DbApply(db, step).archived[t] == db.archived[t]
  {
    if !IsCancel(step) { ForeignArchives(db, step); }
  }

  lemma ReportArchives(db: Db, w: WorkerId, k: TaskId, report: Report, t: TaskId)
    requires t in ApplyReport(db, w, k, report).archived
    ensures var db' := ApplyReport(db, w, k, report);
      || (t in db.archived && db'.archived[t] == db.archived[t])
      || (t == k && report.Commit? && CommitAccepted(db, w, t)
          && db'.archived[t].task == db.active[t].(result := Some(report.result)))
  {
  }

  lemma ItemBorne(c: Scene, items: seq<Item>)
    requires items != [] && AllDisciplined(items) && Keyed(c.s.db) && Holding(c.s.db)
    requires Consistent(c, items[|items| - 1])
    requires AllOk(c, items[..|items| - 1]) && AllBorne(c.s.db, items[..|items| - 1])
    ensures AllBorne(SceneAfter(c, items[|items| - 1]).s.db, items)
  {
    var before, last := items[..|items| - 1], items[|items| - 1];
    var db' := SceneAfter(c, last).s.db;
    forall t | t in db'.archived && db'.archived[t].reporter.Some? ensures Borne(items, t, db'.archived[t].task) {
      ArchiveGrows(c, last, t);
      if !(t in c.s.db.archived && db'.archived[t] == c.s.db.archived[t]) {
        SentNext(items, last.w);
        assert WorkerOk(c, last.w, HoldOf(before, last.w));
        CommitBorne(c, before, last.w, t, last.m.report.result);
      }
      BorneStays(before, items, t, db'.archived[t].task);
    }
  }

  /** End to end: in every session a reported task in the archive says what a worker observed. It
      is Finished with the exit status with which its command ended; or Cancelled with that of the
      command stopped after its timeout, or with the reason for which it was given up. */
  lemma {:induction false} ArchiveIsTrue(s: State, items: seq<Item>)
    requires Start(s) && Consistently(s, items) && AllDisciplined(items)
    ensures AllBorne(SceneOf(s, items).s.db, items)
    decreases |items|
  {
    if items != [] {
      var before := items[..|items| - 1];
      BeforeDisciplined(items);
      ArchiveIsTrue(s, before);
      SessionIsLegal(s, before);
      ItemBorne(SceneOf(s, before), items);
    }
  }
}
