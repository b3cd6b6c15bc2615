/** What a worker may send, given what it sent and was answered before. */
module Discipline {
  import opened Schema

  /** How an HTTP exchange ends. A connection error means the request was not delivered; after
      any other transport error the worker cannot know whether it was. */
  datatype Answer = Success | Unauthorized | Missing | Denied | Refused | NoConnection | Broken

  /** How a fetch ends. A task comes with the number of resources it needs and whether it waits
      for another task; `Garbled` is a success whose body cannot be parsed. */
  datatype FetchAnswer =
    | Assigned(t: TaskId, resources: nat, watches: bool)
    | Nothing
    | Garbled
    | FetchUnauthorized
    | FetchRefused
    | FetchNoConnection
    | FetchBroken

  /** How waiting ends: the awaited thing is done or failed, the token was cancelled, or a
      timeout fired. */
  datatype Wait = Completed | Failed | Interrupted | TimedOut

  /** What a task left in the place for a follow-up task: nothing or an empty file, a file that
      cannot be read or parsed, or a request. */
  datatype NewTask = NoFile | Unreadable | Wants(report: Report)

  /** What the worker observes about a task while it works on it. */
  datatype Observation =
    | Info(answer: Answer, bodyOk: bool)
    | InfoPause(wait: Wait)
    | Download(wait: Wait)
    | Watch(wait: Wait)
    | Spawn(wait: Wait)
    | End(wait: Wait, exitStatus: int, ok: bool)
    | Stop(wait: Wait, exitStatus: int, ok: bool)
    | Archive(wait: Wait)
    | Put(wait: Wait, ok: bool)
    | UploadPause(wait: Wait)
    | Join(wait: Wait)
    | File(next: NewTask)

  /** The log of a worker: what it sends with the answer it gets, what it observes, and when its
      token is cancelled, by itself or by others. */
  datatype Message =
    | Fetch(seen: FetchAnswer)
    | Tell(t: TaskId, report: Report, answer: Answer)
    | Upload(t: TaskId, answer: Answer, bodyOk: bool)
    | Local(t: TaskId, o: Observation)
    | Cleaned(ok: bool)
    | TokenCancelled(mine: bool)

  /** How the work on a task came out: its command ended, is being stopped or was stopped after a
      timeout, or the worker gave the task up. */
  datatype Fate =
    | Ended(exitStatus: int)
    | Overrunning
    | Overran(exitStatus: int)
    | Abandoned(reason: TaskResultMessage)

  /** Uploads: no archive is waiting, one needs a link, one has its link; all are through; or
      the time for uploads is over. */
  datatype UploadState = Open | Asked | Granted | Closed | Late

  /** How far the work on a task has come. `next` is what was found in the place for a follow-up
      task, `handed` whether its submission was delivered, `refused` whether it failed. */
  datatype Work = Work(
    resources: nat,
    watches: bool,
    fate: Option<Fate>,
    uploads: UploadState,
    joined: bool,
    next: Option<NewTask>,
    handed: bool,
    refused: bool)

  /** What the worker may be holding: nothing; a task, with the outcome it has announced or
      tried to announce, whether such an announcement was delivered, whether a follow-up task
      was submitted, and how far the work has come; or something it cannot tell. */
  datatype Hold =
    | Nought
    | Has(t: TaskId, outcome: Option<TaskState>, told: bool, followed: bool, work: Work)
    | Doubt

  /** A task just fetched. */
  function Fetched(t: TaskId, resources: nat, watches: bool): Hold {
    Has(t, None, false, false, Work(resources, watches, None, Open, false, None, false, false))
  }

  /** `trouble`: something went wrong that ends the loop. `unwelcome`: the coordinator does not
      know the worker any more. */
  datatype View = View(hold: Hold, stopped: bool, trouble: bool, unwelcome: bool)

  function Next(v: View, m: Message): View {
    View(NextHold(v.hold, m), v.stopped || m.TokenCancelled?, v.trouble || Troubles(m), v.unwelcome || Unwelcomes(m))
  }

  function NextHold(h: Hold, m: Message): Hold {
    match m
    case Fetch(seen) =>
      (match seen
       case Assigned(t, resources, watches) => Fetched(t, resources, watches)
       case Garbled => Doubt
       case FetchBroken => Doubt
       case _ => h)
    case Tell(t, report, answer) => if h.Has? && h.t == t then HoldAfter(h, report, answer) else h
    case Upload(t, answer, bodyOk) =>
      if h.Has? && h.t == t then h.(work := h.work.(uploads := UploadsAfter(h.work.uploads, answer, bodyOk))) else h
    case Local(t, o) => if h.Has? && h.t == t then h.(work := WorkAfter(h.work, o)) else h
    case Cleaned(_) => h
    case TokenCancelled(_) => h
  }

  function HoldAfter(h: Hold, report: Report, answer: Answer): Hold
    requires h.Has?
  {
    match report
    case Finish => h.(outcome := Some(Finished), told := answer != NoConnection)
    case Cancel => h.(outcome := Some(Cancelled), told := answer != NoConnection)
    case Submit(_, _, _, _, _, _) =>
      h.(followed := true,
         work := h.work.(handed := answer != NoConnection, refused := h.work.refused || Fails(answer)))
    case Commit(_) => if answer == Success || answer == Missing then Nought else h
  }

  predicate Fails(answer: Answer) {
    answer == Denied || answer == Refused || answer == Broken
  }

  function UploadsAfter(u: UploadState, answer: Answer, bodyOk: bool): UploadState {
    match answer
    case Success => if bodyOk then Granted else u
    case Unauthorized => Closed
    case Missing => Closed
    case Denied => Closed
    case _ => u
  }

  function Settle(work: Work, fate: Fate): Work {
    if work.fate.None? then work.(fate := Some(fate)) else work
  }

  function WorkAfter(work: Work, o: Observation): Work {
    match o
    case Info(answer, _) =>
      if answer == Missing then Settle(work, Abandoned(ResourceNotFound))
      else if answer == Denied then Settle(work, Abandoned(ResourceForbidden))
      else work
    case InfoPause(wait) => if wait == TimedOut then Settle(work, Abandoned(FetchResourceTimeout)) else work
    case Download(wait) =>
      (match wait
       case Completed => if work.resources > 0 then work.(resources := work.resources - 1) else work
       case Failed => Settle(work, Abandoned(ResourceForbidden))
       case Interrupted => work
       case TimedOut => Settle(work, Abandoned(FetchResourceTimeout)))
    case Watch(wait) =>
      (match wait
       case Completed => work.(watches := false)
       case Failed => work.(watches := false)
       case Interrupted => work
       case TimedOut => Settle(work, Abandoned(WatchTimeout)))
    case Spawn(_) => work
    case End(wait, exitStatus, _) =>
      if wait == Completed then Settle(work, Ended(exitStatus))
      else if wait == TimedOut then Settle(work, Overrunning)
      else work
    case Stop(wait, exitStatus, ok) =>
      if work.fate == Some(Overrunning) && ok && wait != Interrupted then work.(fate := Some(Overran(exitStatus)))
      else work
    case Archive(wait) =>
      work.(uploads := if wait == Failed then Closed else if wait == TimedOut then Late else Asked)
    case Put(wait, ok) =>
      if ok && wait == Completed then work.(uploads := Open)
      else if ok && wait == TimedOut then work.(uploads := Late)
      else work
    case UploadPause(wait) => if wait == TimedOut then work.(uploads := Late) else work
    case Join(wait) => if wait == Failed then work else work.(joined := true)
    case File(next) => work.(next := Some(next))
  }

  /** Errors after which the loop stops. A refused submission is not one. */
  predicate Troubles(m: Message) {
    match m
    case Fetch(seen) => seen.Garbled? || seen.FetchRefused? || seen.FetchBroken?
    case Tell(_, report, answer) => !report.Submit? && Fails(answer)
    case Upload(_, answer, bodyOk) => answer == Refused || answer == Broken || (answer == Success && !bodyOk)
    case Local(_, o) =>
      (match o
       case Info(answer, bodyOk) =>
         answer == Unauthorized || answer == Refused || answer == Broken || (answer == Success && !bodyOk)
       case Spawn(wait) => wait == Failed
       case End(wait, _, ok) => wait == Failed || (wait == Interrupted && !ok)
       case Stop(_, _, ok) => !ok
       case Put(_, ok) => !ok
       case Join(wait) => wait == Failed
       case _ => false)
    case Cleaned(ok) => !ok
    case TokenCancelled(_) => false
  }

  predicate Unwelcomes(m: Message) {
    match m
    case Fetch(seen) => seen.FetchUnauthorized?
    case Tell(_, _, answer) => answer == Unauthorized
    case Upload(_, answer, _) => answer == Unauthorized
    case _ => false
  }

  /** A fetch only with empty hands and before the token is cancelled. All resources, then the
      watched task, then the command. A task is announced as finished exactly if its command
      ended, and as cancelled if it was stopped or the task given up, not again once that was
      delivered. Then come its uploads, then the follow-up task it asked for, then the commit
      with the result that is due. The worker cancels its token only for a reason. */
  predicate May(v: View, m: Message) {
    match m
    case Fetch(_) => v.hold == Nought && !v.stopped
    case Tell(t, report, _) => v.hold.Has? && v.hold.t == t && MayTell(v, report)
    case Upload(t, _, _) =>
      v.hold.Has? && v.hold.t == t && v.hold.outcome.Some? && !v.hold.followed && v.hold.work.uploads == Asked
    case Local(t, o) => v.hold.Has? && v.hold.t == t && MayObserve(v, o)
    case Cleaned(_) => v.hold != Doubt
    case TokenCancelled(mine) => mine ==> v.trouble || v.unwelcome
  }

  predicate MayTell(v: View, report: Report)
    requires v.hold.Has?
  {
    var h := v.hold;
    match report
    case Finish =>
      && !h.told && !h.followed && (h.outcome.None? || h.outcome == Some(Finished))
      && h.work.fate.Some? && h.work.fate.value.Ended?
    case Cancel =>
      && !h.told && !h.followed && (h.outcome.None? || h.outcome == Some(Cancelled))
      && h.work.fate.Some? && (h.work.fate.value.Overran? || h.work.fate.value.Abandoned?)
    case Submit(_, _, _, _, _, _) =>
      h.outcome.Some? && h.work.next == Some(Wants(report)) && !h.work.handed
    case Commit(res) =>
      h.outcome.Some? && (h.told || v.stopped) && Due(v) && res == Verdict(h.work)
      && (h.outcome == Some(Cancelled) ==> res.msg.Some?)
  }

  /** The task is ready to be committed: it was given up, the time for uploads is over, or the
      uploads are through and the follow-up task was seen to. */
  predicate Due(v: View)
    requires v.hold.Has?
  {
    var work := v.hold.work;
    && work.fate.Some? && !work.fate.value.Overrunning?
    && (!work.fate.value.Abandoned? && work.uploads != Late ==>
          && work.uploads == Closed && work.joined && work.next.Some?
          && (work.next.value.Wants? ==> work.handed || v.stopped))
  }

  /** The result that is due. */
  function Verdict(work: Work): TaskResultSpec {
    match work.fate
    case Some(Ended(exitStatus)) =>
      TaskResultSpec(exitStatus,
        if work.uploads == Late then Some(UploadResultTimeout)
        else if work.next == Some(Unreadable) || work.refused then Some(SubmitNewTaskFailed)
        else None)
    case Some(Overran(exitStatus)) =>
      TaskResultSpec(exitStatus, Some(if work.uploads == Late then UploadResultTimeout else ExecTimeout))
    case Some(Abandoned(reason)) => TaskResultSpec(0, Some(reason))
    case _ => TaskResultSpec(0, None)
  }

  predicate MayObserve(v: View, o: Observation)
    requires v.hold.Has?
  {
    var h, work := v.hold, v.hold.work;
    match o
    case Info(_, _) => work.fate.None? && work.resources > 0
    case InfoPause(_) => work.fate.None? && work.resources > 0
    case Download(_) => work.fate.None? && work.resources > 0
    case Watch(_) => work.fate.None? && work.resources == 0 && work.watches
    case Spawn(_) => work.fate.None? && work.resources == 0 && !work.watches
    case End(_, _, _) => work.fate.None? && work.resources == 0 && !work.watches
    case Stop(_, _, _) => work.fate == Some(Overrunning)
    case Archive(_) => h.outcome.Some? && !h.followed && work.uploads == Open
    case Put(_, _) => h.outcome.Some? && !h.followed && work.uploads == Granted
    case UploadPause(_) => h.outcome.Some? && !h.followed && work.uploads != Open && work.uploads != Late
    case Join(_) => h.outcome.Some?
    case File(_) => h.outcome.Some? && work.uploads == Closed && work.joined && work.next.None? && !v.stopped
  }

  function ViewOf(log: seq<Message>): View {
    if log == [] then View(Nought, false, false, false) else Next(ViewOf(log[..|log| - 1]), log[|log| - 1])
  }

  predicate Disciplined(log: seq<Message>) {
    log == [] || (Disciplined(log[..|log| - 1]) && May(ViewOf(log[..|log| - 1]), log[|log| - 1]))
  }

  lemma LogNext(log: seq<Message>, m: Message)
    requires Disciplined(log) && May(ViewOf(log), m)
    ensures Disciplined(log + [m]) && ViewOf(log + [m]) == Next(ViewOf(log), m)
  {
    assert (log + [m])[..|log|] == log;
  }

  /** A report that was not delivered can be sent again and then counts as the only one. */
  lemma Retried(v: View, v': View, report: Report)
    requires v.hold.Has? && MayTell(v, report)
    requires v'.hold == HoldAfter(v.hold, report, NoConnection) && (v.stopped ==> v'.stopped)
    ensures v'.hold.Has? && MayTell(v', report)
  {
  }

  lemma RetriedHold(v: View, v': View, report: Report, answer: Answer)
    requires v.hold.Has? && v'.hold == HoldAfter(v.hold, report, NoConnection) && v'.hold.Has?
    ensures HoldAfter(v'.hold, report, answer) == HoldAfter(v.hold, report, answer)
  {
  }

  /** The cancellation of the token takes away no right to report. */
  lemma StillMay(v: View, v': View, report: Report)
    requires v.hold.Has? && MayTell(v, report) && v'.hold == v.hold && (v.stopped ==> v'.stopped)
    ensures MayTell(v', report)
  {
  }

  lemma TokenNext(v: View, mine: bool)
    ensures Next(v, TokenCancelled(mine)) == v.(stopped := true)
  {
  }

  predicate Brings(m: Message, t: TaskId) {
    m.Fetch? && m.seen.Assigned? && m.seen.t == t
  }

  /** Between two fetches: the first one brought a task. */
  ghost predicate Settles(log: seq<Message>, i: nat, j: nat, t: TaskId)
    requires i < j <= |log|
  {
    exists k | i < k < j :: log[k].Tell? && log[k].t == t && log[k].report.Commit?
                            && (log[k].answer == Success || log[k].answer == Missing)
  }

  lemma ViewStep(log: seq<Message>, n: nat)
    requires n < |log|
    ensures ViewOf(log[..n + 1]) == Next(ViewOf(log[..n]), log[n])
  {
    assert log[..n + 1][..n] == log[..n];
  }

  lemma {:induction false} DisciplinedPrefix(log: seq<Message>, n: nat)
    requires Disciplined(log) && n <= |log|
    ensures Disciplined(log[..n]) && (n < |log| ==> May(ViewOf(log[..n]), log[n]))
    decreases |log| - n
  {
    if n == |log| {
      assert log[..n] == log;
    } else {
      DisciplinedPrefix(log, n + 1);
      assert log[..n + 1][..n] == log[..n];
    }
  }

  /** Only a commit answered with success or not-found takes a held task out of the hands. */
  lemma LetsGo(v: View, m: Message, t: TaskId)
    requires v.hold.Has? && v.hold.t == t && May(v, m)
    ensures Next(v, m).hold.Has? ==> Next(v, m).hold.t == t
    ensures !Next(v, m).hold.Has? ==>
      m.Tell? && m.t == t && m.report.Commit? && (m.answer == Success || m.answer == Missing)
  {
  }

  lemma {:induction false} StillHeld(log: seq<Message>, i: nat, n: nat, t: TaskId)
    requires Disciplined(log) && i < n <= |log| && Brings(log[i], t)
    ensures (ViewOf(log[..n]).hold.Has? && ViewOf(log[..n]).hold.t == t) || Settles(log, i, n, t)
    decreases n
  {
    ViewStep(log, n - 1);
    if n > i + 1 {
      StillHeld(log, i, n - 1, t);
      DisciplinedPrefix(log, n - 1);
      if ViewOf(log[..n - 1]).hold.Has? && ViewOf(log[..n - 1]).hold.t == t {
        LetsGo(ViewOf(log[..n - 1]), log[n - 1], t);
      }
    }
  }

  lemma {:induction false} StaysStopped(log: seq<Message>, i: nat, n: nat)
    requires i < n <= |log| && log[i].TokenCancelled?
    ensures ViewOf(log[..n]).stopped
    decreases n
  {
    ViewStep(log, n - 1);
    if n > i + 1 { StaysStopped(log, i, n - 1); }
  }

  /** What the discipline means on the log itself: between a fetch that brought a task and any
      later fetch, a commit of that task was answered with success or not-found, and the
      token had not been cancelled before the later fetch. */
  lemma DisciplineMeans(log: seq<Message>, j: nat)
    requires Disciplined(log) && j < |log| && log[j].Fetch?
    ensures forall i, t :: 0 <= i < j && Brings(log[i], t) ==> Settles(log, i, j, t)
    ensures forall i :: 0 <= i < j ==> !log[i].TokenCancelled?
  {
    DisciplinedPrefix(log, j);
    forall i, t | 0 <= i < j && Brings(log[i], t) ensures Settles(log, i, j, t) {
      StillHeld(log, i, j, t);
    }
    forall i | 0 <= i < j ensures !log[i].TokenCancelled? {
      if log[i].TokenCancelled? { StaysStopped(log, i, j); }
    }
  }

  predicate Announces(m: Message, t: TaskId) {
    m.Tell? && m.t == t && (m.report.Finish? || m.report.Cancel?)
  }

  predicate Follows(m: Message, t: TaskId) {
    m.Tell? && m.t == t && m.report.Submit?
  }

  predicate Uploads(m: Message, t: TaskId) {
    m.Upload? && m.t == t
  }

  /** Whether messages between `i` and `n` leave the worker with the task it had at `i`. */
  ghost predicate Keeps(log: seq<Message>, i: nat, n: nat, t: TaskId)
    requires i <= n <= |log|
  {
    forall k :: i <= k <= n ==> ViewOf(log[..k]).hold.Has? && ViewOf(log[..k]).hold.t == t
  }

  lemma {:induction false} FollowedStays(log: seq<Message>, i: nat, n: nat, t: TaskId)
    requires Disciplined(log) && i < n <= |log| && Follows(log[i], t) && Keeps(log, i, n, t)
    ensures ViewOf(log[..n]).hold.followed
    decreases n
  {
    ViewStep(log, n - 1);
    DisciplinedPrefix(log, n - 1);
    if n > i + 1 {
      FollowedStays(log, i, n - 1, t);
      StaysWith(ViewOf(log[..n - 1]), log[n - 1], t);
    }
  }

  lemma {:induction false} ToldStays(log: seq<Message>, i: nat, n: nat, t: TaskId)
    requires Disciplined(log) && i < n <= |log| && Announces(log[i], t) && Keeps(log, i, n, t)
    ensures ViewOf(log[..n]).hold.outcome ==
      Some(if log[i].report.Finish? then TaskState.Finished else TaskState.Cancelled)
    ensures log[i].answer != NoConnection ==> ViewOf(log[..n]).hold.told
    decreases n
  {
    ViewStep(log, n - 1);
    DisciplinedPrefix(log, n - 1);
    if n > i + 1 {
      ToldStays(log, i, n - 1, t);
      OutcomeStays(ViewOf(log[..n - 1]), log[n - 1]);
    }
  }

  /** What was announced stays announced as long as the task is held. */
  lemma OutcomeStays(v: View, m: Message)
    requires v.hold.Has? && v.hold.outcome.Some? && May(v, m) && Next(v, m).hold.Has?
    ensures Next(v, m).hold.outcome == v.hold.outcome && (v.hold.told ==> Next(v, m).hold.told)
    ensures v.hold.followed ==> Next(v, m).hold.followed
  {
  }

  /** The order of what is sent about one held task. Everything but the announcement comes after
      an announcement; announcements all say the same and end with the first that is delivered;
      no announcement and no upload follows a submission. */
  lemma OrderMeans(log: seq<Message>, i: nat, j: nat, t: TaskId)
    requires Disciplined(log) && i < j < |log| && Keeps(log, i, j, t)
    ensures Announces(log[i], t) && Announces(log[j], t) ==>
      log[i].answer == NoConnection && log[i].report == log[j].report
    ensures Follows(log[i], t) ==> !Announces(log[j], t) && !Uploads(log[j], t)
  {
    DisciplinedPrefix(log, j);
    if Announces(log[i], t) { ToldStays(log, i, j, t); }
    if Follows(log[i], t) { FollowedStays(log, i, j, t); }
  }

  lemma {:induction false} AnnouncedBefore(log: seq<Message>, i: nat, n: nat, t: TaskId)
    requires Disciplined(log) && i < n <= |log| && Brings(log[i], t) && Keeps(log, i + 1, n, t)
    ensures ViewOf(log[..n]).hold.outcome.Some? ==> exists k | i < k < n :: Announces(log[k], t)
    decreases n
  {
    ViewStep(log, n - 1);
    DisciplinedPrefix(log, n - 1);
    if n > i + 1 { AnnouncedBefore(log, i, n - 1, t); }
  }

  /** Uploads, submissions and commits of a fetched task come after its announcement. */
  lemma AnnouncedFirst(log: seq<Message>, i: nat, j: nat, t: TaskId)
    requires Disciplined(log) && i < j < |log| && Brings(log[i], t) && Keeps(log, i + 1, j, t)
    requires Uploads(log[j], t) || (log[j].Tell? && !Announces(log[j], t))
    ensures exists k | i < k < j :: Announces(log[k], t)
  {
    DisciplinedPrefix(log, j);
    AnnouncedBefore(log, i, j, t);
  }

  // ----- what is told is what happened

  predicate GivesReason(o: Observation, reason: TaskResultMessage) {
    match reason
    case ResourceNotFound => o.Info? && o.answer == Missing
    case ResourceForbidden => (o.Info? && o.answer == Denied) || (o.Download? && o.wait == Failed)
    case FetchResourceTimeout => (o.InfoPause? || o.Download?) && o.wait == TimedOut
    case WatchTimeout => o.Watch? && o.wait == TimedOut
    case _ => false
  }

  /** The observation that decides how the work on a task comes out. */
  predicate Decides(m: Message, t: TaskId, fate: Fate) {
    && m.Local? && m.t == t
    && match fate
       case Ended(exitStatus) => m.o.End? && m.o.wait == Completed && m.o.exitStatus == exitStatus
       case Overrunning => m.o.End? && m.o.wait == TimedOut
       case Overran(exitStatus) => m.o.Stop? && m.o.ok && m.o.wait != Interrupted && m.o.exitStatus == exitStatus
       case Abandoned(reason) => GivesReason(m.o, reason)
  }

  predicate EndsUploads(m: Message, t: TaskId) {
    m.Local? && m.t == t && (m.o.Archive? || m.o.Put? || m.o.UploadPause?) && m.o.wait == TimedOut
    && (m.o.Put? ==> m.o.ok)
  }

  predicate FailsFollowUp(m: Message, t: TaskId) {
    m == Local(t, File(Unreadable)) || (Follows(m, t) && Fails(m.answer))
  }

  ghost predicate Told(log: seq<Message>, i: nat, n: nat, t: TaskId, fate: Fate)
    requires i < n <= |log|
  {
    exists k | i < k < n :: Decides(log[k], t, fate)
  }

  /** What the view of a held task remembers has happened since the fetch. */
  lemma {:induction false} FateComes(log: seq<Message>, i: nat, n: nat, t: TaskId)
    requires Disciplined(log) && i < n <= |log| && Brings(log[i], t) && Keeps(log, i + 1, n, t)
    ensures var work := ViewOf(log[..n]).hold.work;
      work.fate.Some? ==> Told(log, i, n, t, work.fate.value)
    decreases n
  {
    if n == i + 1 {
      AtFetch(log, i, t);
    } else {
      FateComes(log, i, n - 1, t);
      AtWork(log, i, n, t);
      FateStep(ViewOf(log[..n - 1]).hold, log[n - 1], t);
    }
  }

  lemma AtFetch(log: seq<Message>, i: nat, t: TaskId)
    requires i < |log| && Brings(log[i], t)
    ensures ViewOf(log[..i + 1]).hold == Fetched(t, log[i].seen.resources, log[i].seen.watches)
  {
    ViewStep(log, i);
  }

  /** One message later the worker still works on the task. */
  lemma AtWork(log: seq<Message>, i: nat, n: nat, t: TaskId)
    requires Disciplined(log) && i + 1 < n <= |log| && Keeps(log, i + 1, n, t)
    ensures var v, m := ViewOf(log[..n - 1]), log[n - 1];
      && v.hold.Has? && v.hold.t == t && May(v, m) && !m.Fetch? && (m.Local? ==> m.t == t)
      && ViewOf(log[..n]).hold == NextHold(v.hold, m) && ViewOf(log[..n]).hold.Has?
  {
    ViewStep(log, n - 1);
    DisciplinedPrefix(log, n - 1);
    StaysWith(ViewOf(log[..n - 1]), log[n - 1], t);
  }

  lemma EndedNext(log: seq<Message>, i: nat, n: nat, t: TaskId)
    requires i + 1 < n <= |log|
    ensures UploadsEnded(log, i, n, t) <==> UploadsEnded(log, i, n - 1, t) || EndsUploads(log[n - 1], t)
  {
  }

  lemma UnfollowedNext(log: seq<Message>, i: nat, n: nat, t: TaskId)
    requires i + 1 < n <= |log|
    ensures FollowUpFailed(log, i, n, t) <==> FollowUpFailed(log, i, n - 1, t) || FailsFollowUp(log[n - 1], t)
  {
  }

  ghost predicate UploadsEnded(log: seq<Message>, i: nat, n: nat, t: TaskId)
    requires i < n <= |log|
  {
    exists k | i < k < n :: EndsUploads(log[k], t)
  }

  ghost predicate FollowUpFailed(log: seq<Message>, i: nat, n: nat, t: TaskId)
    requires i < n <= |log|
  {
    exists k | i < k < n :: FailsFollowUp(log[k], t)
  }

  predicate Unfollowed(work: Work) {
    work.next == Some(Unreadable) || work.refused
  }

  /** It remembers exactly whether the time for uploads is over. */
  lemma {:induction false} LateComes(log: seq<Message>, i: nat, n: nat, t: TaskId)
    requires Disciplined(log) && i < n <= |log| && Brings(log[i], t) && Keeps(log, i + 1, n, t)
    ensures ViewOf(log[..n]).hold.work.uploads == Late <==> UploadsEnded(log, i, n, t)
    decreases n
  {
    if n == i + 1 {
      AtFetch(log, i, t);
    } else {
      LateComes(log, i, n - 1, t);
      AtWork(log, i, n, t);
      LateStep(ViewOf(log[..n - 1]), log[n - 1], t);
      EndedNext(log, i, n, t);
    }
  }

  lemma LateStep(v: View, m: Message, t: TaskId)
    requires v.hold.Has? && v.hold.t == t && May(v, m) && !m.Fetch? && NextHold(v.hold, m).Has?
    ensures NextHold(v.hold, m).work.uploads == Late <==> v.hold.work.uploads == Late || EndsUploads(m, t)
  {
    if m.Local? { ObservedLate(v, m.o, t); }
  }

  lemma ObservedLate(v: View, o: Observation, t: TaskId)
    requires v.hold.Has? && v.hold.t == t && MayObserve(v, o)
    ensures WorkAfter(v.hold.work, o).uploads == Late <==>
      v.hold.work.uploads == Late || EndsUploads(Local(t, o), t)
  {
  }

  /** And whether a follow-up task failed. */
  lemma {:induction false} FailureComes(log: seq<Message>, i: nat, n: nat, t: TaskId)
    requires Disciplined(log) && i < n <= |log| && Brings(log[i], t) && Keeps(log, i + 1, n, t)
    ensures Unfollowed(ViewOf(log[..n]).hold.work) <==> FollowUpFailed(log, i, n, t)
    decreases n
  {
    if n == i + 1 {
      AtFetch(log, i, t);
    } else {
      FailureComes(log, i, n - 1, t);
      AtWork(log, i, n, t);
      FailureStep(ViewOf(log[..n - 1]), log[n - 1], t);
      UnfollowedNext(log, i, n, t);
    }
  }

  lemma FailureStep(v: View, m: Message, t: TaskId)
    requires v.hold.Has? && v.hold.t == t && May(v, m) && !m.Fetch? && NextHold(v.hold, m).Has?
    ensures Unfollowed(NextHold(v.hold, m).work) <==> Unfollowed(v.hold.work) || FailsFollowUp(m, t)
  {
    if m.Local? { ObservedFailure(v, m.o, t); }
  }

  lemma ObservedFailure(v: View, o: Observation, t: TaskId)
    requires v.hold.Has? && v.hold.t == t && MayObserve(v, o)
    ensures Unfollowed(WorkAfter(v.hold.work, o)) <==> Unfollowed(v.hold.work) || FailsFollowUp(Local(t, o), t)
  {
  }

  /** What the worker holds before and after a message is the same fetched task. */
  lemma StaysWith(v: View, m: Message, t: TaskId)
    requires v.hold.Has? && v.hold.t == t && May(v, m)
    ensures !m.Fetch? && (m.Local? || m.Tell? || m.Upload? ==> m.t == t)
    ensures Next(v, m).hold == NextHold(v.hold, m)
  {
  }

  lemma FateStep(h: Hold, m: Message, t: TaskId)
    requires h.Has? && h.t == t && !m.Fetch? && NextHold(h, m).Has? && (m.Local? ==> m.t == t)
    ensures var was, fate := h.work.fate, NextHold(h, m).work.fate;
      fate != was ==> fate.Some? && Decides(m, t, fate.value)
  {
    if m.Local? { ObservedFate(h.work, m.o, t); }
  }

  lemma ObservedFate(work: Work, o: Observation, t: TaskId)
    ensures var fate := WorkAfter(work, o).fate;
      fate != work.fate ==> fate.Some? && Decides(Local(t, o), t, fate.value)
  {
  }

  /** The result a fate calls for. */
  predicate CallsFor(fate: Fate, late: bool, unfollowed: bool, res: TaskResultSpec) {
    match fate
    case Ended(exitStatus) =>
      res == TaskResultSpec(exitStatus, if late then Some(UploadResultTimeout)
                                        else if unfollowed then Some(SubmitNewTaskFailed) else None)
    case Overrunning => false
    case Overran(exitStatus) =>
      res == TaskResultSpec(exitStatus, if late then Some(UploadResultTimeout) else Some(ExecTimeout))
    case Abandoned(reason) => res == TaskResultSpec(0, Some(reason))
  }

  /** What a worker tells about a fetched task is what happened to it since the fetch: Finish only
      if its command ended, Cancel only if the command was stopped or the task given up, and a
      commit with that event's exit status or reason and with exactly the message due. */
  lemma TruthMeans(log: seq<Message>, i: nat, j: nat, t: TaskId)
    requires Disciplined(log) && i < j < |log| && Brings(log[i], t) && Keeps(log, i + 1, j, t)
    requires log[j].Tell? && log[j].t == t && !log[j].report.Submit?
    ensures exists fate :: Told(log, i, j, t, fate) && Truthful(log, i, j, t, fate)
  {
    DisciplinedPrefix(log, j);
    FateComes(log, i, j, t);
    LateComes(log, i, j, t);
    FailureComes(log, i, j, t);
    var fate := ViewOf(log[..j]).hold.work.fate.value;
    assert Told(log, i, j, t, fate) && Truthful(log, i, j, t, fate);
  }

  ghost predicate Truthful(log: seq<Message>, i: nat, j: nat, t: TaskId, fate: Fate)
    requires i < j < |log| && log[j].Tell?
  {
    match log[j].report
    case Finish => fate.Ended?
    case Cancel => fate.Overran? || fate.Abandoned?
    case Submit(_, _, _, _, _, _) => true
    case Commit(res) => CallsFor(fate, UploadsEnded(log, i, j, t), FollowUpFailed(log, i, j, t), res)
  }

  /** A command is started only when all resources are there and the watched task has got where it
      should. */
  lemma {:induction false} ResourcesCome(log: seq<Message>, i: nat, n: nat, t: TaskId)
    requires Disciplined(log) && i < n <= |log| && Brings(log[i], t) && Keeps(log, i + 1, n, t)
    ensures var work := ViewOf(log[..n]).hold.work;
      && work.resources + Downloads(log, i, n, t) == log[i].seen.resources
      && (log[i].seen.watches && !work.watches ==> exists k | i < k < n :: WatchEnds(log[k], t))
    decreases n
  {
    if n == i + 1 {
      AtFetch(log, i, t);
    } else {
      ResourcesCome(log, i, n - 1, t);
      AtWork(log, i, n, t);
      ResourcesStep(ViewOf(log[..n - 1]), log[n - 1], t);
    }
  }

  lemma ResourcesStep(v: View, m: Message, t: TaskId)
    requires v.hold.Has? && v.hold.t == t && May(v, m) && !m.Fetch? && NextHold(v.hold, m).Has?
    ensures var was, work := v.hold.work, NextHold(v.hold, m).work;
      && work.resources + (if Downloaded(m, t) then 1 else 0) == was.resources
      && (work.watches != was.watches ==> WatchEnds(m, t))
  {
    if m.Local? { ObservedResources(v, m.o, t); }
  }

  lemma ObservedResources(v: View, o: Observation, t: TaskId)
    requires v.hold.Has? && v.hold.t == t && MayObserve(v, o)
    ensures var was, work := v.hold.work, WorkAfter(v.hold.work, o);
      && work.resources + (if Downloaded(Local(t, o), t) then 1 else 0) == was.resources
      && (work.watches != was.watches ==> WatchEnds(Local(t, o), t))
  {
  }

  predicate WatchEnds(m: Message, t: TaskId) {
    m.Local? && m.t == t && m.o.Watch? && (m.o.wait == Completed || m.o.wait == Failed)
  }

  predicate Downloaded(m: Message, t: TaskId) {
    m == Local(t, Download(Completed))
  }

  function Downloads(log: seq<Message>, i: nat, n: nat, t: TaskId): nat
    requires i < n <= |log|
    decreases n
  {
    if n == i + 1 then 0 else Downloads(log, i, n - 1, t) + (if Downloaded(log[n - 1], t) then 1 else 0)
  }

  /** Every resource was downloaded and the watch is over before the command runs. */
  lemma ReadyToRun(log: seq<Message>, i: nat, j: nat, t: TaskId)
    requires Disciplined(log) && i < j < |log| && Brings(log[i], t) && Keeps(log, i + 1, j, t)
    requires log[j].Local? && log[j].t == t && (log[j].o.Spawn? || log[j].o.End?)
    ensures Downloads(log, i, j, t) == log[i].seen.resources
    ensures log[i].seen.watches ==> exists k | i < k < j :: WatchEnds(log[k], t)
  {
    DisciplinedPrefix(log, j);
    ResourcesCome(log, i, j, t);
  }

  /** A worker that cancels its own token has a reason in its log. */
  lemma {:induction false} StopsForAReason(log: seq<Message>, n: nat)
    requires n <= |log|
    ensures ViewOf(log[..n]).trouble ==> exists k | 0 <= k < n :: Troubles(log[k])
    ensures ViewOf(log[..n]).unwelcome ==> exists k | 0 <= k < n :: Unwelcomes(log[k])
    decreases n
  {
    if n > 0 {
      StopsForAReason(log, n - 1);
      ViewStep(log, n - 1);
    }
  }
}
