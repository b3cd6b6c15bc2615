/** The worker's task loop: fetch, run, report, with retries, timeouts and a cancel token. All
    that is not decided here (answers, timeouts, processes, files, who cancels the token and
    when) comes from a script of events. When the script ends, the process is killed. */
module WorkerLoop {
  import opened Schema
  import opened Discipline

  /** One point at which the loop waits for its surroundings; each use reads the field that
      applies. `cancels` says that somebody cancels the token meanwhile. */
  datatype Event = Event(
    cancels: bool,
    fetched: FetchAnswer,
    answer: Answer,
    bodyOk: bool,
    wait: Wait,
    exitStatus: int,
    newTask: NewTask)

  /** How a function of the loop returns: normally, with an error, or not at all. */
  datatype Flow = Return | Error | Killed

  datatype UploadFlow = Uploaded | UploadError | UploadTimeout | UploadKilled

  class TaskExecutor {
    var script: seq<Event>
    var cancelled: bool
    var forceExit: bool
    ghost var log: seq<Message>
    ghost var hold: Hold
    ghost var trouble: bool
    ghost var unwelcome: bool

    ghost function View(): Discipline.View
      reads this
    {
      Discipline.View(hold, cancelled, trouble, unwelcome)
    }

    ghost predicate Logged()
      reads this
    {
      Disciplined(log) && ViewOf(log) == View()
    }

    /** The log is disciplined, and the worker is told to exit exactly if some answer said that
        the coordinator does not know it. */
    ghost predicate Valid()
      reads this
    {
      Logged() && forceExit == unwelcome
    }

    ghost predicate Holds(t: TaskId)
      reads this
    {
      hold.Has? && hold.t == t
    }

    /** The task has come out as given and nothing was told about it yet. */
    ghost predicate Decided(t: TaskId, fate: Fate)
      reads this
    {
      && Holds(t) && hold.outcome.None? && !hold.told && !hold.followed
      && hold.work.fate == Some(fate) && hold.work.uploads == Open && !hold.work.joined
      && hold.work.next.None? && !hold.work.handed && !hold.work.refused
    }

    /** Its outcome was announced, and there may be uploads. */
    ghost predicate Announced(t: TaskId, fate: Fate)
      reads this
    {
      && Holds(t) && hold.outcome == Some(if fate.Ended? then Finished else Cancelled) && !hold.followed
      && (hold.told || cancelled) && hold.work.fate == Some(fate)
      && hold.work.next.None? && !hold.work.handed && !hold.work.refused
    }

    /** Nothing has been decided about the task. */
    ghost predicate Undecided(t: TaskId, resources: nat, watches: bool)
      reads this
    {
      hold == Fetched(t, resources, watches)
    }

    constructor (script: seq<Event>)
      ensures Valid() && log == [] && hold == Nought && this.script == script
    {
      this.script, cancelled, forceExit := script, false, false;
      log, hold, trouble, unwelcome := [], Nought, false, false;
    }

    method Next() returns (e: Option<Event>)
      modifies this`script
      ensures e.Some? ==> old(script) != [] && e.value == old(script)[0] && script == old(script)[1..]
      ensures e.None? ==> script == old(script) == []
    {
      if script == [] {
        return None;
      }
      e := Some(script[0]);
      script := script[1..];
    }

    ghost method Record(m: Message)
      requires Logged() && May(View(), m) && !m.TokenCancelled?
      modifies this`log, this`hold, this`trouble, this`unwelcome
      ensures Logged() && View() == Discipline.Next(old(View()), m)
    {
      LogNext(log, m);
      var next := Discipline.Next(View(), m);
      hold, trouble, unwelcome := next.hold, next.trouble, next.unwelcome;
      log := log + [m];
    }

    /** Cancels the token. The worker does so itself only when something went wrong or the
        coordinator does not know it. */
    method CancelToken(mine: bool)
      requires Logged() && (mine ==> trouble || unwelcome)
      modifies this`log, this`cancelled
      ensures Logged() && cancelled
    {
      LogNext(log, TokenCancelled(mine));
      TokenNext(View(), mine);
      log := log + [TokenCancelled(mine)];
      cancelled := true;
    }

    /** Waiting, during which the token may be cancelled by others. If the wait checks the token
        first, a token cancelled before decides it. */
    method Wait(tokenFirst: bool) returns (e: Option<Event>)
      requires Logged()
      modifies this`script, this`log, this`cancelled
      ensures Logged() && (old(cancelled) ==> cancelled)
      ensures e.None? ==> script == old(script) == []
      ensures e.Some? ==> old(script) != [] && script == old(script)[1..]
      ensures e.Some? ==> e.value == Seen(old(script)[0], tokenFirst && old(cancelled))
      ensures e.Some? && e.value.wait == Interrupted ==> cancelled
    {
      var stop := tokenFirst && cancelled;
      e := Next();
      if e.Some? {
        if stop { e := Some(e.value.(wait := Interrupted)); }
        if e.value.cancels || e.value.wait == Interrupted { CancelToken(false); }
      }
    }

    /** The same, and what was observed about the task goes to the log. */
    method Observe(t: TaskId, point: Point, tokenFirst: bool) returns (e: Option<Event>)
      requires Logged() && Holds(t) && MayObserve(View(), Observed(point, QUIET))
      modifies this`script, this`log, this`cancelled, this`hold, this`trouble, this`unwelcome
      ensures Logged() && (old(cancelled) ==> cancelled) && unwelcome == old(unwelcome)
      ensures e.None? ==> script == old(script) == [] && hold == old(hold)
      ensures e.Some? ==> old(script) != [] && script == old(script)[1..]
      ensures e.Some? ==> e.value == Seen(old(script)[0], tokenFirst && old(cancelled))
      ensures e.Some? ==> hold == old(hold).(work := WorkAfter(old(hold).work, Observed(point, e.value)))
      ensures e.Some? ==> trouble == (old(trouble) || Troubles(Local(t, Observed(point, e.value))))
      ensures e.Some? && e.value.wait == Interrupted ==> cancelled
    {
      var stop := tokenFirst && cancelled;
      e := Next();
      if e.Some? {
        if stop { e := Some(e.value.(wait := Interrupted)); }
        SamePoint(View(), point, e.value);
        Record(Local(t, Observed(point, e.value)));
        if e.value.cancels || e.value.wait == Interrupted { CancelToken(false); }
      }
    }

    /** Sends a report once. */
    method SendReport(t: TaskId, report: Report, ghost before: Discipline.View) returns (answer: Option<Answer>)
      requires Valid() && Pending(t, report, before)
      modifies this
      ensures answer.None? ==> View() == old(View()) && script == old(script) == [] && Valid()
      ensures answer.Some? ==> |script| < |old(script)| && Logged() && forceExit == old(forceExit)
      ensures answer.Some? ==> hold == HoldAfter(before.hold, report, answer.value)
      ensures answer == Some(NoConnection) ==> Pending(t, report, before)
      ensures answer.Some? ==> trouble == (old(trouble) || (!report.Submit? && Fails(answer.value)))
      ensures answer.Some? ==> unwelcome == (old(unwelcome) || answer.value == Unauthorized)
      ensures old(cancelled) ==> cancelled
    {
      ghost var now := View();
      answer := Post(t, report);
      if answer.Some? {
        if now.hold != before.hold { RetriedHold(before, now, report, answer.value); }
        if answer.value == NoConnection { Retried(now, View(), report); }
      }
    }

    method Post(t: TaskId, report: Report) returns (answer: Option<Answer>)
      requires Valid() && Holds(t) && MayTell(View(), report)
      modifies this
      ensures answer.None? ==> View() == old(View()) && script == old(script) == [] && Valid()
      ensures answer.Some? ==> |script| < |old(script)| && Logged() && forceExit == old(forceExit)
      ensures answer.Some? ==> hold == HoldAfter(old(hold), report, answer.value)
      ensures answer.Some? ==> trouble == (old(trouble) || (!report.Submit? && Fails(answer.value)))
      ensures answer.Some? ==> unwelcome == (old(unwelcome) || answer.value == Unauthorized)
      ensures old(cancelled) ==> cancelled
    {
      var e := Next();
      if e.None? {
        return None;
      }
      Record(Tell(t, report, e.value.answer));
      if e.value.cancels { CancelToken(false); }
      answer := Some(e.value.answer);
    }

    /** Sends a report until it is delivered. Success and not-found end normally, as do a lost
        registration and a cancelled token; everything else is an error. `last` is the last
        answer; those before it were lost connections. */
    method ReportTask(t: TaskId, report: Report) returns (flow: Flow, ghost last: Answer)
      requires Valid() && Holds(t) && MayTell(View(), report)
      modifies this
      ensures Valid() && |script| <= |old(script)| && (old(cancelled) ==> cancelled)
      ensures flow == Killed ==> script == [] && last == NoConnection
      ensures flow == Killed ==> hold == old(hold) || hold == HoldAfter(old(hold), report, last)
      ensures flow != Killed ==> hold == HoldAfter(old(hold), report, last) && (flow == Error <==> Fails(last))
      ensures flow == Return ==> last == Success || last == Missing || cancelled
      ensures flow == Error && !report.Submit? ==> trouble
    {
      last := NoConnection;
      ghost var before := View();
      while true
        invariant Valid() && |script| <= |old(script)| && (old(cancelled) ==> cancelled)
        invariant Pending(t, report, before) && last == NoConnection
        decreases |script|
      {
        var result;
        result, last := ReportOnce(t, report, before);
        if result.Some? {
          flow := result.value;
          return;
        }
      }
    }

    /** The report has not been delivered yet. */
    ghost predicate Pending(t: TaskId, report: Report, before: Discipline.View)
      reads this
    {
      && before.hold.Has? && before.hold.t == t && MayTell(before, report) && Holds(t) && MayTell(View(), report)
      && (hold == before.hold || hold == HoldAfter(before.hold, report, NoConnection))
    }

    /** One round of the loop; no result means that it goes on. */
    method ReportOnce(t: TaskId, report: Report, ghost before: Discipline.View)
      returns (result: Option<Flow>, ghost last: Answer)
      requires Valid() && Pending(t, report, before) && (before.stopped ==> cancelled)
      modifies this
      ensures Valid() && (old(cancelled) ==> cancelled)
      ensures result.None? ==> |script| < |old(script)| && Pending(t, report, before) && last == NoConnection
      ensures result.Some? ==> |script| <= |old(script)|
      ensures result == Some(Killed) ==> script == [] && last == NoConnection
      ensures result == Some(Killed) ==> hold == before.hold || hold == HoldAfter(before.hold, report, last)
      ensures result.Some? && result.value != Killed ==>
        hold == HoldAfter(before.hold, report, last) && (result.value == Error <==> Fails(last))
      ensures result == Some(Return) ==> last == Success || last == Missing || cancelled
      ensures result == Some(Error) && !report.Submit? ==> trouble
    {
      var answer := SendReport(t, report, before);
      if answer.None? {
        return Some(Killed), NoConnection;
      }
      last := answer.value;
      if answer.value == NoConnection {
        result := if cancelled then Some(Return) else None;
        if result.None? { result := Pause(t, report, before); }
        return;
      }
      if answer.value == Unauthorized {
        forceExit := true;
        CancelToken(true);
      }
      result := Some(if Fails(answer.value) then Error else Return);
    }

    /** Sleeps until the next try, unless the token is cancelled. */
    method Pause(t: TaskId, report: Report, ghost before: Discipline.View) returns (result: Option<Flow>)
      requires Valid() && Pending(t, report, before)
      modifies this`script, this`log, this`cancelled
      ensures Valid() && |script| <= |old(script)| && (old(cancelled) ==> cancelled)
      ensures Pending(t, report, before)
      ensures result == Some(Return) ==> cancelled
      ensures result == Some(Killed) ==> script == []
      ensures result != Some(Error)
    {
      ghost var now := View();
      var sleep := Wait(true);
      StillMay(now, View(), report);
      result := if sleep.None? then Some(Killed) else if sleep.value.wait == Interrupted then Some(Return) else None;
    }

    /** Reports the task as cancelled and commits it with the reason. */
    method GiveUp(t: TaskId, reason: TaskResultMessage) returns (flow: Flow)
      requires Valid() && Decided(t, Abandoned(reason))
      modifies this
      ensures Valid() && |script| <= |old(script)|
      ensures flow == Killed ==> script == []
      ensures flow == Error ==> trouble
      ensures flow == Return ==> hold == Nought || cancelled
    {
      ghost var last;
      flow, last := ReportTask(t, Report.Cancel);
      if flow == Return {
        flow, last := ReportTask(t, Commit(TaskResultSpec(0, Some(reason))));
      }
    }

    /** Obtains one resource. `proceed` says that the task can go on. */
    method FetchResource(t: TaskId, ghost left: nat, ghost watches: bool) returns (flow: Flow, proceed: bool)
      requires Valid() && left > 0 && Undecided(t, left, watches)
      modifies this
      ensures Valid() && |script| <= |old(script)|
      ensures flow == Killed ==> script == []
      ensures flow == Error ==> trouble
      ensures proceed ==> flow == Return && Undecided(t, left - 1, watches)
      ensures flow == Return && !proceed ==> hold == Nought || cancelled
    {
      flow, proceed := Return, false;
      while true
        invariant Valid() && |script| <= |old(script)| && Undecided(t, left, watches) && !proceed
        decreases |script|
      {
        var info := Observe(t, AtInfo, false);
        if info.None? {
          return Killed, false;
        }
        match info.value.answer {
          case Success =>
            if !info.value.bodyOk {
              return Error, false;
            }
            flow, proceed := DownloadFile(t, left, watches);
            return;
          case Missing =>
            flow := GiveUp(t, ResourceNotFound);
            return;
          case Denied =>
            flow := GiveUp(t, ResourceForbidden);
            return;
          case NoConnection =>
            if cancelled {
              return Return, false;
            }
            var sleep := Observe(t, AtInfoPause, true);
            if sleep.None? {
              return Killed, false;
            }
            if sleep.value.wait == Interrupted {
              return Return, false;
            }
            if sleep.value.wait == TimedOut {
              flow := GiveUp(t, FetchResourceTimeout);
              return;
            }
          case Unauthorized => return Error, false;
          case Refused => return Error, false;
          case Broken => return Error, false;
        }
      }
    }

    method DownloadFile(t: TaskId, ghost left: nat, ghost watches: bool) returns (flow: Flow, proceed: bool)
      requires Valid() && left > 0 && Undecided(t, left, watches)
      modifies this
      ensures Valid() && |script| <= |old(script)|
      ensures flow == Killed ==> script == []
      ensures flow == Error ==> trouble
      ensures proceed ==> flow == Return && Undecided(t, left - 1, watches)
      ensures flow == Return && !proceed ==> hold == Nought || cancelled
    {
      flow, proceed := Return, false;
      var done := Observe(t, AtDownload, false);
      if done.None? {
        return Killed, false;
      }
      match done.value.wait {
        case Completed => proceed := true;
        case Failed => flow := GiveUp(t, ResourceForbidden);
        case Interrupted =>
        case TimedOut => flow := GiveUp(t, FetchResourceTimeout);
      }
    }

    /** Runs the command. `finished` tells a normal end from a timeout: it is what the event that
        ended the wait for the command says, and the exit status is that of the event that ended
        the command. */
    method RunCommand(t: TaskId) returns (flow: Flow, proceed: bool, finished: bool, exitStatus: int)
      requires Valid() && Undecided(t, 0, false)
      modifies this`script, this`log, this`cancelled, this`hold, this`trouble, this`unwelcome
      ensures Valid() && |script| <= |old(script)|
      ensures flow == Killed ==> script == []
      ensures flow == Error ==> trouble
      ensures flow == Return && !proceed ==> cancelled
      ensures proceed ==> flow == Return && Decided(t, if finished then Ended(exitStatus) else Overran(exitStatus))
      ensures proceed ==> |old(script)| >= 2 && finished == (old(script)[1].wait == Completed)
      ensures proceed && finished ==> exitStatus == old(script)[1].exitStatus
      ensures proceed && !finished ==> |old(script)| >= 3 && exitStatus == old(script)[2].exitStatus
    {
      flow, proceed, finished, exitStatus := Return, false, false, 0;
      var spawned := Observe(t, AtSpawn, false);
      if spawned.None? {
        return Killed, false, false, 0;
      }
      if spawned.value.wait == Failed {
        return Error, false, false, 0;
      }
      var ended := Observe(t, AtEnd, true);
      if ended.None? {
        return Killed, false, false, 0;
      }
      match ended.value.wait {
        case Interrupted => flow := if ended.value.bodyOk then Return else Error;
        case Failed => flow := Error;
        case Completed => proceed, finished, exitStatus := true, true, ended.value.exitStatus;
        case TimedOut =>
          var stopped := Observe(t, AtStop, false);
          if stopped.None? {
            return Killed, false, false, 0;
          }
          if !stopped.value.bodyOk {
            flow := Error;
          } else if stopped.value.wait != Interrupted {
            proceed, exitStatus := true, stopped.value.exitStatus;
          }
      }
    }

    /** Resources, then the watched task, then the command and its result. */
    method ExecuteTask(t: TaskId, resources: nat, watches: bool) returns (flow: Flow)
      requires Valid() && Undecided(t, resources, watches)
      modifies this
      ensures Valid() && |script| <= |old(script)|
      ensures flow == Killed ==> script == []
      ensures flow == Error ==> trouble
      ensures flow == Return ==> hold == Nought || cancelled
    {
      var proceed := true;
      for i := 0 to resources
        invariant Valid() && |script| <= |old(script)| && Undecided(t, resources - i, watches)
      {
        flow, proceed := FetchResource(t, resources - i, watches);
        if !proceed || flow != Return {
          return;
        }
      }
      if watches {
        var seen := Observe(t, AtWatch, true);
        if seen.None? {
          return Killed;
        }
        if seen.value.wait == Interrupted {
          return Return;
        }
        if seen.value.wait == TimedOut {
          flow := GiveUp(t, WatchTimeout);
          return;
        }
      }
      var finished, exitStatus;
      flow, proceed, finished, exitStatus := RunCommand(t);
      if flow == Return && proceed {
        flow := ProcessTaskResult(t, finished, exitStatus);
      }
    }

    /** Announces the outcome, uploads what the task left behind, submits a follow-up task and
        commits. */
    method ProcessTaskResult(t: TaskId, finished: bool, exitStatus: int) returns (flow: Flow)
      requires Valid() && Decided(t, if finished then Ended(exitStatus) else Overran(exitStatus))
      modifies this
      ensures Valid() && |script| <= |old(script)|
      ensures flow == Killed ==> script == []
      ensures flow == Error ==> trouble
      ensures flow == Return ==> hold == Nought || cancelled
    {
      ghost var fate := if finished then Ended(exitStatus) else Overran(exitStatus);
      ghost var last;
      flow, last := ReportTask(t, if finished then Report.Finish else Report.Cancel);
      if flow != Return {
        return;
      }
      var uploads := UploadArtifacts(t, fate);
      match uploads {
        case UploadKilled => return Killed;
        case UploadError => return Error;
        case UploadTimeout => flow := CommitLate(t, finished, exitStatus);
        case Uploaded => flow := CommitUploaded(t, finished, exitStatus);
      }
      if flow == Return && !(cancelled && uploads == Uploaded) {
        flow := CleanUp();
      }
    }

    /** Empties the directories of the task. */
    method CleanUp() returns (flow: Flow)
      requires Valid() && hold != Doubt
      modifies this
      ensures Valid() && |script| <= |old(script)| && hold == old(hold) && (old(cancelled) ==> cancelled)
      ensures flow == Killed ==> script == []
      ensures flow == Error ==> trouble
    {
      var cleaned := Wait(false);
      if cleaned.None? {
        return Killed;
      }
      Record(Cleaned(cleaned.value.bodyOk));
      flow := if cleaned.value.bodyOk then Return else Error;
    }

    /** The time for uploads is over: commits and waits for the archiver. */
    method CommitLate(t: TaskId, finished: bool, exitStatus: int) returns (flow: Flow)
      requires Valid() && Announced(t, if finished then Ended(exitStatus) else Overran(exitStatus))
      requires hold.work.uploads == Late
      modifies this
      ensures Valid() && |script| <= |old(script)| && hold != Doubt
      ensures flow == Killed ==> script == []
      ensures flow == Error ==> trouble
      ensures flow == Return ==> hold == Nought || cancelled
    {
      ghost var last;
      flow, last := ReportTask(t, Commit(TaskResultSpec(exitStatus, Some(UploadResultTimeout))));
      if flow == Return {
        flow := JoinAfterCommit();
      }
    }

    /** The uploads are through, or the token was cancelled meanwhile. */
    method CommitUploaded(t: TaskId, finished: bool, exitStatus: int) returns (flow: Flow)
      requires Valid() && Announced(t, if finished then Ended(exitStatus) else Overran(exitStatus))
      requires hold.work.uploads != Late && (hold.work.uploads == Closed || cancelled)
      modifies this
      ensures Valid() && |script| <= |old(script)| && hold != Doubt
      ensures flow == Killed ==> script == []
      ensures flow == Error ==> trouble
      ensures flow == Return ==> hold == Nought || cancelled
    {
      flow := JoinArchiver(t, if finished then Ended(exitStatus) else Overran(exitStatus));
      if flow == Return && !cancelled {
        flow := CommitResult(t, finished, exitStatus);
      }
    }

    /** Waits for the archiver, which may have failed. */
    method JoinArchiver(t: TaskId, ghost fate: Fate) returns (flow: Flow)
      requires Valid() && Announced(t, fate)
      modifies this`script, this`log, this`cancelled, this`hold, this`trouble, this`unwelcome
      ensures Valid() && |script| <= |old(script)| && (old(cancelled) ==> cancelled)
      ensures flow == Killed ==> script == []
      ensures flow == Error ==> trouble
      ensures hold.Has? && (flow == Return ==> hold == old(hold).(work := old(hold).work.(joined := true)))
    {
      var archived := Observe(t, AtJoin, false);
      flow := if archived.None? then Killed else if archived.value.wait == Failed then Error else Return;
    }

    /** The same after a commit, when the task is no longer held. */
    method JoinAfterCommit() returns (flow: Flow)
      requires Valid() && hold != Doubt
      modifies this`script, this`log, this`cancelled, this`hold, this`trouble, this`unwelcome
      ensures hold == old(hold)
      ensures Valid() && |script| <= |old(script)| && (old(cancelled) ==> cancelled)
      ensures flow == Killed ==> script == []
      ensures flow == Error ==> trouble
    {
      var archived := Wait(false);
      if archived.None? {
        return Killed;
      }
      Record(Cleaned(archived.value.wait != Failed));
      flow := if archived.value.wait == Failed then Error else Return;
    }

    /** After the uploads: submits a follow-up task and commits. */
    method CommitResult(t: TaskId, finished: bool, exitStatus: int) returns (flow: Flow)
      requires Valid() && Announced(t, if finished then Ended(exitStatus) else Overran(exitStatus))
      requires hold.work.uploads == Closed && hold.work.joined && !cancelled
      modifies this
      ensures Valid() && |script| <= |old(script)|
      ensures flow == Killed ==> script == []
      ensures flow == Error ==> trouble
      ensures flow == Return ==> hold == Nought || cancelled
      ensures hold != Doubt
    {
      var killed, newTaskOk := SubmitNewTask(t, if finished then Ended(exitStatus) else Overran(exitStatus));
      if killed {
        return Killed;
      }
      var msg := if !finished then Some(ExecTimeout) else if newTaskOk then None else Some(SubmitNewTaskFailed);
      ghost var last;
      flow, last := ReportTask(t, Commit(TaskResultSpec(exitStatus, msg)));
    }

    /** Submits the follow-up task the task asked for. `ok` says that nothing was wrong with it. */
    method SubmitNewTask(t: TaskId, ghost fate: Fate) returns (killed: bool, ok: bool)
      requires Valid() && Announced(t, fate) && (fate.Ended? || fate.Overran?)
      requires hold.work.uploads == Closed && hold.work.joined && !cancelled
      modifies this
      ensures Valid() && |script| <= |old(script)| && (old(cancelled) ==> cancelled)
      ensures killed ==> script == []
      ensures hold != Doubt
      ensures !killed ==> Holds(t) && hold.outcome == old(hold).outcome && (hold.told || cancelled) && Due(View())
      ensures !killed ==> hold.work.fate == Some(fate) && hold.work.uploads == Closed
      ensures !killed ==> ok == !(hold.work.next == Some(Unreadable) || hold.work.refused)
    {
      var file := Observe(t, AtFile, false);
      if file.None? {
        return true, false;
      }
      match file.value.newTask {
        case NoFile => return false, true;
        case Unreadable => return false, false;
        case Wants(report) =>
          if !report.Submit? {
            return false, false;
          }
          var flow;
          ghost var last;
          flow, last := ReportTask(t, report);
          killed, ok := flow == Killed, flow == Return;
      }
    }

    /** Something observed about the uploads. */
    method ObserveUpload(t: TaskId, point: Point, tokenFirst: bool, ghost fate: Fate) returns (e: Option<Event>)
      requires Valid() && Announced(t, fate) && (point == AtArchive || point == AtPut || point == AtUploadPause)
      requires MayObserve(View(), Observed(point, QUIET))
      modifies this`script, this`log, this`cancelled, this`hold, this`trouble, this`unwelcome
      ensures Valid() && (old(cancelled) ==> cancelled) && Announced(t, fate)
      ensures e.None? ==> script == [] && hold.work.uploads == old(hold).work.uploads
      ensures e.Some? ==> |script| < |old(script)|
      ensures e.Some? ==> hold.work.uploads == WorkAfter(old(hold).work, Observed(point, e.value)).uploads
      ensures e.Some? && Troubles(Local(t, Observed(point, e.value))) ==> trouble
      ensures e.Some? && e.value.wait == Interrupted ==> cancelled
    {
      e := Observe(t, point, tokenFirst);
    }

    /** Asks for an upload link for each archive and puts the file there. The whole of it is
        given up after a timeout. */
    method UploadArtifacts(t: TaskId, ghost fate: Fate) returns (r: UploadFlow)
      requires Valid() && Announced(t, fate) && hold.work.uploads == Open
      modifies this
      ensures Valid() && |script| <= |old(script)| && (old(cancelled) ==> cancelled) && Announced(t, fate)
      ensures r == UploadKilled ==> script == []
      ensures r == UploadError ==> trouble
      ensures r == UploadTimeout ==> hold.work.uploads == Late
      ensures r == Uploaded ==> hold.work.uploads != Late && (hold.work.uploads == Closed || cancelled)
    {
      while true
        invariant Valid() && |script| <= |old(script)| && (old(cancelled) ==> cancelled)
        invariant Announced(t, fate) && hold.work.uploads == Open
        decreases |script|
      {
        var produced := ObserveUpload(t, AtArchive, false, fate);
        if produced.None? {
          return UploadKilled;
        }
        if produced.value.wait == TimedOut {
          return UploadTimeout;
        }
        if produced.value.wait == Failed {
          return Uploaded;
        }
        var more;
        r, more := RequestUpload(t, fate);
        if !more {
          return;
        }
        r, more := PutFile(t, fate);
        if !more {
          return;
        }
      }
    }

    method RequestUpload(t: TaskId, ghost fate: Fate) returns (r: UploadFlow, more: bool)
      requires Valid() && Announced(t, fate) && hold.work.uploads == Asked
      modifies this
      ensures Valid() && |script| <= |old(script)| && (old(cancelled) ==> cancelled) && Announced(t, fate)
      ensures more ==> hold.work.uploads == Granted
      ensures !more ==> UploadsOver(r)
    {
      var result: Option<(UploadFlow, bool)> := None;
      while result.None?
        invariant Valid() && |script| <= |old(script)| && (old(cancelled) ==> cancelled) && Announced(t, fate)
        invariant result.None? ==> hold.work.uploads == Asked
        invariant result.Some? ==>
          if result.value.1 then hold.work.uploads == Granted else UploadsOver(result.value.0)
        decreases |script|, if result.None? then 1 else 0
      {
        result := RequestOnce(t, fate);
      }
      r, more := result.value.0, result.value.1;
    }

    /** One round of the loop; no result means that it goes on. */
    method RequestOnce(t: TaskId, ghost fate: Fate) returns (result: Option<(UploadFlow, bool)>)
      requires Valid() && Announced(t, fate) && hold.work.uploads == Asked
      modifies this
      ensures Valid() && (old(cancelled) ==> cancelled) && Announced(t, fate)
      ensures result.None? ==> |script| < |old(script)| && hold.work.uploads == Asked
      ensures result.Some? ==> |script| <= |old(script)|
      ensures result.Some? ==>
        if result.value.1 then hold.work.uploads == Granted else UploadsOver(result.value.0)
    {
      var e := SendUpload(t, fate);
      if e.None? {
        return Some((UploadKilled, false));
      }
      match e.value.answer {
        case Success => result := Some(if e.value.bodyOk then (Uploaded, true) else (UploadError, false));
        case Unauthorized =>
          forceExit := true;
          CancelToken(true);
          result := Some((Uploaded, false));
        case Missing => result := Some((Uploaded, false));
        case Denied => result := Some((Uploaded, false));
        case NoConnection => result := UploadRetry(t, fate);
        case Refused =>
          CancelToken(true);
          result := Some((UploadError, false));
        case Broken =>
          if e.value.wait == TimedOut {
            Record(Local(t, UploadPause(TimedOut)));
            return Some((UploadTimeout, false));
          }
          CancelToken(true);
          result := Some((UploadError, false));
      }
    }

    /** Sleeps before the next try, unless the token is cancelled or the time is over. */
    method UploadRetry(t: TaskId, ghost fate: Fate) returns (result: Option<(UploadFlow, bool)>)
      requires Valid() && Announced(t, fate) && (hold.work.uploads == Asked || hold.work.uploads == Granted)
      modifies this`script, this`log, this`cancelled, this`hold, this`trouble, this`unwelcome
      ensures Valid() && |script| <= |old(script)| && (old(cancelled) ==> cancelled) && Announced(t, fate)
      ensures result.None? ==> hold.work.uploads == old(hold).work.uploads
      ensures result.Some? ==> !result.value.1 && UploadsOver(result.value.0)
    {
      if cancelled {
        return Some((Uploaded, false));
      }
      var sleep := ObserveUpload(t, AtUploadPause, true, fate);
      if sleep.None? {
        return Some((UploadKilled, false));
      }
      match sleep.value.wait {
        case TimedOut => result := Some((UploadTimeout, false));
        case Interrupted => result := Some((Uploaded, false));
        case Completed => result := None;
        case Failed => result := None;
      }
    }

    /** Asks for an upload link once. */
    method SendUpload(t: TaskId, ghost fate: Fate) returns (e: Option<Event>)
      requires Valid() && Announced(t, fate) && hold.work.uploads == Asked
      modifies this
      ensures Announced(t, fate)
      ensures e.None? ==> View() == old(View()) && script == old(script) == [] && Valid()
      ensures e.Some? ==> |script| < |old(script)| && Logged() && forceExit == old(forceExit)
      ensures e.Some? ==> hold.work.uploads == UploadsAfter(Asked, e.value.answer, e.value.bodyOk)
      ensures e.Some? ==> trouble == (old(trouble) || Troubles(Upload(t, e.value.answer, e.value.bodyOk)))
      ensures e.Some? ==> unwelcome == (old(unwelcome) || e.value.answer == Unauthorized)
      ensures old(cancelled) ==> cancelled
    {
      e := Next();
      if e.Some? {
        Record(Upload(t, e.value.answer, e.value.bodyOk));
        if e.value.cancels { CancelToken(false); }
      }
    }

    /** How the uploads end. */
    ghost predicate UploadsOver(r: UploadFlow)
      reads this
    {
      && hold.Has?
      && (r == UploadKilled ==> script == [])
      && (r == UploadError ==> trouble)
      && (r == UploadTimeout ==> hold.work.uploads == Late)
      && (r == Uploaded ==> hold.work.uploads != Late && (hold.work.uploads == Closed || cancelled))
    }

    method PutFile(t: TaskId, ghost fate: Fate) returns (r: UploadFlow, more: bool)
      requires Valid() && Announced(t, fate) && hold.work.uploads == Granted
      modifies this`script, this`log, this`cancelled, this`hold, this`trouble, this`unwelcome
      ensures Valid() && |script| <= |old(script)| && (old(cancelled) ==> cancelled) && Announced(t, fate)
      ensures more ==> hold.work.uploads == Open
      ensures !more ==> UploadsOver(r)
    {
      while true
        invariant Valid() && |script| <= |old(script)| && (old(cancelled) ==> cancelled)
        invariant Announced(t, fate) && hold.work.uploads == Granted
        decreases |script|
      {
        var e := ObserveUpload(t, AtPut, true, fate);
        if e.None? {
          return UploadKilled, false;
        }
        if !PutOk(e.value) {
          return UploadError, false;
        }
        match e.value.wait {
          case TimedOut => return UploadTimeout, false;
          case Interrupted => return Uploaded, false;
          case Completed => return Uploaded, true;
          case Failed =>
            var retry := UploadRetry(t, fate);
            if retry.Some? {
              return retry.value.0, false;
            }
        }
      }
    }

    /** The loop itself, for every script: the log is disciplined, and the loop ends only when the
        token is cancelled or the process is killed. */
    method Run()
      requires Valid() && hold == Nought
      modifies this
      ensures Valid() && (cancelled || script == [])
    {
      while true
        invariant Valid() && (cancelled || hold == Nought)
        decreases |script|
      {
        if cancelled {
          return;
        }
        var e := Next();
        if e.None? {
          return;
        }
        Record(Fetch(e.value.fetched));
        if e.value.cancels { CancelToken(false); }
        match e.value.fetched {
          case Assigned(t, resources, watches) =>
            var flow := ExecuteTask(t, resources, watches);
            if flow == Killed {
              return;
            }
            if flow == Error { CancelToken(true); }
          case Nothing =>
            var sleep := Wait(true);
            if sleep.None? {
              return;
            }
          case FetchNoConnection =>
            var sleep := Wait(true);
            if sleep.None? {
              return;
            }
          case FetchUnauthorized =>
            forceExit := true;
            CancelToken(true);
          case Garbled => CancelToken(true);
          case FetchRefused => CancelToken(true);
          case FetchBroken => CancelToken(true);
        }
      }
    }
  }

  /** The points at which something about a task is observed. */
  datatype Point =
    | AtInfo | AtInfoPause | AtDownload | AtWatch | AtSpawn | AtEnd | AtStop
    | AtArchive | AtPut | AtUploadPause | AtJoin | AtFile

  /** An event at which nothing special happens. */
  const QUIET := Event(false, Nothing, Success, true, Completed, 0, NoFile)

  /** What may be observed depends on the point, not on the event. */
  lemma SamePoint(v: Discipline.View, point: Point, e: Event)
    requires v.hold.Has? && MayObserve(v, Observed(point, QUIET))
    ensures MayObserve(v, Observed(point, e))
  {
  }

  function Seen(e: Event, interrupted: bool): Event {
    if interrupted then e.(wait := Interrupted) else e
  }

  /** A file was put, or the connection failed and it can be tried again. */
  predicate PutOk(e: Event) {
    e.bodyOk && (e.wait == Failed ==> e.answer == NoConnection)
  }

  function Observed(point: Point, e: Event): Observation {
    match point
    case AtInfo => Info(e.answer, e.bodyOk)
    case AtInfoPause => InfoPause(e.wait)
    case AtDownload => Download(e.wait)
    case AtWatch => Watch(e.wait)
    case AtSpawn => Spawn(e.wait)
    case AtEnd => End(e.wait, e.exitStatus, e.bodyOk)
    case AtStop => Stop(e.wait, e.exitStatus, e.bodyOk)
    case AtArchive => Archive(e.wait)
    case AtPut => Put(e.wait, PutOk(e))
    case AtUploadPause => UploadPause(e.wait)
    case AtJoin => Join(e.wait)
    case AtFile => File(if e.newTask.Wants? && !e.newTask.report.Submit? then Unreadable else e.newTask)
  }
}
