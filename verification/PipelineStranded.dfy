/** A cancel that comes before its dispatch: what becomes of the job, and for how long. */
module PipelineStranded {
  import opened Options
  import opened JobStatus
  import opened JobRow
  import opened Downloader
  import opened Pipeline
  import opened PipelineSafety
  import opened PipelineHistory
  import opened PipelineCoarse
  import opened PipelineProgress
  import opened PipelineInPeace

  // ---- a task that finds a cancel pending ------------------------------------------------------

  predicate IsDownload(e: Option<Event>) { e.Some? && e.value.Downloaded? }

  predicate HasDownload(log: seq<Event>) {
    exists i :: 0 <= i < |log| && log[i].Downloaded?
  }

  /** Nothing but the path of the file has changed in the row, and nothing was told. */
  predicate Unmoved(row: Row, v: Job, told: seq<Message>) {
    v.row.Some? && v.row.value == row.(hasFile := v.row.value.hasFile) && told == []
  }

  predicate HasFailed(v: Job, told: seq<Message>) {
    v.row.Some? && v.row.value.status.Failed? && Agree(v, told)
  }

  /** Where such a task can be. `row` is what it started from, and `got` says whether a download
      has ended well since. */
  predicate Heading(row: Row, v: Job, got: bool, told: seq<Message>) {
    && v.row.Some? && v.orphan.None?
    && (v.handler.NoHandler? || v.handler.Resending?) && ResendsRow(v)
    && match v.pc
       case Created => v.cancelRequested && Unmoved(row, v, told) && v.row.value == row && !got
       case Located(has) => v.cancelRequested && Unmoved(row, v, told) && v.row.value == row && has == row.hasFile && !got
       case Downloading(_, _, _) => v.cancelRequested && Unmoved(row, v, told) && v.row.value == row && !row.hasFile && !got
       case CheckBeforeWait => v.cancelRequested && Unmoved(row, v, told) && v.row.value.hasFile && (row.hasFile || got)
       case Writing(SetFile, committed) =>
         v.cancelRequested && Unmoved(row, v, told) && got && !row.hasFile && (committed ==> v.row.value.hasFile)
       case Writing(SetStatus(Failed, _, _), committed) =>
         !row.hasFile && !got && if committed then HasFailed(v, told) else Unmoved(row, v, told) && v.row.value == row
       case Sending(FailedMsg(_, _)) => !row.hasFile && !got && HasFailed(v, told)
       case Idle =>
         && !v.cancelRequested
         && if row.hasFile || got then Unmoved(row, v, told) && v.row.value.hasFile
            else HasFailed(v, told) && Report(v.row.value) in told
       case _ => false
  }

  lemma HeadingTaken(row: Row, v: Job, a: Action, h: Past, got: bool, told: seq<Message>)
    requires Inv(Up, v, h) && OwnsRow(v) && IsResumable(row.status) && (v.row.Some? && v.row.value.hasFile ==> v.file.Some?)
    requires Heading(row, v, got, told) && Fires(v, a)
    ensures Heading(row, TaskMove(v, a), got || IsDownload(Emits(v, a)), ToldMore(told, Emits(v, a)))
  {
    hide Flatten, NotOnline, EdgesFit, RowIsLastCommit, NoWayBack, PrintedOnce, HandlerFits;
  }

  lemma HeadingOther(row: Row, v: Job, a: Action, h: Past, got: bool, told: seq<Message>)
    requires Inv(Up, v, h) && IsResumable(row.status) && Heading(row, v, got, told)
    requires !Fires(v, a) && !a.CancelBegin? && !a.TaskDies?
    ensures Heading(row, Moved(v, a), got || IsDownload(Emits(v, a)), ToldMore(told, Emits(v, a)))
    ensures Moved(v, a).pc == v.pc
  {
    hide Flatten, NotOnline, EdgesFit, RowIsLastCommit, NoWayBack, PrintedOnce, PcFits, Updated;
  }

  /** One step of the agent, seen from the job. */
  lemma NextHeading(row: Row, s: Agent, a: AgentAction, id: JobId, got: bool, told: seq<Message>)
    requires s.mode == Up && Enabled(s, a) && Peaceful(id, a) && IsResumable(row.status)
    requires
      var v := At(s, id);
      Inv(Up, v, PastOf(v)) && OwnsRow(v) && ProbesFit(v) && History(v) && Heading(row, v, got, told)
    ensures
      var v, e := At(s, id), News(At(s, id), id, a);
      var v' := At(AgentStep(s, a), id);
      && Heading(row, v', got || IsDownload(e), ToldMore(told, e))
      && AgentStep(s, a).mode == Up
      && if IsTaken(v, id, a) then Rank(v'.pc) < Rank(v.pc) + Served(a.action) else v'.pc == v.pc
  {
    assert At(s, id).row.Some? && At(s, id).row.value.hasFile ==> At(s, id).file.Some?;
    hide Inv, PastOf, OwnsRow, Heading, Rank, TaskMove, HandlerMove, OrphanMove, Emits, History;
    var v := At(s, id);
    AtNext(s, a, id);
    if a.OnJob? && a.id == id {
      var b := a.action;
      if Fires(v, b) { HeadingTaken(row, v, b, PastOf(v), got, told); TakenRank(v, b, PastOf(v)); }
      else { HeadingOther(row, v, b, PastOf(v), got, told); }
      RecordedHeading(row, Moved(v, b), Emits(v, b), got || IsDownload(Emits(v, b)), ToldMore(told, Emits(v, b)));
    }
  }

  lemma TakenRank(v: Job, a: Action, h: Past)
    requires Inv(Up, v, h) && ProbesFit(v) && Fires(v, a)
    ensures Rank(TaskMove(v, a).pc) < Rank(v.pc) + Served(a)
  {
    hide Rank, TaskMove;
    RankDrops(v, a);
  }

  lemma RecordedHeading(row: Row, v: Job, e: Option<Event>, got: bool, told: seq<Message>)
    ensures Heading(row, v, got, told) ==> Heading(row, Recorded(v, e), got, told)
    ensures Recorded(v, e).pc == v.pc
  {
  }

  /** What has been added to the history since it was `v`'s. */
  function Since(v: Job, v': Job): seq<Event>
    requires v.log <= v'.log
  {
    v'.log[|v.log|..]
  }

  lemma HasDownloadNext(v: Job, s: Agent, a: AgentAction, id: JobId)
    requires v.log <= At(s, id).log && Enabled(s, a)
    ensures
      var u, u' := At(s, id), At(AgentStep(s, a), id);
      && v.log <= u'.log
      && (HasDownload(Since(v, u')) <==> HasDownload(Since(v, u)) || IsDownload(News(u, id, a)))
  {
    hide Touched, News;
    var u, e := At(s, id), News(At(s, id), id, a);
    AtNext(s, a, id);
    TouchedKeepsPast(u, id, a);
    if e.Some? {
      assert (u.log + [e.value])[|v.log|..] == Since(v, u) + [e.value];
      HasDownloadPush(Since(v, u), e.value);
    }
  }

  lemma HasDownloadPush(log: seq<Event>, e: Event)
    ensures HasDownload(log + [e]) <==> HasDownload(log) || e.Downloaded?
  {
    if HasDownload(log) {
      var i :| 0 <= i < |log| && log[i].Downloaded?;
      assert (log + [e])[i].Downloaded?;
    }
    if e.Downloaded? { assert (log + [e])[|log|].Downloaded?; }
  }

  /** The invariant over any continuation in peace. */
  lemma {:induction false} HeadsOn(run: seq<AgentAction>, more: seq<AgentAction>, id: JobId)
    requires var v := At(Exec(run), id); v.pc.Created? && v.cancelRequested && v.handler.NoHandler?
    requires InPeace(id, more)
    ensures
      var v, v' := At(Exec(run), id), At(Exec(run + more), id);
      && Exec(run + more).mode == Up && v.log <= v'.log && v.row.Some? && IsResumable(v.row.value.status)
      && StepsTaken(run, more, id) + Rank(v'.pc) <= Rank(v.pc) + ChunksServed(run, more, id)
      && Heading(v.row.value, v', HasDownload(Since(v, v')), ToldSince(v, v'))
    decreases |more|
  {
    var v := At(Exec(run), id);
    AlwaysInv(run, id);
    if more == [] {
      assert run + more == run;
      assert v.log[|v.log|..] == [];
    } else {
      hide PastOf, Inv, Heading, Rank, HasDownload, Since, ToldSince, Fires;
      var front, a := more[..|more|-1], more[|more|-1];
      assert (run + more)[..|run + more|-1] == run + front;
      HeadsOn(run, front, id);
      HeadsOneStepOn(v, run + front, a, id);
      assert Exec(run + more) == AgentStep(Exec(run + front), a);
    }
  }

  lemma HeadsOneStepOn(v: Job, sofar: seq<AgentAction>, a: AgentAction, id: JobId)
    requires Exec(sofar).mode == Up && Peaceful(id, a) && v.row.Some? && IsResumable(v.row.value.status)
    requires
      var u := At(Exec(sofar), id);
      v.log <= u.log && Heading(v.row.value, u, HasDownload(Since(v, u)), ToldSince(v, u))
    ensures
      var s := Exec(sofar);
      var u, u' := At(s, id), At(AgentStep(s, a), id);
      && AgentStep(s, a).mode == Up && v.log <= u'.log
      && Heading(v.row.value, u', HasDownload(Since(v, u')), ToldSince(v, u'))
      && if IsTaken(u, id, a) then Rank(u'.pc) < Rank(u.pc) + Served(a.action) else u'.pc == u.pc
  {
    var s := Exec(sofar);
    assert Enabled(s, a) || (AgentStep(s, a) == s && !IsTaken(At(s, id), id, a));
    hide PastOf, Inv, Heading, OwnsRow, ProbesFit, History, Rank, HasDownload, Since, ToldSince, Fires, AgentStep;
    if Enabled(s, a) {
      var u := At(s, id);
      AlwaysInv(sofar, id);
      AlwaysOwnsRow(sofar, id);
      AlwaysHistory(sofar, id);
      AtMostThirteenProbes(sofar, id);
      ToldSinceNext(v, s, a, id);
      HasDownloadNext(v, s, a, id);
      NextHeading(v.row.value, s, a, id, HasDownload(Since(v, u)), ToldSince(v, u));
    }
  }

  /** A task created with a cancel pending, as after a cancel that came before its dispatch. In
      peace it is over after a bounded number of steps, and then it has left the job as it was,
      with nothing told, if and only if it got the document; otherwise the job has failed and
      that was reported. */
  lemma EarlyCancel(run: seq<AgentAction>, more: seq<AgentAction>, id: JobId)
    requires var v := At(Exec(run), id); v.pc.Created? && v.cancelRequested && v.handler.NoHandler?
    requires InPeace(id, more)
    ensures
      var v, v' := At(Exec(run), id), At(Exec(run + more), id);
      && v.log <= v'.log && v.row.Some? && IsResumable(v.row.value.status)
      && StepsTaken(run, more, id) + Rank(v'.pc) <= Rank(v.pc) + ChunksServed(run, more, id)
      && (v'.pc.Idle? ==>
            && (Unmoved(v.row.value, v', ToldSince(v, v')) <==> v.row.value.hasFile || HasDownload(Since(v, v')))
            && (Unmoved(v.row.value, v', ToldSince(v, v')) ==> IsStranded(Exec(run + more), id))
            && (!Unmoved(v.row.value, v', ToldSince(v, v')) ==>
                  v'.row.Some? && v'.row.value.status.Failed? && Report(v'.row.value) in ToldSince(v, v')))
  {
    HeadsOn(run, more, id);
  }

  // ---- a job nobody works on -------------------------------------------------------------------

  /** The job waits to be processed, and no task, handler or write is at work on it. */
  predicate IsStranded(s: Agent, id: JobId) {
    var v := At(s, id);
    && s.mode == Up && v.row.Some? && IsResumable(v.row.value.status)
    && v.pc.Idle? && v.handler.NoHandler? && v.orphan.None?
  }

  /** It stays so, with no message and no write, until a crash or an accepted cancel: whatever
      happens short of a crash, the next thing that ever happens to it is that. */
  lemma {:induction false} StrandedJobStays(run: seq<AgentAction>, more: seq<AgentAction>, id: JobId)
    requires IsStranded(Exec(run), id) && forall i :: 0 <= i < |more| ==> !more[i].Crash?
    ensures
      var v, v' := At(Exec(run), id), At(Exec(run + more), id);
      || (v'.log == v.log && v'.row == v.row && v'.pc.Idle?)
      || (v.log + [CancelAccepted] <= v'.log)
    decreases |more|
  {
    StrandedOrCancelled(run, more, id);
  }

  /** Stranded, with at most the flag of a cancel set. */
  predicate Waits(row: Option<Row>, log: seq<Event>, v: Job) {
    && v.row == row && v.row.Some? && IsResumable(v.row.value.status) && v.log == log
    && v.pc.Idle? && v.orphan.None? && (v.handler.NoHandler? || v.handler.CancelFlagged?)
  }

  lemma WaitsOn(row: Option<Row>, v: Job, a: Action)
    requires Waits(row, v.log, v)
    ensures Waits(row, v.log, Step(v, a)) || Step(v, a).log == v.log + [CancelAccepted]
  {
    hide Updated, Flatten, NotOnline, Report;
  }

  lemma {:induction false} StrandedOrCancelled(run: seq<AgentAction>, more: seq<AgentAction>, id: JobId)
    requires IsStranded(Exec(run), id) && forall i :: 0 <= i < |more| ==> !more[i].Crash?
    ensures
      var v, v' := At(Exec(run), id), At(Exec(run + more), id);
      && Exec(run + more).mode == Up
      && (Waits(v.row, v.log, v') || v.log + [CancelAccepted] <= v'.log)
    decreases |more|
  {
    if more == [] {
      assert run + more == run;
    } else {
      hide Step, Waits, Moved, Emits;
      var front, a := more[..|more|-1], more[|more|-1];
      assert (run + more)[..|run + more|-1] == run + front;
      StrandedOrCancelled(run, front, id);
      var s, v := Exec(run + front), At(Exec(run), id);
      assert Exec(run + more) == AgentStep(s, a);
      AtNext(s, a, id);
      TouchedKeepsPast(At(s, id), id, a);
      if Enabled(s, a) && a.OnJob? && a.id == id && Waits(v.row, v.log, At(s, id)) {
        WaitingLog(v.row, v.log, At(s, id));
        WaitsOn(v.row, At(s, id), a.action);
        StepIs(At(s, id), a.action);
      }
    }
  }

  lemma WaitingLog(row: Option<Row>, log: seq<Event>, v: Job)
    requires Waits(row, log, v)
    ensures v.log == log
  {
  }

  lemma StepIs(v: Job, a: Action)
    ensures Step(v, a) == Recorded(Moved(v, a), Emits(v, a))
  {
  }
}
