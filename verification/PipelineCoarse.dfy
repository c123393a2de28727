/** Runs in which a database write and the resumption of its caller, and a cancel's read,
    check, `task.cancel()` and write, are each one step. It is the same machine under a
    stricter schedule, so everything proved of all runs holds here too. */
module PipelineCoarse {
  import opened Options
  import opened JobStatus
  import opened JobRow
  import opened Downloader
  import opened Pipeline
  import opened PipelineSafety

  /** A cancel has begun and has not yet committed. */
  predicate MidCancel(v: Job) {
    v.handler.CancelFlagged? || v.handler.CancelChosen? || v.handler.CancelWriting?
  }

  predicate CoarseAction(v: Job, a: Action) {
    && (IsTaskAction(a) || a.OrphanCommits? || a.OrphanDropped? ==> !MidCancel(v))
    && (a.CancelBegin? ==> !v.pc.Writing?)
  }

  /** Crashes may still fall anywhere, also inside what is otherwise one step. */
  predicate CoarseRun(run: seq<AgentAction>) {
    run == [] ||
    var s, a := Exec(run[..|run|-1]), run[|run|-1];
    CoarseRun(run[..|run|-1]) && (a.OnJob? ==> CoarseAction(At(s, a.id), a.action))
  }

  // ---- what was told to the hub ------------------------------------------------------

  /** All messages submitted for the job, and the statuses told in this lifetime of the
      process, after the status the row had when the lifetime began. */
  datatype Told = Told(all: seq<Message>, life: seq<Status>, last: Status) {
    function Then(e: Option<Event>): Told {
      if e.Some? && e.value.Submit?
      then Told(all + [e.value.message], life + [StatusOf(e.value.message)], StatusOf(e.value.message))
      else this
    }
  }

  function StatusesTold(messages: seq<Message>): seq<Status> {
    seq(|messages|, i requires 0 <= i < |messages| => StatusOf(messages[i]))
  }

  function LifeOf(v: Job): seq<Status>
    requires v.since <= |v.log|
  {
    [v.base] + StatusesTold(Messages(v.log[v.since..]))
  }

  function ToldOf(v: Job): Told
    requires v.since <= |v.log|
  {
    var life := LifeOf(v);
    Told(Messages(v.log), life, life[|life|-1])
  }

  /** Every step is legal, and only a terminal status is told twice. */
  ghost predicate TellingPath(life: seq<Status>) {
    forall i :: 0 < i < |life| ==>
      IsLegal(life[i-1], life[i]) && (life[i-1] == life[i] ==> IsTerminal(life[i]))
  }

  // ---- the inductive invariant -----------------------------------------------------

  predicate SaysFailed(row: Row, code: Option<string>, text: Option<string>) {
    row.status.Failed? && row.errorCode == code && row.errorMessage == text
  }

  predicate CoarseHandler(v: Job) {
    match v.handler
    case CancelFlagged => !v.pc.Writing?
    case CancelChosen => !v.pc.Writing? && v.row.Some? && IsResumable(v.row.value.status)
    case CancelWriting => v.row.Some? && IsResumable(v.row.value.status)
    case CancelReporting => v.row.Some? && v.row.value.status.Cancelled?
    case Resending(m) => v.row.Some? && IsTerminal(v.row.value.status) && m == Report(v.row.value)
    case StuckReporting => v.row.Some? && SaysFailed(v.row.value, Some(RESTARTED_CODE), Some(RESTARTED_TEXT))
    case _ => true
  }

  predicate CoarseTask(v: Job) {
    && v.orphan.None?
    && (v.pc.Writing? && v.pc.committed && v.pc.write.SetStatus? && v.pc.write.status.Failed? ==>
          v.row.Some? && SaysFailed(v.row.value, v.pc.write.code, v.pc.write.text))
    && (v.pc.Sending? && v.pc.message.FailedMsg? ==>
          v.row.Some? && SaysFailed(v.row.value, v.pc.message.code, v.pc.message.text))
  }

  /** Terminal messages all say what the row says now. */
  predicate Agree(v: Job, all: seq<Message>) {
    forall m :: m in all && IsTerminal(StatusOf(m)) ==>
      v.row.Some? && IsTerminal(v.row.value.status) && m == Report(v.row.value)
  }

  /** Points after the started message and before the job is over. */
  predicate StartWasTold(pc: Pc) {
    pc.ReadyToPrint? || pc.InPrint? || (pc.Writing? && !pc.committed && pc.write.SetStatus? && pc.write.status.Completed?)
  }

  /** Points between the commit of PRINTING and its message. */
  predicate StartIsDue(pc: Pc) {
    (pc.Sending? && pc.message.StartedMsg?)
    || (pc.Writing? && pc.committed && pc.write.SetStatus? && pc.write.status.Printing?)
  }

  /** What the hub was last told leads legally to what is stored. */
  predicate LastToldFits(mode: Mode, v: Job, last: Status) {
    && (if v.row.None? then last.Queued? else IsLegal(last, v.row.value.status))
    && (!v.pc.Idle? || v.handler.Creating? || (mode != Up && v.row.Some?) ==> !last.Queued?)
    && (v.handler.Acking? ==> last.Queued?)
    && (StartWasTold(v.pc) ==> last.Printing?)
    && (StartIsDue(v.pc) ==> !last.Printing?)
  }

  /** Points at which the task may still write WAITING_FOR_PRINTER. */
  predicate BeforeWait(pc: Pc) {
    pc.Created? || pc.Located? || pc.Downloading? || pc.CheckBeforeWait? || (pc.Probing? && pc.waited == 0)
    || (pc.Writing? && (pc.write.SetFile? || (pc.write.status.Waiting? && !pc.committed)))
  }

  predicate AttemptsFit(v: Job, h: Past) {
    v.row.Some? ==>
      v.row.value.attempts + (if BeforeWait(v.pc) then 1 else 0)
      <= v.lives + h.begun + (if IsTerminal(v.row.value.status) then 1 else 0)
  }

  ghost predicate CoarseInv(mode: Mode, v: Job, h: Past, t: Told) {
    && CoarseHandler(v) && CoarseTask(v)
    && LegalPath(h.path)
    && Agree(v, t.all)
    && TellingPath(t.life) && t.life != [] && t.life[|t.life|-1] == t.last
    && LastToldFits(mode, v, t.last)
    && AttemptsFit(v, h)
  }

  lemma PushLegal(path: seq<Status>, b: Status)
    requires LegalPath(path) && (path != [] ==> IsLegal(path[|path|-1], b))
    ensures LegalPath(path + [b])
  {
  }

  lemma PushTold(t: Told, m: Message)
    requires TellingPath(t.life) && t.life != [] && t.life[|t.life|-1] == t.last
    requires IsLegal(t.last, StatusOf(m)) && (t.last == StatusOf(m) ==> IsTerminal(t.last))
    ensures TellingPath(t.Then(Some(Submit(m))).life)
  {
  }

  lemma CoarseEarlyTask(v: Job, a: Action, h: Past, t: Told)
    requires a.TaskRead? || a.TaskLocate? || a.TaskChunk? || a.TaskCheck? || a.TaskDies?
    requires Inv(Up, v, h) && CoarseInv(Up, v, h, t) && CoarseAction(v, a)
    ensures CoarseInv(Up, TaskMove(v, a), h.Then(Emits(v, a)), t.Then(Emits(v, a)))
  {
    hide LegalPath, TellingPath, EdgesFit, Flatten, NotOnline, RowIsLastCommit, PrintedOnce;
  }

  lemma CoarseLateTask(v: Job, a: Action, h: Past, t: Told)
    requires a.TaskCallPrint? || a.TaskPrintReturns? || a.TaskPrintRaises?
    requires Inv(Up, v, h) && CoarseInv(Up, v, h, t) && CoarseAction(v, a)
    ensures CoarseInv(Up, TaskMove(v, a), h.Then(Emits(v, a)), t.Then(Emits(v, a)))
  {
    hide LegalPath, TellingPath, EdgesFit, Flatten, NotOnline, RowIsLastCommit, PrintedOnce;
  }

  lemma CoarseWaiting(v: Job, a: Action, h: Past, t: Told)
    requires a.TaskResume? || a.TaskStatus? || a.TaskGate?
    requires Inv(Up, v, h) && CoarseInv(Up, v, h, t) && CoarseAction(v, a)
    ensures CoarseInv(Up, TaskMove(v, a), h.Then(Emits(v, a)), t.Then(Emits(v, a)))
  {
    hide LegalPath, TellingPath, EdgesFit, Flatten, NotOnline, RowIsLastCommit, PrintedOnce, NoWayBack;
  }

  lemma CoarseCommit(v: Job, h: Past, t: Told)
    requires Inv(Up, v, h) && CoarseInv(Up, v, h, t) && CoarseAction(v, TaskCommit)
    ensures CoarseInv(Up, TaskMove(v, TaskCommit), h.Then(Emits(v, TaskCommit)), t.Then(Emits(v, TaskCommit)))
  {
    hide LegalPath, TellingPath, EdgesFit;
    if v.pc.Writing? && !v.pc.committed && v.pc.write.SetStatus? { PushLegal(h.path, v.pc.write.status); }
  }

  lemma CoarseSubmit(v: Job, h: Past, t: Told)
    requires Inv(Up, v, h) && CoarseInv(Up, v, h, t) && CoarseAction(v, TaskSubmit)
    ensures CoarseInv(Up, TaskMove(v, TaskSubmit), h.Then(Emits(v, TaskSubmit)), t.Then(Emits(v, TaskSubmit)))
  {
    hide LegalPath, TellingPath, EdgesFit;
    if v.pc.Sending? { PushTold(t, v.pc.message); }
  }

  lemma CoarseDispatch(v: Job, a: Action, h: Past, t: Told)
    requires a.Dispatch? || a.HandlerInsert? || a.HandlerCreate? || a.HandlerDies?
    requires Inv(Up, v, h) && CoarseInv(Up, v, h, t)
    ensures CoarseInv(Up, HandlerMove(v, a), h.Then(Emits(v, a)), t.Then(Emits(v, a)))
  {
    hide TellingPath, EdgesFit;
  }

  lemma CoarseHandlerSubmit(v: Job, h: Past, t: Told)
    requires Inv(Up, v, h) && CoarseInv(Up, v, h, t)
    ensures CoarseInv(Up, HandlerMove(v, HandlerSubmit), h.Then(Emits(v, HandlerSubmit)), t.Then(Emits(v, HandlerSubmit)))
  {
    hide LegalPath, TellingPath, EdgesFit, PrintedOnce, NoWayBack, RowIsLastCommit, Updated;
    match v.handler
    case Acking => PushTold(t, ReceivedMsg);
    case Resending(m) => PushTold(t, m);
    case CancelReporting => PushTold(t, CancelledMsg);
    case _ =>
  }

  lemma CoarseCancel(v: Job, a: Action, h: Past, t: Told)
    requires a.CancelBegin? || a.CancelRead? || a.CancelTask? || a.CancelCommit?
    requires Inv(Up, v, h) && CoarseInv(Up, v, h, t) && CoarseAction(v, a)
    ensures CoarseInv(Up, HandlerMove(v, a), h.Then(Emits(v, a)), t.Then(Emits(v, a)))
  {
    hide LegalPath, TellingPath, EdgesFit, Flatten, NotOnline, PrintedOnce;
    if a.CancelCommit? && v.handler.CancelWriting? { PushLegal(h.path, Cancelled); }
  }

  lemma CoarseRecovery(mode: Mode, v: Job, h: Past, t: Told)
    requires mode != Up && Inv(mode, v, h) && CoarseInv(mode, v, h, t)
    ensures mode == Down ==> CoarseInv(Recovering, Marked(v), h.Then(MarkEvent(v)), t.Then(MarkEvent(v)))
    ensures mode == Recovering ==> CoarseInv(Recovering, StuckReported(v), h.Then(StuckEvent(v)), t.Then(StuckEvent(v)))
    ensures v.handler.NoHandler? ==> CoarseInv(Up, Resumed(v), h, t)
  {
    hide LegalPath, TellingPath, EdgesFit;
    if v.row.Some? && v.row.value.status.Printing? { PushLegal(h.path, Failed); }
    if v.handler.StuckReporting? {
      PushTold(t, FailedMsg(Some(RESTARTED_CODE), Some(RESTARTED_TEXT)));
    }
  }

  lemma CoarseCrash(mode: Mode, v: Job, keep: nat, h: Past, t: Told)
    requires Inv(mode, v, h) && CoarseInv(mode, v, h, t)
    ensures var v' := Crashed(v, keep); CoarseInv(Down, v', h, Told(t.all, [v'.base], v'.base))
  {
    hide LegalPath, EdgesFit;
  }

  // ---- every coarse run ----------------------------------------------------------------

  lemma CoarseStep(v: Job, a: Action, h: Past, t: Told)
    requires Inv(Up, v, h) && CoarseInv(Up, v, h, t) && CoarseAction(v, a)
    ensures CoarseInv(Up, Moved(v, a), h.Then(Emits(v, a)), t.Then(Emits(v, a)))
  {
    hide Inv, CoarseInv, TaskMove, HandlerMove, Emits;
    if a.TaskCommit? { CoarseCommit(v, h, t); }
    else if a.TaskSubmit? { CoarseSubmit(v, h, t); }
    else if a.TaskRead? || a.TaskLocate? || a.TaskChunk? || a.TaskCheck? || a.TaskDies? { CoarseEarlyTask(v, a, h, t); }
    else if a.TaskResume? || a.TaskStatus? || a.TaskGate? { CoarseWaiting(v, a, h, t); }
    else if IsTaskAction(a) { CoarseLateTask(v, a, h, t); }
    else if a.OrphanCommits? || a.OrphanDropped? { CoarseOrphan(v, a, h, t); }
    else if a.HandlerSubmit? { CoarseHandlerSubmit(v, h, t); }
    else if a.CancelBegin? || a.CancelRead? || a.CancelTask? || a.CancelCommit? { CoarseCancel(v, a, h, t); }
    else { CoarseDispatch(v, a, h, t); }
  }

  /** Under the coarse schedule no write ever outlives its task. */
  lemma CoarseOrphan(v: Job, a: Action, h: Past, t: Told)
    requires CoarseInv(Up, v, h, t) && (a.OrphanCommits? || a.OrphanDropped?)
    ensures CoarseInv(Up, OrphanMove(v, a), h.Then(Emits(v, a)), t.Then(Emits(v, a)))
  {
    assert OrphanMove(v, a) == v;
  }

  function ToldNext(t: Told, v: Job, id: JobId, a: AgentAction): Told {
    if a.Crash? then var b := Touched(v, id, a).base; Told(t.all, [b], b) else t.Then(News(v, id, a))
  }

  lemma CoarseAgent(s: Agent, a: AgentAction, id: JobId, h: Past, t: Told)
    requires Enabled(s, a) && (a.OnJob? ==> CoarseAction(At(s, a.id), a.action))
    requires Inv(s.mode, At(s, id), h) && CoarseInv(s.mode, At(s, id), h, t)
    ensures
      var v := At(s, id);
      CoarseInv(NextMode(s.mode, a), Touched(v, id, a), h.Then(News(v, id, a)), ToldNext(t, v, id, a))
  {
    hide Inv, CoarseInv, Moved, Emits, Resumed, Marked, StuckReported;
    var v := At(s, id);
    match a
    case OnJob(i, b) => if i == id { CoarseStep(v, b, h, t); }
    case Crash(keep) => CoarseCrash(s.mode, v, if id in keep then keep[id] else MAX_BYTES + 1, h, t);
    case MarkStuck => CoarseRecovery(s.mode, v, h, t);
    case ReportStuck(_) => CoarseRecovery(s.mode, v, h, t);
    case StartNetwork => CoarseRecovery(s.mode, v, h, t);
  }

  lemma RecordedCoarse(mode: Mode, v: Job, e: Option<Event>, h: Past, t: Told)
    requires CoarseInv(mode, v, h, t)
    ensures CoarseInv(mode, Recorded(v, e), h, t)
  {
    hide LegalPath, TellingPath;
  }

  lemma ToldThen(v: Job, e: Option<Event>)
    requires v.since <= |v.log|
    ensures ToldOf(Recorded(v, e)) == ToldOf(v).Then(e)
  {
    hide Statuses, Messages, Prints;
    if e.Some? {
      var since := v.log[v.since..];
      assert (v.log + [e.value])[v.since..] == since + [e.value];
      LogPush(since, e.value);
      LogPush(v.log, e.value);
      if e.value.Submit? {
        assert StatusesTold(Messages(since) + [e.value.message]) ==
          StatusesTold(Messages(since)) + [StatusOf(e.value.message)];
      }
    }
  }

  lemma TouchedTold(v: Job, id: JobId, a: AgentAction)
    requires v.since <= |v.log|
    ensures Touched(v, id, a).since <= |v.log| && Touched(v, id, a).log == v.log
    ensures
      var b := Touched(v, id, a).base;
      ToldOf(Touched(v, id, a)) == if a.Crash? then Told(ToldOf(v).all, [b], b) else ToldOf(v)
  {
    TouchedKeepsPast(v, id, a);
    if a.Crash? {
      assert v.log[|v.log|..] == [];
    } else {
      hide Touched;
    }
  }

  ghost predicate CoarseAt(mode: Mode, v: Job) {
    v.since <= |v.log| && CoarseInv(mode, v, PastOf(v), ToldOf(v))
  }

  lemma NextCoarse(s: Agent, a: AgentAction, id: JobId)
    requires a.OnJob? ==> CoarseAction(At(s, a.id), a.action)
    requires Inv(s.mode, At(s, id), PastOf(At(s, id))) && CoarseAt(s.mode, At(s, id))
    ensures CoarseAt(AgentStep(s, a).mode, At(AgentStep(s, a), id))
  {
    hide Inv, CoarseInv, Touched, PastOf, ToldOf;
    if Enabled(s, a) {
      var v := At(s, id);
      var v', e := Touched(v, id, a), News(v, id, a);
      AtNext(s, a, id);
      CoarseAgent(s, a, id, PastOf(v), ToldOf(v));
      TouchedKeepsPast(v, id, a);
      TouchedTold(v, id, a);
      PastThen(v', e);
      ToldThen(v', e);
      RecordedCoarse(NextMode(s.mode, a), v', e, PastOf(v).Then(e), ToldNext(ToldOf(v), v, id, a));
    }
  }

  lemma {:induction false} AlwaysCoarse(run: seq<AgentAction>, id: JobId)
    requires CoarseRun(run)
    ensures CoarseAt(Exec(run).mode, At(Exec(run), id))
  {
    if run == [] {
    } else {
      AlwaysInv(run[..|run|-1], id);
      AlwaysCoarse(run[..|run|-1], id);
      NextCoarse(Exec(run[..|run|-1]), run[|run|-1], id);
    }
  }
}
