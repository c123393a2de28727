/** The order of causes in a job's history: nothing is reported before it is committed,
    nothing is completed before a print returned, nothing is printed but a whole download. */
module PipelineHistory {
  import opened Options
  import opened JobStatus
  import opened JobRow
  import opened Downloader
  import opened Pipeline
  import opened PipelineSafety

  /** The commit that must come before a message. */
  function CommitOf(m: Message): Event {
    if m.FailedMsg? then Commit(Failed, m.code, m.text) else Commit(StatusOf(m), None, None)
  }

  const PRINTING_COMMIT := Commit(Printing, None, None)

  /** `content` is, byte for byte, a download that ended well. */
  ghost predicate WholeDownload(past: seq<Event>, content: Bytes) {
    && 0 < |content| <= MAX_BYTES
    && exists chunks :: Downloaded(chunks) in past && Flatten(chunks) == content
  }

  ghost predicate HasPrintCall(past: seq<Event>) {
    exists i :: 0 <= i < |past| && past[i].PrintCall?
  }

  /** What must already have happened when `e` happens. */
  ghost predicate Caused(past: seq<Event>, e: Event) {
    match e
    case Submit(m) => CommitOf(m) in past
    case Commit(s, _, _) => (s.Completed? ==> PrintReturned in past) && (s.Cancelled? ==> CancelAccepted in past)
    case PrintCall(_, content) => PRINTING_COMMIT in past && content.Some? && WholeDownload(past, content.value)
    case PrintReturned => HasPrintCall(past)
    case _ => true
  }

  ghost predicate Causal(log: seq<Event>) {
    forall i :: 0 <= i < |log| ==> Caused(log[..i], log[i])
  }

  // ---- the inductive invariant -----------------------------------------------------

  ghost predicate WriteReady(log: seq<Event>, w: Write) {
    w.SetStatus? ==>
      && (!w.status.Failed? ==> w.code.None? && w.text.None?)
      && (w.status.Completed? ==> PrintReturned in log)
      && !w.status.Cancelled?
  }

  ghost predicate PcReady(log: seq<Event>, pc: Pc) {
    match pc
    case Writing(w, committed) =>
      WriteReady(log, w) && (committed && w.SetStatus? ==> Commit(w.status, w.code, w.text) in log)
    case Sending(m) => CommitOf(m) in log
    case ReadyToPrint => PRINTING_COMMIT in log
    case InPrint => HasPrintCall(log)
    case _ => true
  }

  ghost predicate HandlerReady(log: seq<Event>, handler: Handler) {
    match handler
    case Acking => CommitOf(ReceivedMsg) in log
    case Resending(m) => CommitOf(m) in log
    case CancelChosen => CancelAccepted in log
    case CancelWriting => CancelAccepted in log
    case CancelReporting => CommitOf(CancelledMsg) in log
    case StuckReporting => CommitOf(FailedMsg(Some(RESTARTED_CODE), Some(RESTARTED_TEXT))) in log
    case _ => true
  }

  /** The points at which a task holds the path of a finished download. */
  predicate HoldsFile(pc: Pc) {
    match pc
    case Writing(w, _) => BeforePrint(w)
    case Sending(m) => m.StartedMsg?
    case CheckBeforeWait => true
    case Probing(_) => true
    case PollGate(_) => true
    case CheckBeforePrint => true
    case ReadyToPrint => true
    case _ => false
  }

  ghost predicate FileReady(v: Job, log: seq<Event>) {
    && (v.file.Some? ==> |v.file.value| <= MAX_BYTES)
    && ((v.row.Some? && v.row.value.hasFile) || HoldsFile(v.pc) || (v.orphan.Some? && v.orphan.value.SetFile?) ==>
          v.file.Some? && WholeDownload(log, v.file.value))
    && (v.pc.Located? ==> v.row.Some? && v.pc.hasFile == v.row.value.hasFile)
    && (v.pc.Downloading? ==> v.row.Some? && !v.row.value.hasFile && v.file == Some(Flatten(v.pc.got)))
  }

  ghost predicate RowReady(v: Job, log: seq<Event>) {
    v.row.Some? && IsTerminal(v.row.value.status) ==> CommitOf(Report(v.row.value)) in log
  }

  ghost predicate Ready(v: Job, log: seq<Event>) {
    && RowReady(v, log)
    && PcReady(log, v.pc)
    && (v.orphan.Some? ==> WriteReady(log, v.orphan.value))
    && HandlerReady(log, v.handler)
  }

  function Grown(log: seq<Event>, e: Option<Event>): seq<Event> {
    if e.None? then log else log + [e.value]
  }

  ghost predicate CausedIfAny(log: seq<Event>, e: Option<Event>) {
    e.Some? ==> Caused(log, e.value)
  }

  lemma PushCause(log: seq<Event>, e: Option<Event>)
    requires Causal(log) && CausedIfAny(log, e)
    ensures Causal(Grown(log, e))
  {
    if e.Some? {
      var log' := log + [e.value];
      forall i | 0 <= i < |log'| ensures Caused(log'[..i], log'[i]) {
        assert log'[..i] == log[..i];
        if i == |log| { assert log[..i] == log; }
      }
    }
  }

  lemma PrintCallStays(log: seq<Event>, e: Event)
    ensures HasPrintCall(log) || e.PrintCall? ==> HasPrintCall(log + [e])
  {
    if HasPrintCall(log) {
      var i :| 0 <= i < |log| && log[i].PrintCall?;
      assert (log + [e])[i].PrintCall?;
    } else if e.PrintCall? {
      assert (log + [e])[|log|].PrintCall?;
    }
  }

  /** A write that is ready leaves a row whose report is backed by its own commit. */
  lemma CommitReady(v: Job, w: Write, log: seq<Event>)
    requires TaskWrite(w) && WriteReady(log, w) && v.row.Some? && RowReady(v, log)
    ensures RowReady(Committed(v, w), Grown(log, CommitEvent(v, w))) && CausedIfAny(log, CommitEvent(v, w))
  {
  }

  lemma TaskCommitReady(v: Job, log: seq<Event>)
    requires TaskFits(v) && Ready(v, log)
    ensures Ready(TaskMove(v, TaskCommit), Grown(log, Emits(v, TaskCommit))) && CausedIfAny(log, Emits(v, TaskCommit))
  {
    hide PcFits;
    if v.pc.Writing? && !v.pc.committed {
      if Emits(v, TaskCommit).Some? { PrintCallStays(log, Emits(v, TaskCommit).value); }
      CommitReady(v, v.pc.write, log);
    }
  }

  lemma TaskReady(v: Job, a: Action, log: seq<Event>)
    requires IsTaskAction(a) && TaskFits(v) && Ready(v, log) && FileReady(v, log)
    ensures Ready(TaskMove(v, a), Grown(log, Emits(v, a))) && CausedIfAny(log, Emits(v, a))
  {
    hide TaskFits, Ready, FileReady, TaskMove, Emits, Grown, CausedIfAny;
    if a.TaskCommit? {
      TaskCommitReady(v, log);
    } else if a.TaskSubmit? || a.TaskCallPrint? || a.TaskPrintReturns? || a.TaskPrintRaises? {
      PrintReady(v, a, log);
    } else {
      EarlyReady(v, a, log);
    }
  }

  lemma PrintReady(v: Job, a: Action, log: seq<Event>)
    requires a.TaskSubmit? || a.TaskCallPrint? || a.TaskPrintReturns? || a.TaskPrintRaises?
    requires TaskFits(v) && Ready(v, log) && FileReady(v, log)
    ensures Ready(TaskMove(v, a), Grown(log, Emits(v, a))) && CausedIfAny(log, Emits(v, a))
  {
    hide Flatten, NotOnline, PcFits;
    if Emits(v, a).Some? { PrintCallStays(log, Emits(v, a).value); }
  }

  lemma EarlyReady(v: Job, a: Action, log: seq<Event>)
    requires a.TaskRead? || a.TaskLocate? || a.TaskChunk? || a.TaskResume? || a.TaskCheck? || a.TaskStatus? || a.TaskGate?
      || a.TaskDies?
    requires TaskFits(v) && Ready(v, log)
    ensures Ready(TaskMove(v, a), Grown(log, Emits(v, a))) && CausedIfAny(log, Emits(v, a))
  {
    hide Flatten, NotOnline, PcFits, WholeDownload, HasPrintCall;
    if Emits(v, a).Some? { PrintCallStays(log, Emits(v, a).value); }
  }

  lemma HandlerReadyKept(v: Job, a: Action, log: seq<Event>)
    requires !IsTaskAction(a) && !a.OrphanCommits? && HandlerFits(Up, v) && Ready(v, log)
    ensures Ready(HandlerMove(v, a), Grown(log, Emits(v, a))) && CausedIfAny(log, Emits(v, a))
  {
    if Emits(v, a).Some? { PrintCallStays(log, Emits(v, a).value); }
  }

  lemma OrphanReady(v: Job, a: Action, log: seq<Event>)
    requires (a.OrphanCommits? || a.OrphanDropped?) && TaskFits(v) && Ready(v, log)
    ensures Ready(OrphanMove(v, a), Grown(log, Emits(v, a))) && CausedIfAny(log, Emits(v, a))
  {
    if Emits(v, a).Some? { PrintCallStays(log, Emits(v, a).value); }
    if a.OrphanCommits? && v.orphan.Some? { CommitReady(v, v.orphan.value, log); }
  }

  lemma RecoveryReady(v: Job, log: seq<Event>)
    requires TaskFits(v) && Ready(v, log)
    ensures v.pc.Idle? && v.orphan.None? ==> Ready(Marked(v), Grown(log, MarkEvent(v))) && CausedIfAny(log, MarkEvent(v))
    ensures v.pc.Idle? && v.orphan.None? ==> Ready(StuckReported(v), Grown(log, StuckEvent(v))) && CausedIfAny(log, StuckEvent(v))
  {
  }

  lemma TaskFileReady(v: Job, a: Action, log: seq<Event>)
    requires IsTaskAction(a) && TaskFits(v) && FileReady(v, log)
    ensures FileReady(TaskMove(v, a), Grown(log, Emits(v, a)))
  {
    hide NotOnline, PcFits;
    if a.TaskChunk? && v.pc.Downloading? {
      if v.pc.todo != [] { FlattenPush(v.pc.got, v.pc.todo[0]); }
    }
  }

  lemma HandlerFileReady(v: Job, a: Action, log: seq<Event>)
    requires !IsTaskAction(a) && HandlerFits(Up, v) && FileReady(v, log)
    ensures FileReady(HandlerMove(v, a), Grown(log, Emits(v, a)))
  {
    hide Flatten;
  }

  lemma RestFileReady(v: Job, a: Action, keep: nat, log: seq<Event>)
    requires TaskFits(v) && FileReady(v, log)
    ensures FileReady(Crashed(v, keep), log)
    ensures a.OrphanCommits? || a.OrphanDropped? ==> FileReady(OrphanMove(v, a), Grown(log, Emits(v, a)))
    ensures FileReady(Marked(v), Grown(log, MarkEvent(v)))
    ensures FileReady(StuckReported(v), Grown(log, StuckEvent(v)))
    ensures v.pc.Idle? ==> FileReady(Resumed(v), log)
  {
    hide Flatten;
  }

  /** One step of the agent, seen from one job. */
  lemma AgentReady(s: Agent, a: AgentAction, id: JobId, h: Past, log: seq<Event>)
    requires Enabled(s, a) && Inv(s.mode, At(s, id), h) && Ready(At(s, id), log) && FileReady(At(s, id), log)
    ensures
      var v, e := Touched(At(s, id), id, a), News(At(s, id), id, a);
      Ready(v, Grown(log, e)) && FileReady(v, Grown(log, e)) && CausedIfAny(log, e)
  {
    hide TaskMove, HandlerMove, OrphanMove, Emits, Ready, FileReady, Flatten;
    var v := At(s, id);
    match a
    case OnJob(i, b) =>
      if i == id {
        if IsTaskAction(b) { TaskReady(v, b, log); TaskFileReady(v, b, log); }
        else if b.OrphanCommits? || b.OrphanDropped? { OrphanReady(v, b, log); RestFileReady(v, b, 0, log); }
        else { HandlerReadyKept(v, b, log); HandlerFileReady(v, b, log); }
      }
    case Crash(keep) => CrashReady(v, if id in keep then keep[id] else MAX_BYTES + 1, log);
    case MarkStuck => RecoveryReady(v, log); RestFileReady(v, OrphanDropped, 0, log);
    case ReportStuck(_) => RecoveryReady(v, log); RestFileReady(v, OrphanDropped, 0, log);
    case StartNetwork => CrashReady(v, 0, log);
  }

  lemma CrashReady(v: Job, keep: nat, log: seq<Event>)
    requires TaskFits(v) && Ready(v, log) && FileReady(v, log)
    ensures Ready(Crashed(v, keep), log) && FileReady(Crashed(v, keep), log)
    ensures v.pc.Idle? ==> Ready(Resumed(v), log) && FileReady(Resumed(v), log)
  {
    RestFileReady(v, OrphanDropped, keep, log);
  }

  lemma RecordedReady(v: Job, e: Option<Event>, log: seq<Event>)
    requires Ready(v, log) && FileReady(v, log)
    ensures Ready(Recorded(v, e), log) && FileReady(Recorded(v, e), log)
  {
  }

  ghost predicate History(v: Job) {
    Causal(v.log) && Ready(v, v.log) && FileReady(v, v.log)
  }

  lemma NextHistory(s: Agent, a: AgentAction, id: JobId)
    requires Inv(s.mode, At(s, id), PastOf(At(s, id))) && History(At(s, id))
    ensures History(At(AgentStep(s, a), id))
  {
    hide Inv, Touched, News, PastOf, Ready, FileReady, Causal;
    if Enabled(s, a) {
      var v := At(s, id);
      var e := News(v, id, a);
      AtNext(s, a, id);
      AgentReady(s, a, id, PastOf(v), v.log);
      TouchedKeepsPast(v, id, a);
      PushCause(v.log, e);
      RecordedReady(Touched(v, id, a), e, Grown(v.log, e));
    }
  }

  lemma {:induction false} AlwaysHistory(run: seq<AgentAction>, id: JobId)
    ensures History(At(Exec(run), id))
  {
    if run == [] {
    } else {
      AlwaysInv(run[..|run|-1], id);
      AlwaysHistory(run[..|run|-1], id);
      NextHistory(Exec(run[..|run|-1]), run[|run|-1], id);
    }
  }
}
