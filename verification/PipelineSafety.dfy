/** What holds of every job in every run of the pipeline, at the finest interleaving. */
module PipelineSafety {
  import opened Options
  import opened JobStatus
  import opened JobRow
  import opened Downloader
  import opened Pipeline

  // ---- the inductive invariant -----------------------------------------------------

  /** The only writes a task ever asks for. */
  predicate TaskWrite(w: Write) {
    w.SetFile? || w.status.Waiting? || w.status.Printing? || w.status.Completed?
    || (w.status.Failed? && w.code.Some? && w.text.Some?)
  }

  /** The stored statuses a write may be asked for in. */
  predicate WriteFits(w: Write, s: Status) {
    match w
    case SetFile => IsResumable(s)
    case SetStatus(x, _, _) =>
      if x == Completed then s == Printing
      else if x == Failed then IsResumable(s) || s == Printing
      else IsResumable(s)
  }

  /** The stored statuses a live task may find at each point. */
  predicate PcFits(pc: Pc, s: Status) {
    match pc
    case Idle => true
    case Writing(w, committed) =>
      if !committed then WriteFits(w, s) else if w.SetFile? then IsResumable(s) else s == w.status
    case Probing(waited) => if waited == 0 then IsResumable(s) else s == Waiting
    case PollGate(_) => s == Waiting
    case Sending(m) => s == StatusOf(m) && !m.ReceivedMsg? && !m.CancelledMsg?
    case ReadyToPrint => s == Printing
    case InPrint => s == Printing
    case _ => IsResumable(s)
  }

  /** Writes that belong to the part of the pipeline before PRINTING. */
  predicate BeforePrint(w: Write) {
    w.SetFile? || w.status.Waiting? || w.status.Printing?
  }

  /** What a job has done, in short: the committed statuses, how often PRINTING is among
      them, and how often `print` was called. */
  datatype Past = Past(path: seq<Status>, begun: nat, prints: nat) {
    function Then(e: Option<Event>): Past {
      if e.None? then this
      else match e.value
        case Commit(s, _, _) => Past(path + [s], if s.Printing? then begun + 1 else begun, prints)
        case PrintCall(_, _) => this.(prints := prints + 1)
        case _ => this
    }
  }

  function PastOf(v: Job): Past {
    Past(Statuses(v.log), multiset(Statuses(v.log))[Printing], |Prints(v.log)|)
  }

  /** The row mirrors the last commit, and `attempts` counts the commits after the insert. */
  predicate RowIsLastCommit(v: Job, h: Past) {
    if v.row.None? then h.path == []
    else |h.path| == v.row.value.attempts + 1 && h.path[|h.path|-1] == v.row.value.status
  }

  predicate HandlerFits(mode: Mode, v: Job) {
    match v.handler
    case NoHandler => true
    case Inserting(_) => mode == Up && v.row.None?
    case Acking => mode == Up && v.row.Some? && v.row.value.status == Received && v.pc.Idle? && v.orphan.None?
    case Creating => mode == Up && v.row.Some? && v.row.value.status == Received && v.pc.Idle? && v.orphan.None?
    case Resending(m) => mode == Up && v.row.Some? && IsTerminal(StatusOf(m))
    case CancelFlagged => mode == Up && (!v.pc.Idle? ==> v.cancelRequested)
    case CancelChosen =>
      mode == Up && v.row.Some? && !v.row.value.status.Cancelled? && (!v.pc.Idle? ==> v.cancelRequested)
    case CancelWriting => mode == Up && v.row.Some? && !v.row.value.status.Cancelled? && v.pc.Idle?
    case CancelReporting => mode == Up && v.row.Some? && v.pc.Idle?
    case StuckReporting => mode == Recovering && v.row.Some? && v.row.value.status == Failed
  }

  predicate TaskFits(v: Job) {
    && (v.row.Some? ==> !v.row.value.status.Queued?)
    && (!v.pc.Idle? ==> v.row.Some? && v.orphan.None? && PcFits(v.pc, v.row.value.status))
    && (v.pc.Writing? ==> TaskWrite(v.pc.write))
    && (v.orphan.Some? ==>
          && v.row.Some? && TaskWrite(v.orphan.value)
          && (v.row.value.status == Cancelled || WriteFits(v.orphan.value, v.row.value.status)))
  }

  /** Once PRINTING is stored, nothing that leads back before it is left anywhere. */
  predicate NoWayBack(v: Job, h: Past) {
    && (v.row.Some? && v.row.value.status.Printing? ==> h.begun == 1)
    && (h.begun > 0 ==>
          && v.row.Some? && !IsResumable(v.row.value.status)
          && (v.orphan.Some? ==> !BeforePrint(v.orphan.value)))
  }

  predicate PrintedOnce(v: Job, h: Past) {
    && h.begun <= 1
    && h.prints <= 1
    && (h.prints > 0 ==>
          && h.begun > 0
          && !(v.pc.Sending? && v.pc.message.StartedMsg?) && !v.pc.ReadyToPrint?
          && (v.pc.Writing? && v.pc.write.SetStatus? ==> !v.pc.write.status.Printing?))
  }

  /** An edge the transition table does not have touches CANCELLED. */
  predicate EdgeFits(a: Status, b: Status) {
    IsLegal(a, b) || a == Cancelled || b == Cancelled
  }

  predicate EdgesFit(path: seq<Status>) {
    && (path != [] ==> path[0] == Received)
    && forall i :: 0 < i < |path| ==> EdgeFits(path[i-1], path[i])
  }

  predicate Inv(mode: Mode, v: Job, h: Past) {
    && (mode != Up ==> v.pc.Idle? && v.orphan.None?)
    && RowIsLastCommit(v, h)
    && HandlerFits(mode, v)
    && TaskFits(v)
    && NoWayBack(v, h)
    && PrintedOnce(v, h)
    && EdgesFit(h.path)
  }

  /** Adding a fitting status to a fitting history. */
  lemma PushEdge(path: seq<Status>, b: Status)
    requires EdgesFit(path)
    requires if path == [] then b == Received else EdgeFits(path[|path|-1], b)
    ensures EdgesFit(path + [b])
  {
  }

  /** A commit in a status that the write fits in, or over CANCELLED. */
  lemma CommitKeeps(v: Job, w: Write, h: Past)
    requires v.row.Some? && RowIsLastCommit(v, h) && EdgesFit(h.path)
    requires w.SetStatus? ==> EdgeFits(v.row.value.status, w.status)
    ensures
      var h' := h.Then(CommitEvent(v, w));
      RowIsLastCommit(Committed(v, w), h') && EdgesFit(h'.path)
  {
    if w.SetStatus? { PushEdge(h.path, w.status); }
  }

  lemma TaskDownloadKeeps(v: Job, a: Action, h: Past)
    requires Inv(Up, v, h) && (a.TaskRead? || a.TaskLocate? || a.TaskChunk?)
    ensures Inv(Up, TaskMove(v, a), h.Then(Emits(v, a)))
  {
    hide EdgesFit, Flatten;
  }

  lemma TaskCommitKeeps(v: Job, h: Past)
    requires Inv(Up, v, h)
    ensures Inv(Up, TaskMove(v, TaskCommit), h.Then(Emits(v, TaskCommit)))
  {
    hide EdgesFit;
    if v.pc.Writing? && !v.pc.committed { CommitKeeps(v, v.pc.write, h); }
  }

  lemma TaskMoveKeeps(v: Job, a: Action, h: Past)
    requires Inv(Up, v, h) && (a.TaskStatus? || a.TaskGate? || a.TaskDies?)
    ensures Inv(Up, TaskMove(v, a), h.Then(Emits(v, a)))
  {
    hide EdgesFit, NotOnline, EdgeFits, Flatten;
  }

  lemma TaskGoesOnKeeps(v: Job, a: Action, h: Past)
    requires Inv(Up, v, h) && (a.TaskResume? || a.TaskCheck?)
    ensures Inv(Up, TaskMove(v, a), h.Then(Emits(v, a)))
  {
    hide EdgesFit, NotOnline, EdgeFits, Flatten;
  }

  lemma TaskCallPrintKeeps(v: Job, a: Action, h: Past)
    requires Inv(Up, v, h) && a.TaskCallPrint?
    ensures Inv(Up, TaskMove(v, a), h.Then(Emits(v, a)))
  {
    hide EdgesFit;
  }

  lemma TaskOutcomeKeeps(v: Job, a: Action, h: Past)
    requires Inv(Up, v, h) && (a.TaskSubmit? || a.TaskPrintReturns? || a.TaskPrintRaises?)
    ensures Inv(Up, TaskMove(v, a), h.Then(Emits(v, a)))
  {
    hide EdgesFit;
  }

  lemma OrphanKeeps(v: Job, a: Action, h: Past)
    requires Inv(Up, v, h) && (a.OrphanCommits? || a.OrphanDropped?)
    ensures Inv(Up, OrphanMove(v, a), h.Then(Emits(v, a)))
  {
    hide EdgesFit;
    if a.OrphanCommits? && v.orphan.Some? { CommitKeeps(v, v.orphan.value, h); }
  }

  lemma DispatchKeeps(v: Job, a: Action, h: Past)
    requires Inv(Up, v, h) && (a.Dispatch? || a.HandlerInsert? || a.HandlerCreate?)
    ensures Inv(Up, HandlerMove(v, a), h.Then(Emits(v, a)))
  {
  }

  lemma CancelKeeps(v: Job, a: Action, h: Past)
    requires Inv(Up, v, h) && (a.CancelTask? || a.CancelCommit?)
    ensures Inv(Up, HandlerMove(v, a), h.Then(Emits(v, a)))
  {
    hide EdgesFit;
    if a.CancelCommit? && v.handler.CancelWriting? { CommitKeeps(v, SetStatus(Cancelled, None, None), h); }
  }

  lemma HandlerSubmitKeeps(v: Job, h: Past)
    requires Inv(Up, v, h)
    ensures Inv(Up, HandlerMove(v, HandlerSubmit), h.Then(Emits(v, HandlerSubmit)))
  {
    hide EdgesFit;
  }

  lemma HandlerOtherKeeps(v: Job, a: Action, h: Past)
    requires Inv(Up, v, h) && (a.CancelBegin? || a.CancelRead? || a.HandlerDies?)
    ensures Inv(Up, HandlerMove(v, a), h.Then(Emits(v, a)))
  {
    hide EdgesFit;
  }

  lemma StepKeeps(v: Job, a: Action, h: Past)
    requires Inv(Up, v, h)
    ensures Inv(Up, Moved(v, a), h.Then(Emits(v, a)))
  {
    hide Inv, Emits, TaskMove, HandlerMove, OrphanMove;
    match a
    case TaskRead => TaskDownloadKeeps(v, a, h);
    case TaskLocate(_) => TaskDownloadKeeps(v, a, h);
    case TaskChunk => TaskDownloadKeeps(v, a, h);
    case TaskCommit => TaskCommitKeeps(v, h);
    case TaskResume => TaskGoesOnKeeps(v, a, h);
    case TaskCheck => TaskGoesOnKeeps(v, a, h);
    case TaskSubmit => TaskOutcomeKeeps(v, a, h);
    case TaskCallPrint => TaskCallPrintKeeps(v, a, h);
    case TaskPrintReturns => TaskOutcomeKeeps(v, a, h);
    case TaskPrintRaises(_) => TaskOutcomeKeeps(v, a, h);
    case OrphanCommits => OrphanKeeps(v, a, h);
    case OrphanDropped => OrphanKeeps(v, a, h);
    case Dispatch(_) => DispatchKeeps(v, a, h);
    case HandlerInsert => DispatchKeeps(v, a, h);
    case HandlerCreate => DispatchKeeps(v, a, h);
    case CancelTask => CancelKeeps(v, a, h);
    case CancelCommit => CancelKeeps(v, a, h);
    case HandlerSubmit => HandlerSubmitKeeps(v, h);
    case CancelBegin => HandlerOtherKeeps(v, a, h);
    case CancelRead => HandlerOtherKeeps(v, a, h);
    case HandlerDies => HandlerOtherKeeps(v, a, h);
    case _ => TaskMoveKeeps(v, a, h);
  }

  lemma RecoveryKeeps(v: Job, h: Past)
    ensures Inv(Down, v, h) ==> Inv(Recovering, Marked(v), h.Then(MarkEvent(v)))
    ensures Inv(Recovering, v, h) ==> Inv(Recovering, StuckReported(v), h.Then(StuckEvent(v)))
  {
    if Inv(Down, v, h) && v.row.Some? && v.row.value.status.Printing? { PushEdge(h.path, Failed); }
  }

  lemma RecordedKeeps(mode: Mode, v: Job, e: Option<Event>, h: Past)
    requires Inv(mode, v, h)
    ensures Inv(mode, Recorded(v, e), h)
  {
    hide EdgesFit;
  }

  lemma PastThen(v: Job, e: Option<Event>)
    ensures PastOf(Recorded(v, e)) == PastOf(v).Then(e)
  {
    if e.Some? { LogPush(v.log, e.value); }
  }

  // ---- every run ---------------------------------------------------------------------

  /** One step of the agent, seen from one job. */
  lemma AgentKeeps(s: Agent, a: AgentAction, id: JobId, h: Past)
    requires Enabled(s, a) && Inv(s.mode, At(s, id), h)
    ensures Inv(NextMode(s.mode, a), Touched(At(s, id), id, a), h.Then(News(At(s, id), id, a)))
  {
    var v := At(s, id);
    match a
    case OnJob(i, b) => if i == id { StepKeeps(v, b, h); }
    case MarkStuck => RecoveryKeeps(v, h);
    case ReportStuck(_) => RecoveryKeeps(v, h);
    case _ =>
  }

  lemma TouchedKeepsPast(v: Job, id: JobId, a: AgentAction)
    ensures Touched(v, id, a).log == v.log && PastOf(Touched(v, id, a)) == PastOf(v)
    ensures !a.Crash? ==> Touched(v, id, a).since == v.since && Touched(v, id, a).base == v.base
  {
    hide Flatten, NotOnline, Statuses, Prints;
  }

  /** How one job moves in one step of the agent. */
  lemma AtNext(s: Agent, a: AgentAction, id: JobId)
    ensures Enabled(s, a) ==>
      At(AgentStep(s, a), id) == Recorded(Touched(At(s, id), id, a), News(At(s, id), id, a))
  {
  }

  lemma NextInv(s: Agent, a: AgentAction, id: JobId)
    requires Inv(s.mode, At(s, id), PastOf(At(s, id)))
    ensures var s' := AgentStep(s, a); Inv(s'.mode, At(s', id), PastOf(At(s', id)))
  {
    hide Inv, Touched, News, PastOf;
    if Enabled(s, a) {
      var v := At(s, id);
      var e := News(v, id, a);
      AtNext(s, a, id);
      AgentKeeps(s, a, id, PastOf(v));
      TouchedKeepsPast(v, id, a);
      PastThen(Touched(v, id, a), e);
      RecordedKeeps(NextMode(s.mode, a), Touched(v, id, a), e, PastOf(v).Then(e));
    }
  }

  lemma {:induction false} AlwaysInv(run: seq<AgentAction>, id: JobId)
    ensures var s := Exec(run); Inv(s.mode, At(s, id), PastOf(At(s, id)))
  {
    if run == [] {
    } else {
      AlwaysInv(run[..|run|-1], id);
      NextInv(Exec(run[..|run|-1]), run[|run|-1], id);
    }
  }
}
