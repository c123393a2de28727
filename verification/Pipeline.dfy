/** The print pipeline as a step machine.

    One `Job` value holds everything the agent knows and has done for one job id: the
    persistent row and file, the volatile task, cancel flag and handler, and the history
    of what was committed, submitted and printed. Every `await` of the source is a step
    boundary, and a database write already handed to a thread can still commit after the
    task that asked for it was cancelled (`orphan`).

    An `Action` names one step together with whatever the environment decides in it, so a
    run is a sequence of actions and `Exec` is what the agent does in it. */
module Pipeline {
  import opened Options
  import opened JobStatus
  import opened JobRow
  import opened Downloader

  const PRINTER_OFFLINE := "PRINTER_OFFLINE"
  const PRINTER_ERROR := "PRINTER_ERROR"

  function NotOnline(printer: string): string {
    "Printer " + printer + " did not come online"
  }

  const POLL_SECONDS := 5
  const MAX_WAIT_SECONDS := 60

  datatype Event =
    | Commit(status: Status, code: Option<string>, text: Option<string>)
    | Submit(message: Message)
    | CancelAccepted
    | Downloaded(chunks: seq<Bytes>)
    | PrintCall(order: Order, content: Option<Bytes>)
    | PrintReturned

  datatype Write = SetFile | SetStatus(status: Status, code: Option<string>, text: Option<string>)

  /** Where a `_process` task is. `Idle` also stands for a task that has ended. */
  datatype Pc =
    | Idle
    | Created
    | Located(hasFile: bool)
    | Downloading(got: seq<Bytes>, todo: seq<Bytes>, ending: Ending)
    | Writing(write: Write, committed: bool)
    | CheckBeforeWait
    | Probing(waited: nat)
    | PollGate(waited: nat)
    | CheckBeforePrint
    | Sending(message: Message)
    | ReadyToPrint
    | InPrint

  /** Where the inbound message handler is, while it is at work on this job. */
  datatype Handler =
    | NoHandler
    | Inserting(order: Order)
    | Acking
    | Creating
    | Resending(message: Message)
    | CancelFlagged
    | CancelChosen
    | CancelWriting
    | CancelReporting
    | StuckReporting

  datatype Job = Job(
    row: Option<Row>, file: Option<Bytes>,
    pc: Pc, cancelRequested: bool, orphan: Option<Write>, handler: Handler, probes: nat,
    log: seq<Event>, lives: nat, base: Status, since: nat)

  const FRESH := Job(None, None, Idle, false, None, NoHandler, 0, [], 0, Queued, 0)

  datatype Action =
    | TaskRead
    | TaskLocate(source: Source)
    | TaskChunk
    | TaskCommit
    | TaskResume
    | TaskCheck
    | TaskStatus(online: bool)
    | TaskGate
    | TaskSubmit
    | TaskCallPrint
    | TaskPrintReturns
    | TaskPrintRaises(text: string)
    | TaskDies
    | OrphanCommits
    | OrphanDropped
    | Dispatch(order: Order)
    | HandlerInsert
    | HandlerSubmit
    | HandlerCreate
    | CancelBegin
    | CancelRead
    | CancelTask
    | CancelCommit
    | HandlerDies

  // ---- one step of one job -------------------------------------------------------

  predicate Live(v: Job) { !v.pc.Idle? }

  /** The commit of a write. Updating a missing row changes nothing. */
  function Committed(v: Job, w: Write): Job {
    if v.row.None? then v
    else match w
      case SetFile => v.(row := Some(v.row.value.(hasFile := true)))
      case SetStatus(s, c, t) => v.(row := Some(Updated(v.row.value, s, c, t)))
  }

  function CommitEvent(v: Job, w: Write): Option<Event> {
    if v.row.Some? && w.SetStatus? then Some(Commit(w.status, w.code, w.text)) else None
  }

  /** The task leaves through its `finally` block, unless it was still ahead of it. */
  function Left(v: Job): Job {
    v.(pc := Idle, cancelRequested := if v.pc.Created? then v.cancelRequested else false)
  }

  /** `task.cancel()`: the task runs no further statement of its own, and a write that is
      already with a thread is on its own from now on. */
  function Killed(v: Job): Job {
    if !Live(v) then v
    else if v.pc.Writing? && !v.pc.committed then Left(v).(orphan := Some(v.pc.write))
    else Left(v)
  }

  function Failing(v: Job, code: string, text: string): Job {
    v.(pc := Writing(SetStatus(Failed, Some(code), Some(text)), false))
  }

  function Offline(v: Job): Job {
    Failing(v, PRINTER_OFFLINE,
            NotOnline(if v.row.Some? then v.row.value.order.printer else ""))
  }

  /** What the task does once its write has come back. */
  function AfterWrite(w: Write): Pc {
    match w
    case SetFile => CheckBeforeWait
    case SetStatus(Waiting, _, _) => PollGate(0)
    case SetStatus(Printing, _, _) => Sending(StartedMsg)
    case SetStatus(Completed, _, _) => Sending(CompletedMsg)
    case SetStatus(Failed, c, t) => Sending(FailedMsg(c, t))
    case SetStatus(_, _, _) => Idle
  }

  function Locate(v: Job, source: Source): Job
    requires v.pc.Located?
  {
    if v.pc.hasFile && v.file.Some? then v.(pc := CheckBeforeWait)
    else match source
      case Refused(code, text) => Failing(v, code, text)
      case Stream(chunks, ending) => v.(file := Some([]), pc := Downloading([], chunks, ending))
  }

  function Chunk(v: Job): Job
    requires v.pc.Downloading?
  {
    var Downloading(got, todo, ending) := v.pc;
    if todo != [] then
      if |Flatten(got)| + |todo[0]| > MAX_BYTES
      then Failing(v, DOWNLOAD_FAILED, TOO_LARGE)
      else v.(file := Some(Flatten(got) + todo[0]), pc := Downloading(got + [todo[0]], todo[1..], ending))
    else if ending.Broken? then Failing(v, ending.code, ending.text)
    else if |Flatten(got)| == 0 then Failing(v, DOWNLOAD_FAILED, EMPTY_DOCUMENT)
    else v.(pc := Writing(SetFile, false))
  }

  function StatusRead(v: Job, online: bool): Job
    requires v.pc.Probing?
  {
    var r := v.(probes := v.probes + 1);
    if online then r.(pc := CheckBeforePrint)
    else if v.pc.waited == 0 then r.(pc := Writing(SetStatus(Waiting, None, None), false))
    else r.(pc := PollGate(v.pc.waited))
  }

  function Gate(v: Job): Job
    requires v.pc.PollGate?
  {
    if v.pc.waited >= MAX_WAIT_SECONDS || v.cancelRequested then Offline(v)
    else v.(pc := Probing(v.pc.waited + POLL_SECONDS))
  }

  /** One step of the task of a job. A step that is not the task's next one does nothing. */
  function TaskMove(v: Job, a: Action): Job {
    match a
    case TaskRead =>
      if !v.pc.Created? then v
      else if v.row.None? then v.(pc := Idle)
      else v.(pc := Located(v.row.value.hasFile))
    case TaskLocate(source) => if v.pc.Located? then Locate(v, source) else v
    case TaskChunk => if v.pc.Downloading? then Chunk(v) else v
    case TaskCommit =>
      if v.pc.Writing? && !v.pc.committed then Committed(v, v.pc.write).(pc := Writing(v.pc.write, true)) else v
    case TaskResume =>
      if v.pc.Writing? && v.pc.committed then v.(pc := AfterWrite(v.pc.write)) else v
    case TaskCheck =>
      if !v.pc.CheckBeforeWait? && !v.pc.CheckBeforePrint? then v
      else if v.cancelRequested then Left(v)
      else if v.pc.CheckBeforeWait? then v.(pc := Probing(0))
      else v.(pc := Writing(SetStatus(Printing, None, None), false))
    case TaskStatus(online) => if v.pc.Probing? then StatusRead(v, online) else v
    case TaskGate => if v.pc.PollGate? then Gate(v) else v
    case TaskSubmit =>
      if !v.pc.Sending? then v
      else if v.pc.message.StartedMsg? then v.(pc := ReadyToPrint)
      else Left(v)
    case TaskCallPrint =>
      if v.pc.ReadyToPrint? && v.row.Some?
      then v.(pc := InPrint) else v
    case TaskPrintReturns =>
      if v.pc.InPrint?
      then v.(pc := Writing(SetStatus(Completed, None, None), false)) else v
    case TaskPrintRaises(text) => if v.pc.InPrint? then Failing(v, PRINTER_ERROR, text) else v
    case TaskDies => if Live(v) then Left(v) else v
    case _ => v
  }

  /** One step of the handler of inbound messages, while it is at work on this job. */
  function HandlerMove(v: Job, a: Action): Job {
    match a
    case Dispatch(order) =>
      if !v.handler.NoHandler? then v
      else if v.row.None? then v.(handler := Inserting(order))
      else if IsTerminal(v.row.value.status) then v.(handler := Resending(Report(v.row.value)))
      else v
    case HandlerInsert =>
      if !v.handler.Inserting? then v
      else if v.row.None? then
        v.(row := Some(NewRow(v.handler.order)), handler := Acking)
      else if IsTerminal(v.row.value.status) then v.(handler := Resending(Report(v.row.value)))
      else v.(handler := NoHandler)
    case HandlerSubmit =>
      (match v.handler
       case Acking => v.(handler := Creating)
       case Resending(m) => v.(handler := NoHandler)
       case CancelReporting => v.(handler := NoHandler)
       case _ => v)
    case HandlerCreate =>
      if v.handler.Creating? then v.(handler := NoHandler, pc := Created, lives := v.lives + 1, probes := 0) else v
    case CancelBegin =>
      if v.handler.NoHandler? then v.(cancelRequested := true, handler := CancelFlagged) else v
    case CancelRead =>
      if !v.handler.CancelFlagged? then v
      else if v.row.Some? && IsResumable(v.row.value.status)
      then v.(handler := CancelChosen)
      else v.(handler := NoHandler)
    case CancelTask => if v.handler.CancelChosen? then Killed(v).(handler := CancelWriting) else v
    case CancelCommit =>
      if v.handler.CancelWriting?
      then Committed(v, SetStatus(Cancelled, None, None)).(handler := CancelReporting) else v
    case HandlerDies => if v.handler.StuckReporting? then v else v.(handler := NoHandler)
    case _ => v
  }

  function OrphanMove(v: Job, a: Action): Job {
    match a
    case OrphanCommits => if v.orphan.Some? then Committed(v, v.orphan.value).(orphan := None) else v
    case OrphanDropped => v.(orphan := None)
    case _ => v
  }

  predicate IsTaskAction(a: Action) {
    a.TaskRead? || a.TaskLocate? || a.TaskChunk? || a.TaskCommit? || a.TaskResume? || a.TaskCheck? || a.TaskStatus?
    || a.TaskGate? || a.TaskSubmit? || a.TaskCallPrint? || a.TaskPrintReturns? || a.TaskPrintRaises? || a.TaskDies?
  }

  /** What a step changes, apart from the history. */
  function Moved(v: Job, a: Action): Job {
    if IsTaskAction(a) then TaskMove(v, a)
    else if a.OrphanCommits? || a.OrphanDropped? then OrphanMove(v, a)
    else HandlerMove(v, a)
  }

  /** What a step adds to the history. */
  function Emits(v: Job, a: Action): Option<Event> {
    match a
    case TaskChunk =>
      if v.pc.Downloading? && v.pc.todo == [] && !v.pc.ending.Broken? && |Flatten(v.pc.got)| != 0
      then Some(Downloaded(v.pc.got)) else None
    case TaskCommit => if v.pc.Writing? && !v.pc.committed then CommitEvent(v, v.pc.write) else None
    case TaskSubmit => if v.pc.Sending? then Some(Submit(v.pc.message)) else None
    case TaskCallPrint =>
      if v.pc.ReadyToPrint? && v.row.Some? then Some(PrintCall(v.row.value.order, v.file)) else None
    case TaskPrintReturns => if v.pc.InPrint? then Some(PrintReturned) else None
    case OrphanCommits => if v.orphan.Some? then CommitEvent(v, v.orphan.value) else None
    case HandlerInsert =>
      if v.handler.Inserting? && v.row.None? then Some(Commit(Received, None, None)) else None
    case HandlerSubmit =>
      (match v.handler
       case Acking => Some(Submit(ReceivedMsg))
       case Resending(m) => Some(Submit(m))
       case CancelReporting => Some(Submit(CancelledMsg))
       case _ => None)
    case CancelRead =>
      if v.handler.CancelFlagged? && v.row.Some? && IsResumable(v.row.value.status) then Some(CancelAccepted) else None
    case CancelCommit =>
      if v.handler.CancelWriting? then CommitEvent(v, SetStatus(Cancelled, None, None)) else None
    case _ => None
  }

  function Recorded(v: Job, e: Option<Event>): Job {
    if e.None? then v else v.(log := v.log + [e.value])
  }

  function Step(v: Job, a: Action): Job {
    Recorded(Moved(v, a), Emits(v, a))
  }

  /** A crash keeps the row and the file and forgets everything volatile. A file that was
      being written may keep any prefix of what it held. */
  function Crashed(v: Job, keep: nat): Job {
    v.(file := if v.file.Some? && v.pc.Downloading? && keep <= |v.file.value| then Some(v.file.value[..keep]) else v.file,
       pc := Idle, cancelRequested := false, orphan := None, handler := NoHandler, probes := 0,
       base := if v.row.Some? then v.row.value.status else Queued, since := |v.log|)
  }

  /** Recovery, first half: a row left in PRINTING becomes FAILED. */
  function Marked(v: Job): Job {
    if v.row.Some? && v.row.value.status == Printing
    then v.(row := Some(Restarted(v.row.value)), handler := StuckReporting) else v
  }

  function MarkEvent(v: Job): Option<Event> {
    if v.row.Some? && v.row.value.status.Printing?
    then Some(Commit(Failed, Some(RESTARTED_CODE), Some(RESTARTED_TEXT))) else None
  }

  function StuckReported(v: Job): Job {
    if v.handler.StuckReporting?
    then v.(handler := NoHandler) else v
  }

  function StuckEvent(v: Job): Option<Event> {
    if v.handler.StuckReporting?
    then Some(Submit(FailedMsg(Some(RESTARTED_CODE), Some(RESTARTED_TEXT)))) else None
  }

  /** Recovery, second half: a resumable row gets a task. */
  function Resumed(v: Job): Job {
    if v.row.Some? && IsResumable(v.row.value.status)
    then v.(pc := Created, lives := v.lives + 1, probes := 0)
    else v
  }

  /** The first two steps of a cancel that is honoured. */
  lemma CancelAsked(v: Job)
    requires v.handler.NoHandler? && v.row.Some? && IsResumable(v.row.value.status)
    ensures Step(Step(v, CancelBegin), CancelRead) ==
      v.(cancelRequested := true, handler := CancelChosen, log := v.log + [CancelAccepted])
  {
    hide TaskMove, OrphanMove;
  }

  /** The first two steps of one that is not. */
  lemma CancelIgnored(v: Job)
    requires v.handler.NoHandler? && !(v.row.Some? && IsResumable(v.row.value.status))
    ensures Step(Step(v, CancelBegin), CancelRead) == v.(cancelRequested := true)
  {
    hide TaskMove, OrphanMove;
  }

  /** The next two of an honoured one: a task that is mid-write leaves the write behind. */
  lemma CancelDone(v: Job)
    requires v.handler.CancelChosen? && v.row.Some?
    ensures Step(Step(v, CancelTask), CancelCommit) ==
      v.(row := Some(Updated(v.row.value, Cancelled, None, None)), pc := Idle,
         cancelRequested := v.cancelRequested && (v.pc.Idle? || v.pc.Created?),
         orphan := if v.pc.Writing? && !v.pc.committed then Some(v.pc.write) else v.orphan,
         handler := CancelReporting, log := v.log + [Commit(Cancelled, None, None)])
  {
    hide TaskMove, OrphanMove, Updated;
  }

  // ---- the whole agent -----------------------------------------------------------

  datatype Mode = Down | Recovering | Up

  datatype Agent = Agent(mode: Mode, jobs: map<JobId, Job>)

  datatype AgentAction =
    | OnJob(id: JobId, action: Action)
    | Crash(keep: map<JobId, nat>)
    | MarkStuck
    | ReportStuck(id: JobId)
    | StartNetwork

  const INSTALLED := Agent(Down, map[])

  function At(s: Agent, id: JobId): Job {
    if id in s.jobs then s.jobs[id] else FRESH
  }

  /** Inbound messages are handled one at a time, across all jobs. */
  predicate HandlerFree(s: Agent) {
    forall id :: id in s.jobs ==> s.jobs[id].handler.NoHandler?
  }

  predicate Enabled(s: Agent, a: AgentAction) {
    match a
    case OnJob(id, b) => s.mode == Up && (b.Dispatch? || b.CancelBegin? ==> HandlerFree(s))
    case Crash(_) => true
    case MarkStuck => s.mode == Down
    case ReportStuck(id) => s.mode == Recovering
    case StartNetwork => s.mode == Recovering && HandlerFree(s)
  }

  /** What an agent step does to one job, and what it adds to the job's history. */
  function Touched(v: Job, id: JobId, a: AgentAction): Job {
    match a
    case OnJob(i, b) => if i == id then Moved(v, b) else v
    case Crash(keep) => Crashed(v, if id in keep then keep[id] else MAX_BYTES + 1)
    case MarkStuck => Marked(v)
    case ReportStuck(i) => if i == id then StuckReported(v) else v
    case StartNetwork => Resumed(v)
  }

  function News(v: Job, id: JobId, a: AgentAction): Option<Event> {
    match a
    case OnJob(i, b) => if i == id then Emits(v, b) else None
    case MarkStuck => MarkEvent(v)
    case ReportStuck(i) => if i == id then StuckEvent(v) else None
    case _ => None
  }

  function NextMode(mode: Mode, a: AgentAction): Mode {
    match a
    case Crash(_) => Down
    case MarkStuck => Recovering
    case StartNetwork => Up
    case _ => mode
  }

  /** The network starts only once recovery has finished (`Up`). */
  function AgentStep(s: Agent, a: AgentAction): Agent {
    if !Enabled(s, a) then s
    else
      var ids := s.jobs.Keys + (if a.OnJob? || a.ReportStuck? then {a.id} else {});
      Agent(NextMode(s.mode, a), map id | id in ids :: Recorded(Touched(At(s, id), id, a), News(At(s, id), id, a)))
  }

  /** The state after a run: any schedule, any environment, any number of crashes. */
  function Exec(run: seq<AgentAction>): Agent {
    if run == [] then INSTALLED else AgentStep(Exec(run[..|run|-1]), run[|run|-1])
  }

  // ---- reading the history -------------------------------------------------------

  /** The statuses committed for the job, in order. */
  function Statuses(log: seq<Event>): seq<Status> {
    if log == [] then []
    else
      var front := Statuses(log[..|log|-1]);
      var e := log[|log|-1];
      if e.Commit? then front + [e.status] else front
  }

  /** The messages submitted for the job, in order. */
  function Messages(log: seq<Event>): seq<Message> {
    if log == [] then []
    else
      var front := Messages(log[..|log|-1]);
      var e := log[|log|-1];
      if e.Submit? then front + [e.message] else front
  }

  /** The calls of `print` made for the job, in order. */
  function Prints(log: seq<Event>): seq<Event> {
    if log == [] then []
    else
      var front := Prints(log[..|log|-1]);
      var e := log[|log|-1];
      if e.PrintCall? then front + [e] else front
  }

  lemma LogPush(log: seq<Event>, e: Event)
    ensures Statuses(log + [e]) == if e.Commit? then Statuses(log) + [e.status] else Statuses(log)
    ensures Messages(log + [e]) == if e.Submit? then Messages(log) + [e.message] else Messages(log)
    ensures Prints(log + [e]) == if e.PrintCall? then Prints(log) + [e] else Prints(log)
  {
    assert (log + [e])[..|log|] == log;
  }

  lemma {:induction false} MessageIsLogged(log: seq<Event>, m: Message)
    ensures m in Messages(log) <==> Submit(m) in log
  {
    if log != [] {
      var front, e := log[..|log|-1], log[|log|-1];
      assert log == front + [e];
      MessageIsLogged(front, m);
    }
  }
}
