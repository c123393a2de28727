/** What the calls of `JobWorker` come to on the pipeline's step machine, one lemma per stretch of
    code, and what a job processed to its end tells the hub. */
module JobRuns {
  import opened Options
  import opened JobStatus
  import opened JobRow
  import opened Downloader
  import opened Pipeline
  import opened PipelineSafety
  import opened PipelineCoarse
  import opened PipelineProgress

  /** What the environment answers while one job is processed. A cancel may set its flag and get
      no further while a status read is under way: `cancelAt` is the number of that read. */
  datatype PrintOutcome = Returns | Raises(text: string)
  datatype World = World(source: Source, online: nat -> bool, printing: PrintOutcome, cancelAt: Option<nat>)

  // ---- runs of the machine -----------------------------------------------------------------

  /** A step of the task, or the flag of a cancel that is only beginning. */
  predicate Moves(v: Job, a: Action) {
    Fires(v, a) || (a.CancelBegin? && v.handler.NoHandler?)
  }

  predicate MovesAll(v: Job, steps: seq<Action>) {
    steps == [] ||
    (MovesAll(v, steps[..|steps|-1]) && Moves(RunJob(v, steps[..|steps|-1]), steps[|steps|-1]))
  }

  /** The machine gets from `v` to `w` by such steps, submitting `told`. */
  ghost predicate Leads(v: Job, w: Job, told: seq<Message>) {
    && v.log <= w.log && Messages(w.log[|v.log|..]) == told
    && exists steps :: MovesAll(v, steps) && RunJob(v, steps) == w
  }

  lemma LeadsHere(v: Job)
    ensures Leads(v, v, [])
  {
    assert v.log[|v.log|..] == [];
    assert MovesAll(v, []) && RunJob(v, []) == v;
  }

  lemma StepKeepsLog(w: Job, a: Action)
    ensures Step(w, a).log == if Emits(w, a).Some? then w.log + [Emits(w, a).value] else w.log
  {
    hide Emits;
    MovedKeepsLog(w, a);
  }

  lemma MovedKeepsLog(w: Job, a: Action)
    ensures Moved(w, a).log == w.log
  {
    hide Flatten, NotOnline, Updated, Report;
  }

  lemma LeadsOn(v: Job, w: Job, told: seq<Message>, a: Action)
    requires Leads(v, w, told) && Moves(w, a)
    ensures var e := Emits(w, a);
      Leads(v, Step(w, a), if e.Some? && e.value.Submit? then told + [e.value.message] else told)
  {
    hide Step, Emits, Moves, Messages, Statuses, Prints;
    var steps :| MovesAll(v, steps) && RunJob(v, steps) == w;
    OneMoreMove(v, steps, a);
    hide MovesAll, RunJob;
    StepKeepsLog(w, a);
    var e := Emits(w, a);
    if e.Some? {
      assert (w.log + [e.value])[|v.log|..] == w.log[|v.log|..] + [e.value];
      LogPush(w.log[|v.log|..], e.value);
    }
  }

  lemma OneMoreMove(v: Job, steps: seq<Action>, a: Action)
    requires MovesAll(v, steps) && Moves(RunJob(v, steps), a)
    ensures MovesAll(v, steps + [a]) && RunJob(v, steps + [a]) == Step(RunJob(v, steps), a)
  {
    hide Step, Moves;
    assert (steps + [a])[..|steps|] == steps;
  }

  /** A cancel that has only set its flag. */
  function Flagged(w: Job): Job { w.(cancelRequested := true, handler := CancelFlagged) }

  lemma FlagLeads(v: Job, w: Job, told: seq<Message>)
    requires Leads(v, w, told) && w.handler.NoHandler?
    ensures Leads(v, Flagged(w), told)
  {
    hide Leads, TaskMove, OrphanMove, Messages, Statuses, Prints;
    LeadsOn(v, w, told, CancelBegin);
    assert Step(w, CancelBegin) == Flagged(w);
  }

  function Wrote(row: Row, w: Write): Row {
    match w
    case SetFile => row.(hasFile := true)
    case SetStatus(s, c, t) => Updated(row, s, c, t)
  }

  /** What a write and the resumption after it come to. */
  lemma WriteLeads(v: Job, w: Job, told: seq<Message>, write: Write) returns (w': Job)
    requires Leads(v, w, told) && w.pc == Writing(write, false) && w.row.Some?
    ensures Leads(v, w', told) && w'.pc == AfterWrite(write) && w'.row == Some(Wrote(w.row.value, write))
    ensures w'.file == w.file && w'.cancelRequested == w.cancelRequested && w'.probes == w.probes && w'.handler == w.handler
  {
    hide Leads, Messages, Statuses, Prints;
    LeadsOn(v, w, told, TaskCommit);
    var u := Step(w, TaskCommit);
    LeadsOn(v, u, told, TaskResume);
    w' := Step(u, TaskResume);
  }

  /** What a submission comes to: after the started message the job goes on, any other ends it. */
  lemma SubmitLeads(v: Job, w: Job, told: seq<Message>) returns (w': Job)
    requires Leads(v, w, told) && w.pc.Sending?
    ensures Leads(v, w', told + [w.pc.message]) && w'.row == w.row && w'.file == w.file && w'.probes == w.probes && w'.handler == w.handler
    ensures if w.pc.message.StartedMsg? then w'.pc.ReadyToPrint? && w'.cancelRequested == w.cancelRequested
            else w'.pc.Idle? && !w'.cancelRequested
  {
    hide Leads, Messages, Statuses, Prints;
    LeadsOn(v, w, told, TaskSubmit);
    w' := Step(w, TaskSubmit);
  }

  /** The chunk steps of the machine come to what `Fetch` says. */
  lemma {:induction false} ChunksLead(v: Job, w: Job, told: seq<Message>) returns (w': Job)
    requires Leads(v, w, told) && w.pc.Downloading? && w.file == Some(Flatten(w.pc.got))
    ensures
      var (written, error) := Fetch(w.pc.got, w.pc.todo, w.pc.ending);
      && Leads(v, w', told) && w'.row == w.row && w'.cancelRequested == w.cancelRequested && w'.probes == w.probes
      && w'.handler == w.handler && w'.file == Some(written) && w'.pc == AfterFetch(error)
    decreases |w.pc.todo|
  {
    hide Leads, Step, Emits, Flatten;
    ChunkIs(w);
    LeadsOn(v, w, told, TaskChunk);
    w' := Step(w, TaskChunk);
    if w.pc.todo != [] && |Flatten(w.pc.got)| + |w.pc.todo[0]| <= MAX_BYTES {
      FlattenPush(w.pc.got, w.pc.todo[0]);
      w' := ChunksLead(v, w', told);
    }
  }

  /** One turn of the chunk loop. */
  lemma ChunkIs(w: Job)
    requires w.pc.Downloading?
    ensures var u, c := Step(w, TaskChunk), Chunk(w);
      && u.pc == c.pc && u.file == c.file && u.row == w.row && u.cancelRequested == w.cancelRequested
      && u.probes == w.probes && u.handler == w.handler
      && (Emits(w, TaskChunk).Some? ==> !Emits(w, TaskChunk).value.Submit?)
  {
    hide Flatten;
  }

  function AfterFetch(error: Option<(string, string)>): Pc {
    if error.None? then Writing(SetFile, false) else Writing(FailedWrite(error.value.0, error.value.1), false)
  }

  function FailedWrite(code: string, text: string): Write { SetStatus(Failed, Some(code), Some(text)) }

  /** What looking for the document comes to when there is none yet. */
  lemma DownloadLeads(v: Job, w: Job, told: seq<Message>, source: Source) returns (w': Job)
    requires Leads(v, w, told) && w.pc.Located? && !(w.pc.hasFile && w.file.Some?)
    ensures Leads(v, w', told) && w'.row == w.row && w'.cancelRequested == w.cancelRequested && w'.probes == w.probes && w'.handler == w.handler
    ensures source.Refused? ==> w'.file == w.file && w'.pc == AfterFetch(Some((source.code, source.text)))
    ensures source.Stream? ==>
      var (written, error) := Fetch([], source.chunks, source.ending);
      w'.file == Some(written) && w'.pc == AfterFetch(error)
  {
    hide Leads, Messages, Statuses, Prints, Fetch;
    LeadsOn(v, w, told, TaskLocate(source));
    w' := Step(w, TaskLocate(source));
    if source.Stream? { w' := ChunksLead(v, w', told); }
  }

  predicate SameJob(w: Job, w': Job) {
    w'.row == w.row && w'.file == w.file && w'.cancelRequested == w.cancelRequested && w'.handler == w.handler
  }

  lemma GateLeads(v: Job, w: Job, told: seq<Message>) returns (w': Job)
    requires Leads(v, w, told) && w.pc.PollGate? && w.row.Some?
    ensures Leads(v, w', told) && SameJob(w, w') && w'.probes == w.probes
    ensures w'.pc == if w.pc.waited >= MAX_WAIT_SECONDS || w.cancelRequested
                     then Writing(FailedWrite(PRINTER_OFFLINE, NotOnline(w.row.value.order.printer)), false)
                     else Probing(w.pc.waited + POLL_SECONDS)
  {
    hide Leads, Messages, Statuses, Prints, NotOnline;
    LeadsOn(v, w, told, TaskGate);
    w' := Step(w, TaskGate);
  }

  lemma StatusLeads(v: Job, w: Job, told: seq<Message>, online: bool) returns (w': Job)
    requires Leads(v, w, told) && w.pc.Probing?
    ensures Leads(v, w', told) && SameJob(w, w') && w'.probes == w.probes + 1
    ensures w'.pc == if online then CheckBeforePrint
                     else if w.pc.waited == 0 then Writing(SetStatus(Waiting, None, None), false)
                     else PollGate(w.pc.waited)
  {
    hide Leads, Messages, Statuses, Prints;
    LeadsOn(v, w, told, TaskStatus(online));
    w' := Step(w, TaskStatus(online));
  }

  lemma CheckLeads(v: Job, w: Job, told: seq<Message>) returns (w': Job)
    requires Leads(v, w, told) && (w.pc.CheckBeforeWait? || w.pc.CheckBeforePrint?)
    ensures Leads(v, w', told) && w'.row == w.row && w'.file == w.file && w'.probes == w.probes && !w'.cancelRequested && w'.handler == w.handler
    ensures w'.pc == if w.cancelRequested then Idle
                     else if w.pc.CheckBeforeWait? then Probing(0)
                     else Writing(SetStatus(Printing, None, None), false)
  {
    hide Leads, Messages, Statuses, Prints;
    LeadsOn(v, w, told, TaskCheck);
    w' := Step(w, TaskCheck);
  }

  lemma ReadLeads(v: Job, w: Job, told: seq<Message>) returns (w': Job)
    requires Leads(v, w, told) && w.pc.Created?
    ensures Leads(v, w', told) && SameJob(w, w') && w'.probes == w.probes
    ensures w'.pc == if w.row.None? then Idle else Located(w.row.value.hasFile)
  {
    hide Leads, Messages, Statuses, Prints;
    LeadsOn(v, w, told, TaskRead);
    w' := Step(w, TaskRead);
  }

  lemma FoundLeads(v: Job, w: Job, told: seq<Message>) returns (w': Job)
    requires Leads(v, w, told) && w.pc.Located? && w.pc.hasFile && w.file.Some?
    ensures Leads(v, w', told) && SameJob(w, w') && w'.probes == w.probes && w'.pc.CheckBeforeWait?
  {
    hide Leads, Messages, Statuses, Prints;
    LeadsOn(v, w, told, TaskLocate(Refused("", "")));
    w' := Step(w, TaskLocate(Refused("", "")));
  }

  lemma PrintLeads(v: Job, w: Job, told: seq<Message>, outcome: PrintOutcome) returns (w': Job)
    requires Leads(v, w, told) && w.pc.ReadyToPrint? && w.row.Some?
    ensures Leads(v, w', told) && SameJob(w, w') && w'.probes == w.probes
    ensures w'.pc == Writing(if outcome.Returns? then SetStatus(Completed, None, None)
                             else FailedWrite(PRINTER_ERROR, outcome.text), false)
  {
    hide Leads, Messages, Statuses, Prints;
    LeadsOn(v, w, told, TaskCallPrint);
    var u := Step(w, TaskCallPrint);
    var a := if outcome.Returns? then TaskPrintReturns else TaskPrintRaises(outcome.text);
    LeadsOn(v, u, told, a);
    w' := Step(u, a);
  }

  // ---- the handlers ------------------------------------------------------------------------------

  /** What each step of a dispatch comes to. */
  lemma StepAsks(v: Job, order: Order)
    requires v.handler.NoHandler? && v.row.None?
    ensures Step(v, Dispatch(order)) == v.(handler := Inserting(order))
  {
    hide TaskMove, OrphanMove, Report, Updated;
  }

  lemma StepInserts(v: Job, order: Order)
    requires v.handler == Inserting(order) && v.row.None?
    ensures Step(v, HandlerInsert) ==
      v.(row := Some(NewRow(order)), handler := Acking, log := v.log + [Commit(Received, None, None)])
  {
    hide TaskMove, OrphanMove, Report, Updated;
  }

  lemma StepAcks(v: Job)
    requires v.handler.Acking?
    ensures Step(v, HandlerSubmit) == v.(handler := Creating, log := v.log + [Submit(ReceivedMsg)])
  {
    hide TaskMove, OrphanMove, Report, Updated;
  }

  lemma StepCreates(v: Job)
    requires v.handler.Creating?
    ensures Step(v, HandlerCreate) == v.(handler := NoHandler, pc := Created, lives := v.lives + 1, probes := 0)
  {
    hide TaskMove, OrphanMove, Report, Updated;
  }

  lemma StepFindsKnown(v: Job, a: Action)
    requires v.row.Some? && ((a.Dispatch? && v.handler.NoHandler?) || (a.HandlerInsert? && v.handler.Inserting?))
    ensures Step(v, a) ==
      v.(handler := if IsTerminal(v.row.value.status) then Resending(Report(v.row.value)) else NoHandler)
  {
    hide TaskMove, OrphanMove, Report, Updated;
  }

  lemma StepResends(v: Job)
    requires v.handler.Resending?
    ensures Step(v, HandlerSubmit) == v.(handler := NoHandler, log := v.log + [Submit(v.handler.message)])
  {
    hide TaskMove, OrphanMove, Report, Updated;
  }

  /** A step that is not the handler's next one does nothing. */
  lemma StepIdles(v: Job, a: Action)
    requires a.HandlerInsert? || a.HandlerSubmit? || a.HandlerCreate? || a.CancelRead? || a.CancelTask? || a.CancelCommit?
    requires v.handler.NoHandler? || (v.handler.Resending? && a.HandlerInsert?)
    ensures Step(v, a) == v
  {
    hide TaskMove, OrphanMove, Report, Updated;
  }

  /** What becomes of a job that the handler is about to insert, whether or not its row is there. */
  function Accepted(v: Job, order: Order): Job {
    if v.row.None? then
      v.(row := Some(NewRow(order)), pc := Created, lives := v.lives + 1, probes := 0, handler := NoHandler,
         log := v.log + [Commit(Received, None, None)] + [Submit(ReceivedMsg)])
    else if IsTerminal(v.row.value.status) then v.(handler := NoHandler, log := v.log + [Submit(Report(v.row.value))])
    else v.(handler := NoHandler)
  }

  lemma AcceptSteps(v: Job, order: Order)
    requires v.handler == Inserting(order)
    ensures Step(Step(Step(v, HandlerInsert), HandlerSubmit), HandlerCreate) == Accepted(v, order)
  {
    hide Step, Report;
    var v1 := Step(v, HandlerInsert);
    var v2 := Step(v1, HandlerSubmit);
    if v.row.None? {
      StepInserts(v, order);
      StepAcks(v1);
      StepCreates(v2);
    } else {
      StepFindsKnown(v, HandlerInsert);
      if IsTerminal(v.row.value.status) { StepResends(v1); } else { StepIdles(v1, HandlerSubmit); }
      StepIdles(v2, HandlerCreate);
    }
  }

  const ACCEPT_STEPS := [HandlerInsert, HandlerSubmit, HandlerCreate]

  /** What the handler tells about such a job. */
  function AcceptTells(v: Job): seq<Message> {
    if v.row.None? then [ReceivedMsg]
    else if IsTerminal(v.row.value.status) then [Report(v.row.value)] else []
  }

  lemma AcceptLeads(v: Job, order: Order)
    requires v.handler == Inserting(order)
    ensures RunJob(v, ACCEPT_STEPS) == Accepted(v, order)
  {
    RunThree(v, HandlerInsert, HandlerSubmit, HandlerCreate);
    AcceptSteps(v, order);
  }

  lemma AcceptTold(v: Job, order: Order)
    ensures v.log <= Accepted(v, order).log && Messages(Accepted(v, order).log[|v.log|..]) == AcceptTells(v)
  {
    NothingTold();
    hide Messages, Statuses, Prints, Report;
    var log := Accepted(v, order).log;
    if v.row.None? {
      LogPush([] + [Commit(Received, None, None)], Submit(ReceivedMsg));
      LogPush([], Commit(Received, None, None));
      assert log[|v.log|..] == [] + [Commit(Received, None, None)] + [Submit(ReceivedMsg)];
    } else if IsTerminal(v.row.value.status) {
      LogPush([], Submit(Report(v.row.value)));
      assert log[|v.log|..] == [] + [Submit(Report(v.row.value))];
    } else {
      assert log[|v.log|..] == [];
    }
  }

  lemma NothingTold()
    ensures Messages([]) == []
  {
  }

  /** What the worker can see of such a job. */
  lemma AcceptedIs(v: Job, order: Order)
    ensures var v' := Accepted(v, order);
      && v'.row == (if v.row.None? then Some(NewRow(order)) else v.row)
      && v'.file == v.file && v'.cancelRequested == v.cancelRequested && v'.handler.NoHandler?
  {
  }

  function DispatchSteps(order: Order): seq<Action> { [Dispatch(order), HandlerInsert, HandlerSubmit, HandlerCreate] }

  /** A dispatch of a new job is left to the insert. */
  lemma DispatchOfNew(v: Job, order: Order)
    requires v.handler.NoHandler? && v.row.None?
    ensures RunJob(v, DispatchSteps(order)) == RunJob(v.(handler := Inserting(order)), ACCEPT_STEPS)
  {
    hide Step;
    StepAsks(v, order);
    RunFour(v, Dispatch(order), HandlerInsert, HandlerSubmit, HandlerCreate);
    RunThree(v.(handler := Inserting(order)), HandlerInsert, HandlerSubmit, HandlerCreate);
  }

  /** One of a known job only resends its terminal message, if it has one. */
  lemma DispatchOfKnown(v: Job, order: Order)
    requires v.handler.NoHandler? && v.row.Some?
    ensures var v' := RunJob(v, DispatchSteps(order));
      && v' == (if IsTerminal(v.row.value.status) then v.(log := v.log + [Submit(Report(v.row.value))]) else v)
      && v.log <= v'.log && Messages(v'.log[|v.log|..]) == AcceptTells(v)
  {
    RunFour(v, Dispatch(order), HandlerInsert, HandlerSubmit, HandlerCreate);
    hide Step, RunJob, Report;
    StepFindsKnown(v, Dispatch(order));
    var v1 := Step(v, Dispatch(order));
    StepIdles(v1, HandlerInsert);
    if IsTerminal(v.row.value.status) { StepResends(v1); } else { StepIdles(v1, HandlerSubmit); }
    StepIdles(Step(v1, HandlerSubmit), HandlerCreate);
    if IsTerminal(v.row.value.status) {
      LogPush([], Submit(Report(v.row.value)));
      assert (v.log + [Submit(Report(v.row.value))])[|v.log|..] == [] + [Submit(Report(v.row.value))];
    } else {
      assert v.log[|v.log|..] == [];
    }
  }

  lemma RunThree(v: Job, a: Action, b: Action, c: Action)
    ensures RunJob(v, [a, b, c]) == Step(Step(Step(v, a), b), c)
  {
    hide Step;
    assert [a, b, c][..2] == [a, b] && [a, b][..1] == [a] && [a][..0] == [];
    assert RunJob(v, []) == v;
    assert RunJob(v, [a]) == Step(v, a);
    assert RunJob(v, [a, b]) == Step(Step(v, a), b);
  }

  lemma RunFour(v: Job, a: Action, b: Action, c: Action, d: Action)
    ensures RunJob(v, [a, b, c, d]) == Step(Step(Step(Step(v, a), b), c), d)
  {
    hide Step;
    assert [a, b, c, d][..3] == [a, b, c];
    RunThree(v, a, b, c);
  }

  function CancelSteps(): seq<Action> { [CancelBegin, CancelRead, CancelTask, CancelCommit, HandlerSubmit] }

  lemma RunFive(v: Job)
    ensures RunJob(v, CancelSteps()) ==
      Step(Step(Step(Step(Step(v, CancelBegin), CancelRead), CancelTask), CancelCommit), HandlerSubmit)
  {
    hide Step;
    assert CancelSteps()[..4] == [CancelBegin, CancelRead, CancelTask, CancelCommit];
    RunFour(v, CancelBegin, CancelRead, CancelTask, CancelCommit);
  }

  lemma StepReportsCancel(v: Job)
    requires v.handler.CancelReporting?
    ensures Step(v, HandlerSubmit) == v.(handler := NoHandler, log := v.log + [Submit(CancelledMsg)])
  {
    hide TaskMove, OrphanMove, Report, Updated;
  }

  /** An honoured cancel: the task is gone, the row is CANCELLED, the hub is told. A write the
      task has with a thread is left behind. */
  function AfterCancel(v: Job): Job
    requires v.row.Some?
  {
    v.(row := Some(Updated(v.row.value, Cancelled, None, None)), pc := Idle,
       cancelRequested := v.pc.Idle? || v.pc.Created?,
       orphan := if v.pc.Writing? && !v.pc.committed then Some(v.pc.write) else v.orphan,
       log := v.log + [CancelAccepted] + [Commit(Cancelled, None, None)] + [Submit(CancelledMsg)])
  }

  /** What the worker can see of it. */
  lemma AfterCancelIs(v: Job)
    requires v.row.Some?
    ensures var v' := AfterCancel(v);
      && v'.row == Some(Updated(v.row.value, Cancelled, None, None)) && v'.file == v.file && v'.handler == v.handler
      && v'.cancelRequested == (v.pc.Idle? || v.pc.Created?)
  {
  }

  lemma AcceptedCancel(v: Job)
    requires v.handler.NoHandler? && v.row.Some? && IsResumable(v.row.value.status)
    ensures Step(Step(Step(Step(Step(v, CancelBegin), CancelRead), CancelTask), CancelCommit), HandlerSubmit) == AfterCancel(v)
  {
    hide Step, Updated;
    CancelAsked(v);
    var v2 := v.(cancelRequested := true, handler := CancelChosen, log := v.log + [CancelAccepted]);
    CancelDone(v2);
    StepReportsCancel(Step(Step(v2, CancelTask), CancelCommit));
  }

  /** A cancel of a job that is unknown, printing or over leaves only its flag. */
  lemma RefusedCancel(v: Job)
    requires v.handler.NoHandler? && !(v.row.Some? && IsResumable(v.row.value.status))
    ensures Step(Step(Step(Step(Step(v, CancelBegin), CancelRead), CancelTask), CancelCommit), HandlerSubmit) ==
      v.(cancelRequested := true)
  {
    hide Step;
    CancelIgnored(v);
    var v2 := v.(cancelRequested := true);
    StepIdles(v2, CancelTask);
    StepIdles(v2, CancelCommit);
    StepIdles(v2, HandlerSubmit);
  }

  lemma CancelLeads(v: Job) returns (v': Job)
    requires v.handler.NoHandler?
    ensures v' == RunJob(v, CancelSteps()) && v.log <= v'.log
    ensures var honoured := v.row.Some? && IsResumable(v.row.value.status);
      && v' == (if honoured then AfterCancel(v) else v.(cancelRequested := true))
      && Messages(v'.log[|v.log|..]) == (if honoured then [CancelledMsg] else [])
  {
    RunFive(v);
    v' := RunJob(v, CancelSteps());
    NothingTold();
    hide RunJob, Step, Updated, Messages, Statuses, Prints;
    if v.row.Some? && IsResumable(v.row.value.status) {
      AcceptedCancel(v);
      var e1, e2, e3 := CancelAccepted, Commit(Cancelled, None, None), Submit(CancelledMsg);
      LogPush([], e1);
      LogPush([] + [e1], e2);
      LogPush([] + [e1] + [e2], e3);
      assert v'.log[|v.log|..] == [] + [e1] + [e2] + [e3];
    } else {
      RefusedCancel(v);
      assert v'.log[|v.log|..] == [];
    }
  }

  // ---- what a job comes to -------------------------------------------------------------------

  /** Where no cancel has set its flag on the way, all steps were the task's. */
  lemma {:induction false} OnlyTaskSteps(v: Job, steps: seq<Action>)
    requires MovesAll(v, steps) && RunJob(v, steps).handler.NoHandler?
    ensures FiresAll(v, steps)
    decreases |steps|
  {
    if steps != [] {
      var w, a := RunJob(v, steps[..|steps|-1]), steps[|steps|-1];
      MoveKeepsHandler(w, a);
      OnlyTaskSteps(v, steps[..|steps|-1]);
    }
  }

  lemma MoveKeepsHandler(w: Job, a: Action)
    requires Moves(w, a) && Step(w, a).handler.NoHandler?
    ensures Fires(w, a) && w.handler.NoHandler?
  {
    hide Flatten, NotOnline, Updated, Report;
  }

  /** So a job processed undisturbed and with no cancel pending ends in a terminal row, with
      exactly one terminal message, the last, which reports it. */
  lemma ProcessedJobIsReported(v0: Job, v: Job, told: seq<Message>, h: Past)
    requires Inv(Up, v0, h) && CoarseTask(v0) && ProbesFit(v0) && !v0.pc.Idle? && !v0.cancelRequested
    requires Leads(v0, v, told) && v.pc.Idle? && v.handler.NoHandler?
    ensures v.row.Some? && IsTerminal(v.row.value.status)
    ensures told != [] && told[|told|-1] == Report(v.row.value)
    ensures forall i :: 0 <= i < |told| - 1 ==> NotTerminal(told[i])
  {
    hide Inv, CoarseTask, ProbesFit, RunJob, FiresAll, MovesAll, Messages, Rank, Fires;
    var steps :| MovesAll(v0, steps) && RunJob(v0, steps) == v;
    OnlyTaskSteps(v0, steps);
    TaskLeftAloneFinishes(v0, steps, h);
  }

  /** Why there is no document to print, if there is none. */
  function DocumentError(hasFile: bool, file: Option<Bytes>, source: Source): Option<(string, string)> {
    if hasFile && file.Some? then None
    else match source
      case Refused(code, text) => Some((code, text))
      case Stream(chunks, ending) => Fetch([], chunks, ending).1
  }

  /** A cancel is pending when status read `k` is back: from before, or set during a read. */
  predicate Pending(before: bool, world: World, k: nat) {
    before || (world.cancelAt.Some? && world.cancelAt.value <= k)
  }

  /** Status read `k` is made, and it is the first to find the printer online. */
  predicate ReadyAt(before: bool, world: World, k: nat) {
    k < MAX_PROBES && world.online(k) && forall i :: 0 <= i < k ==> !world.online(i) && !Pending(before, world, i)
  }

  function PrintTells(outcome: PrintOutcome): seq<Message> {
    [StartedMsg] + [if outcome.Returns? then CompletedMsg else FailedMsg(Some("PRINTER_ERROR"), Some(outcome.text))]
  }

  ghost function WaitTells(printer: string, world: World): seq<Message> {
    if exists k: nat :: ReadyAt(false, world, k) && !Pending(false, world, k) then PrintTells(world.printing)
    else if exists k: nat :: ReadyAt(false, world, k) then []
    else [FailedMsg(Some("PRINTER_OFFLINE"), Some("Printer " + printer + " did not come online"))]
  }

  /** Everything the hub is told about a job processed to its end: the download's error; or
      nothing, if a cancel is pending then or by the time the printer is found online; or that
      the printer never came online; or that printing started and how it ended. */
  ghost function Tells(v: Job, world: World): seq<Message>
    requires v.row.Some?
  {
    var error := DocumentError(v.row.value.hasFile, v.file, world.source);
    if error.Some? then [FailedMsg(Some(error.value.0), Some(error.value.1))]
    else if v.cancelRequested then []
    else WaitTells(v.row.value.order.printer, world)
  }

  /** What the outcome of waiting for the printer says about what is told. */
  lemma WaitedFor(printer: string, world: World, ready: bool, probes: nat)
    requires 1 <= probes <= MAX_PROBES
    requires if ready then ReadyAt(false, world, probes - 1)
             else (forall k :: 0 <= k < probes ==> !world.online(k))
                  && (probes == MAX_PROBES || Pending(false, world, probes - 1))
    ensures WaitTells(printer, world) ==
      if !ready then [FailedMsg(Some(PRINTER_OFFLINE), Some(NotOnline(printer)))]
      else if Pending(false, world, probes - 1) then [] else PrintTells(world.printing)
  {
    hide PrintTells;
    assert forall k: nat :: ReadyAt(false, world, k) ==> ready && k == probes - 1;
  }

  /** The messages that follow the writes of PRINTING and COMPLETED. */
  lemma StatusesSent()
    ensures AfterWrite(SetStatus(Printing, None, None)) == Sending(StartedMsg)
    ensures AfterWrite(SetStatus(Completed, None, None)) == Sending(CompletedMsg)
  {
  }
}
