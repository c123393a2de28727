/** Runs that show what the code does not promise. */
module PipelineLimits {
  import opened Options
  import opened JobStatus
  import opened JobRow
  import opened Downloader
  import opened Pipeline
  import opened PipelineSafety
  import opened PipelineProgress
  import opened PipelineStranded
  import opened JobRuns

  // ---- runs of one job ---------------------------------------------------------------------------

  /** An agent that is up and knows one job. */
  function Only(id: JobId, v: Job): Agent { Agent(Up, map[id := v]) }

  lemma FirstStep(id: JobId, a: Action) returns (run: seq<AgentAction>)
    ensures Exec(run) == Only(id, Step(FRESH, a))
  {
    hide Moved, Emits;
    var booted := [MarkStuck, StartNetwork];
    assert booted[..1] == [MarkStuck] && [MarkStuck][..0] == [];
    assert Exec([MarkStuck]) == Agent(Recovering, map[]);
    assert Exec(booted) == Agent(Up, map[]);
    run := booted + [OnJob(id, a)];
    assert run[..2] == booted;
  }

  lemma AnyStep(run: seq<AgentAction>, a: AgentAction) returns (run': seq<AgentAction>)
    ensures Exec(run') == AgentStep(Exec(run), a)
  {
    run' := run + [a];
    assert run'[..|run'|-1] == run;
  }

  lemma NextStep(run: seq<AgentAction>, id: JobId, v: Job, a: Action) returns (run': seq<AgentAction>)
    requires Exec(run) == Only(id, v) && (a.Dispatch? || a.CancelBegin? ==> v.handler.NoHandler?)
    ensures Exec(run') == Only(id, Step(v, a))
  {
    hide Moved, Emits, Exec;
    run' := AnyStep(run, OnJob(id, a));
  }

  lemma {:induction false} NextSteps(run: seq<AgentAction>, id: JobId, v: Job, steps: seq<Action>)
    returns (run': seq<AgentAction>)
    requires Exec(run) == Only(id, v) && MovesAll(v, steps)
    ensures Exec(run') == Only(id, RunJob(v, steps))
    decreases |steps|
  {
    hide Exec, Step;
    if steps == [] {
      run' := run;
    } else {
      run' := NextSteps(run, id, v, steps[..|steps|-1]);
      run' := NextStep(run', id, RunJob(v, steps[..|steps|-1]), steps[|steps|-1]);
    }
  }

  lemma Follow(run: seq<AgentAction>, id: JobId, v: Job, w: Job, told: seq<Message>) returns (run': seq<AgentAction>)
    requires Exec(run) == Only(id, v) && Leads(v, w, told)
    ensures Exec(run') == Only(id, w)
  {
    hide Exec, RunJob, MovesAll, Messages;
    var steps :| MovesAll(v, steps) && RunJob(v, steps) == w;
    run' := NextSteps(run, id, v, steps);
  }

  lemma Accept(run: seq<AgentAction>, id: JobId, v: Job, order: Order) returns (run': seq<AgentAction>)
    requires Exec(run) == Only(id, v) && v.handler == Inserting(order)
    ensures Exec(run') == Only(id, Accepted(v, order))
  {
    hide Exec, Step, Accepted;
    AcceptSteps(v, order);
    run' := NextStep(run, id, v, HandlerInsert);
    run' := NextStep(run', id, Step(v, HandlerInsert), HandlerSubmit);
    run' := NextStep(run', id, Step(Step(v, HandlerInsert), HandlerSubmit), HandlerCreate);
  }

  /** A job just dispatched to an agent that knows no other. */
  function Arriving(order: Order): Job { FRESH.(handler := Inserting(order)) }

  lemma Arrives(id: JobId, order: Order) returns (run: seq<AgentAction>)
    ensures Exec(run) == Only(id, Arriving(order))
  {
    run := FirstStep(id, Dispatch(order));
  }

  /** A row that was never updated has one status behind it. */
  lemma OneCommit(run: seq<AgentAction>, id: JobId, v: Job)
    requires Exec(run) == Only(id, v) && v.row.Some? && v.row.value.attempts == 0
    ensures Statuses(v.log) == [Received]
  {
    hide Exec, Statuses, Prints;
    AlwaysInv(run, id);
  }

  /** A server that serves one byte. */
  const ONE_BYTE := Stream([[0]], Ended)

  lemma OneByteIsFetched()
    ensures Fetch([], [[0]], Ended).1.None?
  {
    FetchIs([], [[0]], Ended);
    FlattenPush([], [0]);
    assert [] + [[0]] == [[0]];
  }

  /** A new task gets its document. */
  lemma GetsDocument(v: Job) returns (w: Job)
    requires v.pc.Created? && v.row.Some? && !v.row.value.hasFile
    ensures Leads(v, w, []) && w.pc.CheckBeforeWait? && w.row == Some(v.row.value.(hasFile := true))
    ensures w.cancelRequested == v.cancelRequested && w.handler == v.handler && w.orphan == v.orphan
  {
    hide Leads, Fetch, Step;
    LeadsHere(v);
    OneByteIsFetched();
    w := ReadLeads(v, v, []);
    w := DownloadLeads(v, w, [], ONE_BYTE);
    w := WriteLeads(v, w, [], SetFile);
    LeadsKeepOrphan(v, w, []);
  }

  /** Steps of a task never touch a write that another left behind. */
  lemma LeadsKeepOrphan(v: Job, w: Job, told: seq<Message>)
    requires Leads(v, w, told)
    ensures w.orphan == v.orphan
  {
    var steps :| MovesAll(v, steps) && RunJob(v, steps) == w;
    RunKeepsOrphan(v, steps);
  }

  lemma {:induction false} RunKeepsOrphan(v: Job, steps: seq<Action>)
    requires MovesAll(v, steps)
    ensures RunJob(v, steps).orphan == v.orphan
    decreases |steps|
  {
    hide Flatten, NotOnline, Updated, Report;
    if steps != [] { RunKeepsOrphan(v, steps[..|steps|-1]); }
  }

  /** And gets to the point where its PRINTING write is with a thread. */
  lemma GetsToPrinting(v: Job) returns (w: Job)
    requires v.pc.Created? && v.row.Some? && !v.row.value.hasFile && !v.cancelRequested
    ensures Leads(v, w, []) && w.pc == Writing(SetStatus(Printing, None, None), false)
    ensures w.row == Some(v.row.value.(hasFile := true)) && w.handler == v.handler && w.orphan == v.orphan
  {
    hide Leads, Step;
    w := GetsDocument(v);
    w := CheckLeads(v, w, []);
    w := StatusLeads(v, w, [], true);
    w := CheckLeads(v, w, []);
    LeadsKeepOrphan(v, w, []);
  }

  // ---- the transition table can be broken ----------------------------------------------------------

  /** A job whose task has a write with a thread when a cancel is accepted and committed. */
  lemma CancelOverWrite(run0: seq<AgentAction>, id: JobId, v0: Job, w: Write) returns (run: seq<AgentAction>, v: Job)
    requires Exec(run0) == Only(id, v0) && Statuses(v0.log) == [Received]
    requires v0.row.Some? && v0.row.value.status.Received? && v0.handler.NoHandler? && v0.pc == Writing(w, false)
    ensures Exec(run) == Only(id, v) && v.orphan == Some(w) && Statuses(v.log) == [Received, Cancelled] && v.row.Some?
  {
    hide Exec, Statuses, Messages, Prints, Step;
    CancelAsked(v0);
    var v2 := v0.(cancelRequested := true, handler := CancelChosen, log := v0.log + [CancelAccepted]);
    CancelDone(v2);
    v := Step(Step(v2, CancelTask), CancelCommit);
    LogPush(v0.log, CancelAccepted);
    LogPush(v2.log, Commit(Cancelled, None, None));
    run := NextStep(run0, id, v0, CancelBegin);
    run := NextStep(run, id, Step(v0, CancelBegin), CancelRead);
    run := NextStep(run, id, v2, CancelTask);
    run := NextStep(run, id, Step(v2, CancelTask), CancelCommit);
  }

  /** An outlived write: a download is refused, the task hands the FAILED write to a thread, a
      cancel is accepted and committed, and only then the write commits. */
  lemma OutlivedWriteExists(id: JobId, order: Order, code: string, text: string)
    ensures exists run :: Statuses(At(Exec(run), id).log) == [Received, Cancelled, Failed]
  {
    hide Exec, Leads, Step, Statuses;
    var run := Arrives(id, order);
    run := Accept(run, id, Arriving(order), order);
    var v0 := Accepted(Arriving(order), order);
    LeadsHere(v0);
    var v := ReadLeads(v0, v0, []);
    v := DownloadLeads(v0, v, [], Refused(code, text));
    run := Follow(run, id, v0, v, []);
    OneCommit(run, id, v);
    run, v := CancelOverWrite(run, id, v, FailedWrite(code, text));
    run := NextStep(run, id, v, OrphanCommits);
    StepOfOrphan(v);
    LogPush(v.log, Commit(Failed, Some(code), Some(text)));
    assert At(Exec(run), id) == Step(v, OrphanCommits);
  }

  lemma StepOfOrphan(v: Job)
    requires v.row.Some? && v.orphan.Some? && v.orphan.value.SetStatus?
    ensures var w := v.orphan.value; Step(v, OrphanCommits).log == v.log + [Commit(w.status, w.code, w.text)]
  {
    hide TaskMove, HandlerMove, Updated;
  }

  /** An overtaken cancel: it reads RECEIVED, the task's PRINTING write commits, and then the
      cancel ends the task and commits over PRINTING. */
  lemma OvertakenCancelExists(id: JobId, order: Order)
    ensures exists run :: Statuses(At(Exec(run), id).log) == [Received, Printing, Cancelled]
  {
    hide Exec, Leads, Step, Statuses, Messages, Prints;
    var run := Arrives(id, order);
    run := Accept(run, id, Arriving(order), order);
    var v0 := Accepted(Arriving(order), order);
    var v := GetsToPrinting(v0);
    run := Follow(run, id, v0, v, []);
    OneCommit(run, id, v);
    CancelAsked(v);
    var v2 := v.(cancelRequested := true, handler := CancelChosen, log := v.log + [CancelAccepted]);
    StepOfCommit(v2);
    var v3 := Step(v2, TaskCommit);
    CancelDone(v3);
    LogPush(v.log, CancelAccepted);
    LogPush(v2.log, PRINTING);
    LogPush(v3.log, Commit(Cancelled, None, None));
    run := NextStep(run, id, v, CancelBegin);
    run := NextStep(run, id, Step(v, CancelBegin), CancelRead);
    run := NextStep(run, id, v2, TaskCommit);
    run := NextStep(run, id, v3, CancelTask);
    run := NextStep(run, id, Step(v3, CancelTask), CancelCommit);
    assert At(Exec(run), id) == Step(Step(v3, CancelTask), CancelCommit);
  }

  const PRINTING := Commit(Printing, None, None)

  lemma StepOfCommit(v: Job)
    requires v.row.Some? && v.pc == Writing(SetStatus(Printing, None, None), false)
    ensures
      var v' := Step(v, TaskCommit);
      v'.log == v.log + [PRINTING] && v'.row.Some? && v'.handler == v.handler
  {
    hide HandlerMove, OrphanMove, Updated;
  }

  // ---- a receipt that is never acknowledged ----------------------------------------------------

  /** A crash between insert and acknowledgement: the job is resumed, printed and reported
      completed, and its receipt is never acknowledged. */
  lemma UnacknowledgedJobExists(id: JobId, order: Order)
    ensures exists run ::
      var v := At(Exec(run), id);
      v.row.Some? && v.row.value.status.Completed? && Submit(CompletedMsg) in v.log && Submit(ReceivedMsg) !in v.log
  {
    hide Exec, Leads, Step, Messages, Statuses, Prints;
    var run := Arrives(id, order);
    StepInserts(Arriving(order), order);
    run := NextStep(run, id, Arriving(order), HandlerInsert);
    var acking := Step(Arriving(order), HandlerInsert);
    var v0;
    run, v0 := Restart(run, id, acking);
    var v := GetsToPrinting(v0);
    v := WriteLeads(v0, v, [], SetStatus(Printing, None, None));
    v := SubmitLeads(v0, v, []);
    v := PrintLeads(v0, v, [] + [StartedMsg], Returns);
    v := WriteLeads(v0, v, [] + [StartedMsg], SetStatus(Completed, None, None));
    v := SubmitLeads(v0, v, [] + [StartedMsg]);
    LeadsLog(v0, v, [] + [StartedMsg] + [CompletedMsg], CompletedMsg);
    LeadsLog(v0, v, [] + [StartedMsg] + [CompletedMsg], ReceivedMsg);
    run := Follow(run, id, v0, v, [] + [StartedMsg] + [CompletedMsg]);
    assert At(Exec(run), id) == v;
  }

  /** A crash, and recovery of a job that is RECEIVED. */
  lemma Restart(run: seq<AgentAction>, id: JobId, v: Job) returns (run': seq<AgentAction>, v': Job)
    requires Exec(run) == Only(id, v) && v.row.Some? && v.row.value.status.Received? && v.pc.Idle?
    ensures Exec(run') == Only(id, v') && v' == Resumed(Crashed(v, MAX_BYTES + 1))
    ensures v'.pc.Created? && v'.row == v.row && v'.log == v.log && v'.handler.NoHandler? && !v'.cancelRequested
  {
    hide Moved, Emits, Exec;
    var crashed := Crashed(v, MAX_BYTES + 1);
    v' := Resumed(crashed);
    var r1 := AnyStep(run, Crash(map[]));
    assert Exec(r1) == Agent(Down, map[id := crashed]);
    var r2 := AnyStep(r1, MarkStuck);
    assert Exec(r2) == Agent(Recovering, map[id := crashed]);
    run' := AnyStep(r2, StartNetwork);
  }

  lemma LeadsLog(v: Job, w: Job, told: seq<Message>, m: Message)
    requires Leads(v, w, told)
    ensures Submit(m) in w.log <==> Submit(m) in v.log || m in told
  {
    assert w.log == v.log + w.log[|v.log|..];
    MessageIsLogged(w.log[|v.log|..], m);
  }

  // ---- a cancel that comes too early ---------------------------------------------------------------

  /** A cancel that comes before its dispatch: the job is stored and acknowledged, its document
      is fetched, and then nobody works on it any more. */
  lemma EarlyCancelExists(id: JobId, order: Order)
    ensures exists run :: IsStranded(Exec(run), id) && Submit(ReceivedMsg) in At(Exec(run), id).log
  {
    hide Exec, Leads, Step, Messages, Statuses, Prints;
    CancelIgnored(FRESH);
    var flagged := FRESH.(cancelRequested := true);
    var run := FirstStep(id, CancelBegin);
    run := NextStep(run, id, Step(FRESH, CancelBegin), CancelRead);
    var arriving := flagged.(handler := Inserting(order));
    StepAsks(flagged, order);
    run := NextStep(run, id, flagged, Dispatch(order));
    run := Accept(run, id, arriving, order);
    var v0 := Accepted(arriving, order);
    assert v0.log[1] == Submit(ReceivedMsg);
    var v := GetsDocument(v0);
    v := CheckLeads(v0, v, []);
    LeadsKeepOrphan(v0, v, []);
    LeadsLog(v0, v, [], ReceivedMsg);
    run := Follow(run, id, v0, v, []);
    assert At(Exec(run), id) == v;
  }
}
