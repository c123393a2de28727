/** A task that is left alone gets its job to a terminal status in a bounded number of steps. */
module PipelineProgress {
  import opened Options
  import opened JobStatus
  import opened JobRow
  import opened Downloader
  import opened Pipeline
  import opened PipelineSafety
  import opened PipelineCoarse

  const MAX_PROBES := 13

  /** `a` is the step the task takes next. */
  predicate Fires(v: Job, a: Action) {
    match v.pc
    case Idle => false
    case Created => a.TaskRead?
    case Located(_) => a.TaskLocate?
    case Downloading(_, _, _) => a.TaskChunk?
    case Writing(_, committed) => if committed then a.TaskResume? else a.TaskCommit?
    case CheckBeforeWait => a.TaskCheck?
    case Probing(_) => a.TaskStatus?
    case PollGate(_) => a.TaskGate?
    case CheckBeforePrint => a.TaskCheck?
    case Sending(_) => a.TaskSubmit?
    case ReadyToPrint => a.TaskCallPrint?
    case InPrint => a.TaskPrintReturns? || a.TaskPrintRaises?
  }

  function RunJob(v: Job, steps: seq<Action>): Job {
    if steps == [] then v else Step(RunJob(v, steps[..|steps|-1]), steps[|steps|-1])
  }

  /** The steps of one job, as steps of the agent. */
  function OnJobs(id: JobId, steps: seq<Action>): seq<AgentAction> {
    seq(|steps|, i requires 0 <= i < |steps| => OnJob(id, steps[i]))
  }

  predicate FiresAll(v: Job, steps: seq<Action>) {
    steps == [] ||
    (FiresAll(v, steps[..|steps|-1]) && Fires(RunJob(v, steps[..|steps|-1]), steps[|steps|-1]))
  }

  /** The number of chunks the server sends in these steps. */
  function Served(a: Action): nat {
    if a.TaskLocate? && a.source.Stream? then |a.source.chunks| else 0
  }

  function ServedIn(steps: seq<Action>): nat {
    if steps == [] then 0 else ServedIn(steps[..|steps|-1]) + Served(steps[|steps|-1])
  }

  /** The polls left after `waited` seconds. */
  function Remaining(waited: nat): nat {
    if waited < MAX_WAIT_SECONDS then (MAX_WAIT_SECONDS - waited) / POLL_SECONDS else 0
  }

  /** How many steps are left at most, chunks of a download not yet begun aside. */
  function Rank(pc: Pc): nat {
    match pc
    case Idle => 0
    case Sending(m) => if m.StartedMsg? then 6 else 1
    case Writing(w, committed) =>
      (if committed then 0 else 1) +
      (match w
       case SetFile => 39
       case SetStatus(s, _, _) => if s.Waiting? then 35 else if s.Printing? then 7 else 2)
    case InPrint => 4
    case ReadyToPrint => 5
    case CheckBeforePrint => 9
    case PollGate(waited) => 10 + 2 * Remaining(waited)
    case Probing(waited) => if waited == 0 then 37 else 11 + 2 * Remaining(waited)
    case CheckBeforeWait => 38
    case Downloading(_, todo, _) => 41 + |todo|
    case Located(_) => 42
    case Created => 43
  }

  /** The status reads made so far, point by point. */
  predicate ProbesFit(v: Job) {
    match v.pc
    case Created => v.probes == 0
    case Located(_) => v.probes == 0
    case Downloading(_, _, _) => v.probes == 0
    case CheckBeforeWait => v.probes == 0
    case Probing(waited) => waited % POLL_SECONDS == 0 && waited <= MAX_WAIT_SECONDS && v.probes == waited / POLL_SECONDS
    case PollGate(waited) => waited % POLL_SECONDS == 0 && waited <= MAX_WAIT_SECONDS && v.probes == 1 + waited / POLL_SECONDS
    case Writing(w, _) =>
      if w.SetFile? then v.probes == 0 else if w.status.Waiting? then v.probes == 1 else v.probes <= MAX_PROBES
    case _ => v.probes <= MAX_PROBES
  }

  lemma TaskProbes(v: Job, a: Action)
    requires ProbesFit(v)
    ensures ProbesFit(TaskMove(v, a))
  {
    hide Flatten, NotOnline;
  }

  lemma OtherProbes(v: Job, id: JobId, a: AgentAction)
    requires ProbesFit(v) && (a.OnJob? ==> !IsTaskAction(a.action))
    ensures ProbesFit(Touched(v, id, a))
  {
    hide TaskMove;
  }

  /** Over every run, no lifetime of a task reads the printer's status more than 13 times. */
  lemma {:induction false} AtMostThirteenProbes(run: seq<AgentAction>, id: JobId)
    ensures ProbesFit(At(Exec(run), id)) && At(Exec(run), id).probes <= 13
  {
    if run != [] {
      var s, a := Exec(run[..|run|-1]), run[|run|-1];
      AtMostThirteenProbes(run[..|run|-1], id);
      AtNext(s, a, id);
      NextProbes(At(s, id), id, a);
    }
  }

  lemma NextProbes(v: Job, id: JobId, a: AgentAction)
    requires ProbesFit(v)
    ensures var v' := Recorded(Touched(v, id, a), News(v, id, a)); ProbesFit(v') && v'.probes <= MAX_PROBES
  {
    hide TaskMove, HandlerMove, OrphanMove;
    if a.OnJob? && IsTaskAction(a.action) { TaskProbes(v, a.action); } else { OtherProbes(v, id, a); }
  }

  // ---- a task left alone -----------------------------------------------------------------

  lemma RankDrops(v: Job, a: Action)
    requires TaskFits(v) && ProbesFit(v) && Fires(v, a)
    ensures Rank(TaskMove(v, a).pc) < Rank(v.pc) + Served(a)
  {
    hide Flatten, NotOnline, PcFits;
    if v.pc.Probing? || v.pc.PollGate? { PollDrops(v, a); } else { hide Remaining, ProbesFit; }
  }

  lemma PollDrops(v: Job, a: Action)
    requires ProbesFit(v) && Fires(v, a) && (v.pc.Probing? || v.pc.PollGate?)
    ensures Rank(TaskMove(v, a).pc) < Rank(v.pc) + Served(a)
  {
    hide NotOnline;
  }

  /** What one step of the task does on the way to the end. */
  lemma TaskAdvances(v: Job, a: Action, h: Past)
    requires Inv(Up, v, h) && CoarseTask(v) && !v.cancelRequested && Fires(v, a)
    ensures var v' := TaskMove(v, a);
      && CoarseTask(v') && !v'.cancelRequested
      && (v'.pc.Idle? ==>
            && v.pc.Sending? && v'.row == v.row && v.row.Some? && IsTerminal(v.row.value.status)
            && Emits(v, a) == Some(Submit(Report(v.row.value))))
      && (!v'.pc.Idle? && Emits(v, a).Some? && Emits(v, a).value.Submit? ==> Emits(v, a).value.message.StartedMsg?)
  {
    hide Flatten, NotOnline, EdgesFit, RowIsLastCommit, NoWayBack, PrintedOnce;
  }

  predicate NotTerminal(m: Message) { !IsTerminal(StatusOf(m)) }

  /** Left alone, with no cancel pending, a live task takes at most `Rank` steps and one per
      chunk; until then it can always go on; and when it is done the row is terminal and, of
      all it has submitted, exactly the last message is terminal and reports the row. */
  lemma {:induction false} TaskLeftAloneFinishes(v: Job, steps: seq<Action>, h: Past)
    requires Inv(Up, v, h) && CoarseTask(v) && ProbesFit(v)
    requires !v.cancelRequested && !v.pc.Idle? && FiresAll(v, steps)
    ensures
      var v' := RunJob(v, steps);
      && |steps| + Rank(v'.pc) <= Rank(v.pc) + ServedIn(steps)
      && (!v'.pc.Idle? ==> exists a :: Fires(v', a))
      && v.log <= v'.log
      && ToldSoFar(v', Messages(v'.log[|v.log|..]))
  {
    var h' := TaskRuns(v, steps, h);
    var v' := RunJob(v, steps);
    if !v'.pc.Idle? {
      assert Fires(v', NextOf(v'.pc));
    }
  }

  function NextOf(pc: Pc): Action {
    match pc
    case Idle => TaskDies
    case Created => TaskRead
    case Located(_) => TaskLocate(Refused("", ""))
    case Downloading(_, _, _) => TaskChunk
    case Writing(_, committed) => if committed then TaskResume else TaskCommit
    case CheckBeforeWait => TaskCheck
    case Probing(_) => TaskStatus(true)
    case PollGate(_) => TaskGate
    case CheckBeforePrint => TaskCheck
    case Sending(_) => TaskSubmit
    case ReadyToPrint => TaskCallPrint
    case InPrint => TaskPrintReturns
  }

  predicate ToldSoFar(v: Job, told: seq<Message>) {
    if !v.pc.Idle? then forall m :: m in told ==> NotTerminal(m)
    else
      && v.row.Some? && IsTerminal(v.row.value.status)
      && told != [] && told[|told|-1] == Report(v.row.value)
      && forall i :: 0 <= i < |told| - 1 ==> NotTerminal(told[i])
  }

  lemma {:induction false} TaskRuns(v: Job, steps: seq<Action>, h: Past) returns (h': Past)
    requires Inv(Up, v, h) && CoarseTask(v) && ProbesFit(v)
    requires !v.cancelRequested && !v.pc.Idle? && FiresAll(v, steps)
    ensures
      var v' := RunJob(v, steps);
      && Inv(Up, v', h') && CoarseTask(v') && ProbesFit(v') && !v'.cancelRequested
      && |steps| + Rank(v'.pc) <= Rank(v.pc) + ServedIn(steps)
      && v.log <= v'.log
      && ToldSoFar(v', Messages(v'.log[|v.log|..]))
    decreases |steps|
  {
    if steps == [] {
      assert v.log[|v.log|..] == [];
      h' := h;
    } else {
      var u, a := RunJob(v, steps[..|steps|-1]), steps[|steps|-1];
      var g := TaskRuns(v, steps[..|steps|-1], h);
      h' := TaskStepOn(v, u, a, g);
    }
  }

  lemma TaskStepOn(v: Job, u: Job, a: Action, g: Past) returns (h': Past)
    requires Inv(Up, u, g) && TaskFits(u) && CoarseTask(u) && ProbesFit(u) && !u.cancelRequested && Fires(u, a)
    requires v.log <= u.log && ToldSoFar(u, Messages(u.log[|v.log|..]))
    ensures
      var w := Step(u, a);
      && Inv(Up, w, h') && CoarseTask(w) && ProbesFit(w) && !w.cancelRequested
      && Rank(w.pc) < Rank(u.pc) + Served(a)
      && v.log <= w.log
      && ToldSoFar(w, Messages(w.log[|v.log|..]))
  {
    hide Inv, TaskMove, Emits, Rank, ProbesFit, ToldSoFar, Messages, Statuses, Prints;
    assert IsTaskAction(a);
    hide Fires;
    TaskAdvances(u, a, g);
    RankDrops(u, a);
    TaskProbes(u, a);
    StepKeeps(u, a, g);
    var e := Emits(u, a);
    h' := g.Then(e);
    RecordedKeeps(Up, TaskMove(u, a), e, h');
    RecordedProbes(TaskMove(u, a), e);
    TouchedKeepsPast(u, "", OnJob("", a));
    ToldOneMore(u, TaskMove(u, a), e, Messages(u.log[|v.log|..]));
    if e.Some? {
      assert (u.log + [e.value])[|v.log|..] == u.log[|v.log|..] + [e.value];
      LogPush(u.log[|v.log|..], e.value);
    }
  }

  lemma RecordedProbes(v: Job, e: Option<Event>)
    ensures ProbesFit(v) ==> ProbesFit(Recorded(v, e))
  {
  }

  /** What the task's next step tells. */
  lemma ToldOneMore(u: Job, w: Job, e: Option<Event>, told: seq<Message>)
    requires !u.pc.Idle? && ToldSoFar(u, told)
    requires w.pc.Idle? ==>
      w.row == u.row && u.row.Some? && IsTerminal(u.row.value.status) && e == Some(Submit(Report(u.row.value)))
    requires !w.pc.Idle? && e.Some? && e.value.Submit? ==> e.value.message.StartedMsg?
    ensures ToldSoFar(Recorded(w, e), if e.Some? && e.value.Submit? then told + [e.value.message] else told)
  {
  }
}
