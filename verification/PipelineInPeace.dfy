/** Progress at the finest interleaving: a task gets its job to a terminal status while other
    jobs, duplicate dispatches and all answers of the environment go on around it. */
module PipelineInPeace {
  import opened Options
  import opened JobStatus
  import opened JobRow
  import opened Downloader
  import opened Pipeline
  import opened PipelineSafety
  import opened PipelineCoarse
  import opened PipelineProgress

  // ---- a live task has its row to itself ---------------------------------------------------

  predicate ResendsRow(v: Job) {
    v.handler.Resending? ==>
      v.row.Some? && IsTerminal(v.row.value.status) && v.handler.message == Report(v.row.value)
  }

  /** While a task is live nothing but the task changes its row, so what it is about to report
      and what a duplicate dispatch is answered with are what the row says. */
  predicate OwnsRow(v: Job) {
    !v.pc.Idle? ==> CoarseTask(v) && ResendsRow(v)
  }

  lemma TaskOwnsRow(v: Job, a: Action, h: Past)
    requires Inv(Up, v, h) && OwnsRow(v) && IsTaskAction(a)
    ensures OwnsRow(TaskMove(v, a))
    ensures !v.pc.Idle? ==> ResendsRow(TaskMove(v, a))
  {
    hide Flatten, NotOnline, EdgesFit, RowIsLastCommit, NoWayBack, PrintedOnce;
  }

  lemma HandlerOwnsRow(v: Job, a: Action, h: Past)
    requires Inv(Up, v, h) && OwnsRow(v) && !IsTaskAction(a)
    ensures OwnsRow(Moved(v, a))
  {
    hide EdgesFit, RowIsLastCommit, NoWayBack, PrintedOnce, PcFits, TaskMove, Updated;
  }

  lemma AgentOwnsRow(s: Agent, a: AgentAction, id: JobId, h: Past)
    requires Enabled(s, a) && Inv(s.mode, At(s, id), h) && OwnsRow(At(s, id))
    ensures OwnsRow(Recorded(Touched(At(s, id), id, a), News(At(s, id), id, a)))
  {
    hide TaskMove, HandlerMove, OrphanMove, Emits, EdgesFit;
    var v := At(s, id);
    if a.OnJob? && a.id == id {
      if IsTaskAction(a.action) { TaskOwnsRow(v, a.action, h); } else { HandlerOwnsRow(v, a.action, h); }
    }
  }

  lemma {:induction false} AlwaysOwnsRow(run: seq<AgentAction>, id: JobId)
    ensures OwnsRow(At(Exec(run), id))
  {
    if run != [] {
      var s, a := Exec(run[..|run|-1]), run[|run|-1];
      AlwaysOwnsRow(run[..|run|-1], id);
      AlwaysInv(run[..|run|-1], id);
      if Enabled(s, a) {
        AtNext(s, a, id);
        AgentOwnsRow(s, a, id, PastOf(At(s, id)));
      }
    }
  }

  // ---- what may go on around it ------------------------------------------------------------

  /** No crash, no cancel of this job, and no failure of its task that the code does not handle. */
  predicate Peaceful(id: JobId, a: AgentAction) {
    !a.Crash? && a != OnJob(id, CancelBegin) && a != OnJob(id, TaskDies)
  }

  predicate InPeace(id: JobId, more: seq<AgentAction>) {
    forall i :: 0 <= i < |more| ==> Peaceful(id, more[i])
  }

  /** `a` is a step the task of the job takes. */
  predicate IsTaken(v: Job, id: JobId, a: AgentAction) {
    a.OnJob? && a.id == id && Fires(v, a.action)
  }

  /** The steps the task takes while `more` happens after `run`, and the chunks served to it. */
  function StepsTaken(run: seq<AgentAction>, more: seq<AgentAction>, id: JobId): nat
    decreases |more|
  {
    if more == [] then 0
    else
      var front := more[..|more|-1];
      StepsTaken(run, front, id) + if IsTaken(At(Exec(run + front), id), id, more[|more|-1]) then 1 else 0
  }

  function ChunksServed(run: seq<AgentAction>, more: seq<AgentAction>, id: JobId): nat
    decreases |more|
  {
    if more == [] then 0
    else
      var front, a := more[..|more|-1], more[|more|-1];
      ChunksServed(run, front, id) + if IsTaken(At(Exec(run + front), id), id, a) then Served(a.action) else 0
  }

  // ---- one step --------------------------------------------------------------------------

  /** Where a job is on its way to the end: all terminal messages agree with the row, and when
      the task is over the row is terminal and has been reported. */
  predicate OnTheWay(v: Job, told: seq<Message>) {
    && v.row.Some? && v.orphan.None?
    && (v.handler.NoHandler? || v.handler.Resending?) && ResendsRow(v)
    && !v.cancelRequested
    && Agree(v, told)
    && (v.pc.Idle? ==> IsTerminal(v.row.value.status) && Report(v.row.value) in told)
  }

  function ToldMore(told: seq<Message>, e: Option<Event>): seq<Message> {
    if e.Some? && e.value.Submit? then told + [e.value.message] else told
  }

  lemma TakenStep(v: Job, a: Action, h: Past, told: seq<Message>)
    requires Inv(Up, v, h) && OwnsRow(v) && ProbesFit(v) && OnTheWay(v, told) && Fires(v, a)
    ensures OnTheWay(TaskMove(v, a), ToldMore(told, Emits(v, a)))
    ensures Rank(TaskMove(v, a).pc) < Rank(v.pc) + Served(a)
  {
    RankDrops(v, a);
    TaskAdvances(v, a, h);
    TaskOwnsRow(v, a, h);
    TakenAgrees(v, a, h, told);
    hide Agree, Rank, Report;
    TakenKeeps(v, a);
  }

  lemma TakenKeeps(v: Job, a: Action)
    requires Fires(v, a) && v.row.Some?
    ensures TaskMove(v, a).handler == v.handler && TaskMove(v, a).row.Some?
  {
    hide Flatten, NotOnline, Updated;
  }

  lemma TakenAgrees(v: Job, a: Action, h: Past, told: seq<Message>)
    requires Inv(Up, v, h) && OwnsRow(v) && Agree(v, told) && !v.cancelRequested && Fires(v, a)
    ensures Agree(TaskMove(v, a), ToldMore(told, Emits(v, a)))
  {
    hide Flatten, NotOnline, EdgesFit, RowIsLastCommit, NoWayBack, PrintedOnce, HandlerFits;
    var v' := TaskMove(v, a);
    if a.TaskCommit? {
      assert forall m :: m in told ==> !IsTerminal(StatusOf(m));
    } else {
      assert v'.row == v.row;
      TaskAdvances(v, a, h);
    }
  }

  /** A step that is not the task's own leaves the row and the task alone. */
  lemma OtherStep(v: Job, a: Action, h: Past, told: seq<Message>)
    requires Inv(Up, v, h) && OnTheWay(v, told) && !Fires(v, a) && !a.CancelBegin? && !a.TaskDies?
    ensures OnTheWay(Moved(v, a), ToldMore(told, Emits(v, a)))
    ensures Moved(v, a).pc == v.pc && Moved(v, a).row == v.row
  {
    hide Flatten, NotOnline, EdgesFit, RowIsLastCommit, NoWayBack, PrintedOnce, PcFits, Updated;
  }

  /** A job whose handler does nothing tells only what its task tells. */
  predicate Undisturbed(v: Job, told: seq<Message>) {
    v.handler.NoHandler? && ToldSoFar(v, told)
  }

  lemma UndisturbedStep(v: Job, a: Action, h: Past, told: seq<Message>)
    requires Inv(Up, v, h) && OwnsRow(v) && OnTheWay(v, told) && Undisturbed(v, told)
    requires !a.CancelBegin? && !a.TaskDies? && !a.Dispatch?
    ensures Undisturbed(Moved(v, a), ToldMore(told, Emits(v, a)))
  {
    if Fires(v, a) {
      TaskAdvances(v, a, h);
      TakenKeeps(v, a);
      hide Inv, Emits, TaskMove;
    } else {
      OtherStep(v, a, h, told);
      SilentStep(v, a, h);
    }
  }

  lemma SilentStep(v: Job, a: Action, h: Past)
    requires Inv(Up, v, h) && !Fires(v, a) && !a.CancelBegin? && !a.TaskDies? && !a.Dispatch? && v.handler.NoHandler?
    requires v.orphan.None?
    ensures Moved(v, a) == v && (Emits(v, a).Some? ==> !Emits(v, a).value.Submit?)
  {
    hide Flatten, NotOnline, EdgesFit, RowIsLastCommit, NoWayBack, PrintedOnce, PcFits, Updated;
  }

  // ---- any continuation ------------------------------------------------------------------

  /** One step of the agent, seen from the job. */
  lemma NextOnTheWay(s: Agent, a: AgentAction, id: JobId, told: seq<Message>)
    requires s.mode == Up && Enabled(s, a) && Peaceful(id, a)
    requires var v := At(s, id); Inv(Up, v, PastOf(v)) && OwnsRow(v) && ProbesFit(v) && OnTheWay(v, told)
    ensures
      var v := At(s, id);
      var v', told' := At(AgentStep(s, a), id), ToldMore(told, News(v, id, a));
      && OnTheWay(v', told')
      && AgentStep(s, a).mode == Up
      && (Undisturbed(v, told) && !(a.OnJob? && a.id == id && a.action.Dispatch?) ==> Undisturbed(v', told'))
      && if IsTaken(v, id, a) then Rank(v'.pc) < Rank(v.pc) + Served(a.action) else v'.pc == v.pc
  {
    hide Inv, PastOf, OwnsRow, OnTheWay, Rank, TaskMove, HandlerMove, OrphanMove, Emits, ToldSoFar;
    var v := At(s, id);
    AtNext(s, a, id);
    if a.OnJob? && a.id == id {
      var b := a.action;
      if Fires(v, b) { TakenStep(v, b, PastOf(v), told); } else { OtherStep(v, b, PastOf(v), told); }
      if Undisturbed(v, told) && !b.Dispatch? { UndisturbedStep(v, b, PastOf(v), told); }
      RecordedOnTheWay(Moved(v, b), Emits(v, b), ToldMore(told, Emits(v, b)));
    }
  }

  lemma RecordedOnTheWay(v: Job, e: Option<Event>, told: seq<Message>)
    ensures OnTheWay(v, told) ==> OnTheWay(Recorded(v, e), told)
    ensures Undisturbed(v, told) ==> Undisturbed(Recorded(v, e), told)
    ensures Recorded(v, e).pc == v.pc
  {
  }

  /** What the job has submitted since it was `v`. */
  function ToldSince(v: Job, v': Job): seq<Message>
    requires v.log <= v'.log
  {
    Messages(v'.log[|v.log|..])
  }

  lemma ToldSinceNext(v: Job, s: Agent, a: AgentAction, id: JobId)
    requires v.log <= At(s, id).log
    ensures
      var u, u' := At(s, id), At(AgentStep(s, a), id);
      && v.log <= u'.log
      && ToldSince(v, u') == if Enabled(s, a) then ToldMore(ToldSince(v, u), News(u, id, a)) else ToldSince(v, u)
  {
    var u := At(s, id);
    assert !Enabled(s, a) ==> AgentStep(s, a) == s;
    AtNext(s, a, id);
    hide Messages, Statuses, Prints, Touched, News, AgentStep, Enabled;
    TouchedKeepsPast(u, id, a);
    var e := News(u, id, a);
    if Enabled(s, a) && e.Some? {
      assert (u.log + [e.value])[|v.log|..] == u.log[|v.log|..] + [e.value];
      LogPush(u.log[|v.log|..], e.value);
    }
  }

  predicate NoDispatch(id: JobId, more: seq<AgentAction>) {
    forall i :: 0 <= i < |more| ==> !(more[i].OnJob? && more[i].id == id && more[i].action.Dispatch?)
  }

  /** From any point of any run, whatever else happens short of a crash, a cancel of this job or
      a failure the code does not handle: a live task with no cancel pending is over after at most
      43 steps and one per chunk served to it, can take a step until then whatever other jobs do,
      and reads the printer at most 13 times. When it is over the row is terminal and has been
      reported, every terminal message says what the row says, and if the job was not dispatched
      again there is exactly one, the last. */
  lemma TaskFinishes(run: seq<AgentAction>, more: seq<AgentAction>, id: JobId)
    requires var v := At(Exec(run), id); !v.pc.Idle? && !v.cancelRequested
    requires forall i :: 0 <= i < |more| ==> !more[i].Crash? && more[i] != OnJob(id, CancelBegin) && more[i] != OnJob(id, TaskDies)
    ensures
      var v, v' := At(Exec(run), id), At(Exec(run + more), id);
      && v.log <= v'.log && v'.row.Some?
      && (var told := Messages(v'.log[|v.log|..]);
          && StepsTaken(run, more, id) <= 43 + (if v.pc.Downloading? then |v.pc.todo| else 0) + ChunksServed(run, more, id)
          && v'.probes <= 13
          && (!v'.pc.Idle? ==> exists a :: Fires(v', a) && Enabled(Exec(run + more), OnJob(id, a)))
          && (v'.pc.Idle? ==> IsTerminal(v'.row.value.status) && Report(v'.row.value) in told)
          && (forall m :: m in told && IsTerminal(StatusOf(m)) ==>
                IsTerminal(v'.row.value.status) && m == Report(v'.row.value))
          && (v.handler.NoHandler? && v'.pc.Idle?
              && (forall i :: 0 <= i < |more| ==> !(more[i].OnJob? && more[i].id == id && more[i].action.Dispatch?)) ==>
                && told[|told|-1] == Report(v'.row.value)
                && forall i :: 0 <= i < |told| - 1 ==> !IsTerminal(StatusOf(told[i]))))
  {
    TaskGoesOn(run, more, id);
    RankIsSmall(At(Exec(run), id).pc);
    hide Exec, StepsTaken, ChunksServed, Rank, Fires, Messages, Report;
  }

  lemma RankIsSmall(pc: Pc)
    ensures Rank(pc) <= 43 + if pc.Downloading? then |pc.todo| else 0
  {
  }

  /** A task on its own takes exactly the steps there are. */
  lemma {:induction false} StepsTakenAlone(run: seq<AgentAction>, id: JobId, steps: seq<Action>)
    requires Exec(run).mode == Up && FiresAll(At(Exec(run), id), steps)
    ensures Exec(run + OnJobs(id, steps)).mode == Up
    ensures At(Exec(run + OnJobs(id, steps)), id) == RunJob(At(Exec(run), id), steps)
    ensures StepsTaken(run, OnJobs(id, steps), id) == |steps| && ChunksServed(run, OnJobs(id, steps), id) == ServedIn(steps)
    decreases |steps|
  {
    hide Exec, Step, Fires;
    var more := OnJobs(id, steps);
    if steps == [] {
      assert run + more == run;
    } else {
      var front, a := steps[..|steps|-1], steps[|steps|-1];
      StepsTakenAlone(run, id, front);
      var sofar := run + OnJobs(id, front);
      assert more[..|more|-1] == OnJobs(id, front);
      assert run + more == sofar + [OnJob(id, a)];
      OneTaskStep(sofar, id, a);
    }
  }

  lemma OneTaskStep(run: seq<AgentAction>, id: JobId, a: Action)
    requires Exec(run).mode == Up && Fires(At(Exec(run), id), a)
    ensures Exec(run + [OnJob(id, a)]).mode == Up
    ensures At(Exec(run + [OnJob(id, a)]), id) == Step(At(Exec(run), id), a)
  {
    assert (run + [OnJob(id, a)])[..|run|] == run;
    AtNext(Exec(run), OnJob(id, a), id);
  }

  /** The same as an invariant. */
  lemma {:induction false} TaskGoesOn(run: seq<AgentAction>, more: seq<AgentAction>, id: JobId)
    requires var v := At(Exec(run), id); !v.pc.Idle? && !v.cancelRequested
    requires InPeace(id, more)
    ensures
      var v, v' := At(Exec(run), id), At(Exec(run + more), id);
      && Exec(run + more).mode == Up && v.log <= v'.log && v'.row.Some?
      && StepsTaken(run, more, id) + Rank(v'.pc) <= Rank(v.pc) + ChunksServed(run, more, id)
      && v'.probes <= MAX_PROBES
      && (!v'.pc.Idle? ==> exists a :: Fires(v', a) && Enabled(Exec(run + more), OnJob(id, a)))
      && OnTheWay(v', ToldSince(v, v'))
      && (v.handler.NoHandler? && NoDispatch(id, more) ==> Undisturbed(v', ToldSince(v, v')))
    decreases |more|
  {
    hide PastOf, OnTheWay, OwnsRow, Rank, ProbesFit, ToldSoFar, ToldSince, Fires;
    if more == [] {
      assert run + more == run;
      AtTheStart(run, id);
    } else {
      var front, a := more[..|more|-1], more[|more|-1];
      assert (run + more)[..|run + more|-1] == run + front;
      TaskGoesOn(run, front, id);
      OneStepOn(At(Exec(run), id), run + front, a, id);
      assert Exec(run + more) == AgentStep(Exec(run + front), a);
    }
  }

  /** The same, one step further on. */
  lemma OneStepOn(v: Job, sofar: seq<AgentAction>, a: AgentAction, id: JobId)
    requires Exec(sofar).mode == Up && Peaceful(id, a)
    requires var u := At(Exec(sofar), id); v.log <= u.log && OnTheWay(u, ToldSince(v, u))
    ensures
      var s := Exec(sofar);
      var u, u' := At(s, id), At(AgentStep(s, a), id);
      && AgentStep(s, a).mode == Up && v.log <= u'.log && u'.row.Some?
      && u'.probes <= MAX_PROBES
      && (!u'.pc.Idle? ==> exists b :: Fires(u', b) && Enabled(AgentStep(s, a), OnJob(id, b)))
      && OnTheWay(u', ToldSince(v, u'))
      && (Undisturbed(u, ToldSince(v, u)) && !(a.OnJob? && a.id == id && a.action.Dispatch?) ==> Undisturbed(u', ToldSince(v, u')))
      && if IsTaken(u, id, a) then Rank(u'.pc) < Rank(u.pc) + Served(a.action) else u'.pc == u.pc
  {
    var s := Exec(sofar);
    assert Enabled(s, a) || (AgentStep(s, a) == s && !IsTaken(At(s, id), id, a));
    hide PastOf, Inv, OnTheWay, OwnsRow, Rank, ProbesFit, Undisturbed, ToldSince, Fires, AgentStep;
    AlwaysInv(sofar, id);
    AlwaysOwnsRow(sofar, id);
    AtMostThirteenProbes(sofar, id);
    ToldSinceNext(v, s, a, id);
    if Enabled(s, a) { NextOnTheWay(s, a, id, ToldSince(v, At(s, id))); }
    var all := sofar + [a];
    assert all[..|all|-1] == sofar;
    AtMostThirteenProbes(all, id);
    if !At(Exec(all), id).pc.Idle? { CanGoOn(Exec(all), id); }
    RowWhereOnTheWay(At(Exec(all), id), ToldSince(v, At(Exec(all), id)));
  }

  lemma CanGoOn(s: Agent, id: JobId)
    requires s.mode == Up && !At(s, id).pc.Idle?
    ensures exists a :: Fires(At(s, id), a) && Enabled(s, OnJob(id, a))
  {
    var a := NextOf(At(s, id).pc);
    assert Fires(At(s, id), a) && Enabled(s, OnJob(id, a));
  }

  lemma RowWhereOnTheWay(v: Job, told: seq<Message>)
    ensures OnTheWay(v, told) ==> v.row.Some?
  {
  }

  lemma AtTheStart(run: seq<AgentAction>, id: JobId)
    requires var v := At(Exec(run), id); !v.pc.Idle? && !v.cancelRequested
    ensures
      var v := At(Exec(run), id);
      && Exec(run).mode == Up && v.row.Some? && v.probes <= MAX_PROBES
      && (exists a :: Fires(v, a) && Enabled(Exec(run), OnJob(id, a)))
      && OnTheWay(v, ToldSince(v, v)) && (v.handler.NoHandler? ==> Undisturbed(v, ToldSince(v, v)))
  {
    var v := At(Exec(run), id);
    AlwaysInv(run, id);
    AlwaysOwnsRow(run, id);
    AtMostThirteenProbes(run, id);
    CanGoOn(Exec(run), id);
    assert v.log[|v.log|..] == [];
  }
}
