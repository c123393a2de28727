/** What the agent takes on, whatever other jobs it has: every dispatch, every cancel, every step
    of every task; and that it comes back from every crash. */
module PipelineAdmission {
  import opened Options
  import opened JobStatus
  import opened JobRow
  import opened Downloader
  import opened Pipeline
  import opened PipelineSafety
  import opened PipelineCoarse
  import opened PipelineProgress
  import opened JobRuns

  /** No other job is touched. */
  ghost predicate OthersStay(s: Agent, s': Agent, id: JobId) {
    forall other :: other != id ==> At(s', other) == At(s, other)
  }

  /** An agent that is up takes every step of every job, a dispatch or a cancel if no other inbound
      message is being handled, and each step touches its own job alone. */
  lemma EveryStepIsTaken(s: Agent, id: JobId, a: Action)
    requires s.mode == Up
    requires a.Dispatch? || a.CancelBegin? ==> forall other :: At(s, other).handler.NoHandler?
    ensures
      var s' := AgentStep(s, OnJob(id, a));
      s'.mode == Up && At(s', id) == Step(At(s, id), a) && OthersStay(s, s', id)
  {
    hide Moved, Emits;
    assert HandlerFree(s) || !(a.Dispatch? || a.CancelBegin?) by {
      if a.Dispatch? || a.CancelBegin? {
        forall other | other in s.jobs ensures s.jobs[other].handler.NoHandler? { assert At(s, other).handler.NoHandler?; }
      }
    }
    AtNext(s, OnJob(id, a), id);
    forall other | other != id ensures At(AgentStep(s, OnJob(id, a)), other) == At(s, other) {
      AtNext(s, OnJob(id, a), other);
    }
  }

  /** Only the first of these steps asks for the attention of the handler. */
  predicate OneMessage(steps: seq<Action>) {
    forall i :: 0 < i < |steps| ==> !steps[i].Dispatch? && !steps[i].CancelBegin?
  }

  lemma {:induction false} StepsAreTaken(run: seq<AgentAction>, id: JobId, steps: seq<Action>)
    requires Exec(run).mode == Up && OneMessage(steps) && forall other :: At(Exec(run), other).handler.NoHandler?
    ensures
      var s, s' := Exec(run), Exec(run + OnJobs(id, steps));
      s'.mode == Up && At(s', id) == RunJob(At(s, id), steps) && OthersStay(s, s', id)
    decreases |steps|
  {
    hide Exec, Step;
    if steps == [] {
      assert run + OnJobs(id, steps) == run;
    } else {
      var front, a := steps[..|steps|-1], steps[|steps|-1];
      StepsAreTaken(run, id, front);
      var sofar := run + OnJobs(id, front);
      assert run + OnJobs(id, steps) == sofar + [OnJob(id, a)];
      ExecOne(sofar, OnJob(id, a));
      if front == [] { assert sofar == run; }
      EveryStepIsTaken(Exec(sofar), id, a);
    }
  }

  lemma ExecOne(run: seq<AgentAction>, a: AgentAction)
    ensures Exec(run + [a]) == AgentStep(Exec(run), a)
  {
    assert (run + [a])[..|run|] == run;
  }

  // ---- dispatches and cancels ----------------------------------------------------------------------

  /** Between two inbound messages, a dispatch of a job the agent does not know, whatever others it
      knows: the order is stored as it came, acknowledged, and given a task. */
  lemma DispatchIsTaken(run: seq<AgentAction>, id: JobId, order: Order)
    requires Exec(run).mode == Up && forall other :: At(Exec(run), other).handler.NoHandler?
    requires At(Exec(run), id).row.None?
    ensures
      var s, s' := Exec(run), Exec(run + OnJobs(id, DispatchSteps(order)));
      var v, v' := At(s, id), At(s', id);
      && s'.mode == Up && OthersStay(s, s', id) && v'.handler.NoHandler?
      && v'.row == Some(Row(order, Received, None, None, false, 0))
      && v'.pc.Created?
      && v'.log == v.log + [Commit(Received, None, None), Submit(ReceivedMsg)]
      && v'.lives == v.lives + 1 && v'.cancelRequested == v.cancelRequested && v'.file == v.file
  {
    var v := At(Exec(run), id);
    hide Exec, RunJob;
    StepsAreTaken(run, id, DispatchSteps(order));
    DispatchOfNew(v, order);
    AcceptLeads(v.(handler := Inserting(order)), order);
    assert v.log + [Commit(Received, None, None)] + [Submit(ReceivedMsg)] == v.log + [Commit(Received, None, None), Submit(ReceivedMsg)];
  }

  /** A dispatch of a job it knows: a terminal one is reported again, any other is left alone. */
  lemma DuplicateIsTaken(run: seq<AgentAction>, id: JobId, order: Order)
    requires Exec(run).mode == Up && forall other :: At(Exec(run), other).handler.NoHandler?
    requires At(Exec(run), id).row.Some?
    ensures
      var s, s' := Exec(run), Exec(run + OnJobs(id, DispatchSteps(order)));
      var v, v' := At(s, id), At(s', id);
      && s'.mode == Up && OthersStay(s, s', id)
      && v' == match v.row.value.status
               case Completed => v.(log := v.log + [Submit(CompletedMsg)])
               case Failed => v.(log := v.log + [Submit(FailedMsg(v.row.value.errorCode, v.row.value.errorMessage))])
               case Cancelled => v.(log := v.log + [Submit(CancelledMsg)])
               case _ => v
  {
    hide Exec, RunJob;
    StepsAreTaken(run, id, DispatchSteps(order));
    DispatchOfKnown(At(Exec(run), id), order);
  }

  /** A cancel: honoured in RECEIVED and WAITING_FOR_PRINTER, wherever the task is, and in any other
      case nothing but its flag remains. */
  lemma CancelIsTaken(run: seq<AgentAction>, id: JobId)
    requires Exec(run).mode == Up && forall other :: At(Exec(run), other).handler.NoHandler?
    ensures
      var s, s' := Exec(run), Exec(run + OnJobs(id, CancelSteps()));
      var v, v' := At(s, id), At(s', id);
      && s'.mode == Up && OthersStay(s, s', id)
      && if v.row.Some? && (v.row.value.status == Received || v.row.value.status == Waiting) then
           && v'.row == Some(v.row.value.(status := Cancelled, attempts := v.row.value.attempts + 1))
           && v'.pc.Idle? && v'.handler.NoHandler?
           && v'.log == v.log + [CancelAccepted, Commit(Cancelled, None, None), Submit(CancelledMsg)]
         else v' == v.(cancelRequested := true)
  {
    hide Exec, RunJob;
    StepsAreTaken(run, id, CancelSteps());
    var v' := CancelLeads(At(Exec(run), id));
    if At(Exec(run), id).row.Some? { CancelMakes(At(Exec(run), id)); }
    hide AfterCancel;
  }

  lemma CancelMakes(v: Job)
    requires v.row.Some?
    ensures var v' := AfterCancel(v);
      && v'.row == Some(v.row.value.(status := Cancelled, attempts := v.row.value.attempts + 1))
      && v'.pc.Idle? && v'.handler == v.handler
      && v'.log == v.log + [CancelAccepted, Commit(Cancelled, None, None), Submit(CancelledMsg)]
  {
  }

  // ---- the coarse schedule -------------------------------------------------------------------------

  lemma CoarsePush(run: seq<AgentAction>, a: AgentAction)
    ensures CoarseRun(run + [a]) <==> CoarseRun(run) && (a.OnJob? ==> CoarseAction(At(Exec(run), a.id), a.action))
  {
    hide Exec, CoarseAction;
    assert (run + [a])[..|run|] == run;
  }

  lemma {:induction false} HandlingIsCoarse(run: seq<AgentAction>, id: JobId, steps: seq<Action>)
    requires CoarseRun(run) && forall i :: 0 <= i < |steps| ==> !IsTaskAction(steps[i]) && !steps[i].OrphanCommits? && !steps[i].OrphanDropped?
    requires forall i :: 0 < i < |steps| ==> !steps[i].CancelBegin?
    requires !At(Exec(run), id).pc.Writing?
    ensures CoarseRun(run + OnJobs(id, steps))
    decreases |steps|
  {
    hide Exec, IsTaskAction, CoarseRun;
    if steps == [] {
      assert run + OnJobs(id, steps) == run;
    } else {
      var front, a := steps[..|steps|-1], steps[|steps|-1];
      HandlingIsCoarse(run, id, front);
      var sofar := run + OnJobs(id, front);
      assert run + OnJobs(id, steps) == sofar + [OnJob(id, a)];
      if front == [] { assert sofar == run; }
      CoarsePush(sofar, OnJob(id, a));
    }
  }

  lemma NoTaskSteps(order: Order)
    ensures forall i :: 0 <= i < 4 ==> !IsTaskAction(DispatchSteps(order)[i])
    ensures forall i :: 0 <= i < 5 ==> !IsTaskAction(CancelSteps()[i])
  {
  }

  /** The coarse schedule leaves room for everything in one piece: crashes and recovery at any time,
      dispatches and cancels that find the task not in the middle of a write, and every step of a
      task that no cancel is under way for. */
  lemma CoarseLeavesRoom(run: seq<AgentAction>, id: JobId, order: Order, a: AgentAction)
    requires CoarseRun(run)
    ensures !a.OnJob? ==> CoarseRun(run + [a])
    ensures a.OnJob? && At(Exec(run), a.id).handler.NoHandler? && !a.action.CancelBegin? ==> CoarseRun(run + [a])
    ensures !At(Exec(run), id).pc.Writing? ==>
      CoarseRun(run + OnJobs(id, DispatchSteps(order))) && CoarseRun(run + OnJobs(id, CancelSteps()))
  {
    hide CoarseRun, Exec, IsTaskAction;
    CoarsePush(run, a);
    if !At(Exec(run), id).pc.Writing? {
      assert forall i :: 0 <= i < 4 ==> !IsTaskAction(DispatchSteps(order)[i]) by { NoTaskSteps(order); }
      assert forall i :: 0 <= i < 5 ==> !IsTaskAction(CancelSteps()[i]) by { NoTaskSteps(order); }
      HandlingIsCoarse(run, id, DispatchSteps(order));
      HandlingIsCoarse(run, id, CancelSteps());
    }
  }

  // ---- crashes -------------------------------------------------------------------------------------

  /** What a crash and the recovery after it make of a job. */
  function Recovered(v: Job, keep: nat): Job {
    Resumed(StuckTold(MarkedAfterCrash(v, keep)))
  }

  function MarkedAfterCrash(v: Job, keep: nat): Job {
    var v1 := Crashed(v, keep);
    Recorded(Marked(v1), MarkEvent(v1))
  }

  function StuckTold(v: Job): Job { Recorded(StuckReported(v), StuckEvent(v)) }

  /** The row of a job that was printing becomes FAILED and is reported, every other row is as it
      was; whatever waits to be processed has a task, nothing else has; and nothing volatile is
      left. A file that was being written may have lost its end. */
  lemma RecoveredIs(v: Job, keep: nat)
    ensures
      var v' := Recovered(v, keep);
      var stuck := v.row.Some? && v.row.value.status == Printing;
      && v'.row == (if stuck then
                      Some(v.row.value.(status := Failed, attempts := v.row.value.attempts + 1,
                                        errorCode := Some("AGENT_RESTARTED_DURING_PRINT"),
                                        errorMessage := Some("The agent restarted while this job was printing.")))
                    else v.row)
      && v'.log == (if stuck then
                      v.log + [Commit(Failed, Some("AGENT_RESTARTED_DURING_PRINT"), Some("The agent restarted while this job was printing."))]
                            + [Submit(FailedMsg(Some("AGENT_RESTARTED_DURING_PRINT"), Some("The agent restarted while this job was printing.")))]
                    else v.log)
      && v'.pc == (if v.row.Some? && (v.row.value.status == Received || v.row.value.status == Waiting) then Created else Idle)
      && v'.handler.NoHandler? && v'.orphan.None? && !v'.cancelRequested
      && v'.base == (if v.row.Some? then v.row.value.status else Queued) && v'.since == |v.log|
      && v'.file == (if v.pc.Downloading? && v.file.Some? && keep <= |v.file.value| then Some(v.file.value[..keep]) else v.file)
  {
  }

  /** A crash may come in any state; what it leaves is known job by job. */
  lemma CrashIsTaken(s: Agent, keep: map<JobId, nat>, id: JobId)
    ensures
      var s' := AgentStep(s, Crash(keep));
      s'.mode == Down && At(s', id) == Crashed(At(s, id), if id in keep then keep[id] else MAX_BYTES + 1)
  {
    AtNext(s, Crash(keep), id);
  }

  lemma MarkIsTaken(s: Agent, id: JobId)
    requires s.mode == Down
    ensures
      var s' := AgentStep(s, MarkStuck);
      s'.mode == Recovering && At(s', id) == Recorded(Marked(At(s, id)), MarkEvent(At(s, id)))
  {
    AtNext(s, MarkStuck, id);
  }

  /** What a job is once the jobs in `ids` have been reported. */
  function ToldIn(ids: set<JobId>, s: Agent, id: JobId): Job {
    if id in ids then StuckTold(At(s, id)) else At(s, id)
  }

  lemma ReportIsTaken(s: Agent, first: JobId, id: JobId)
    requires s.mode == Recovering
    ensures AgentStep(s, ReportStuck(first)).mode == Recovering
    ensures At(AgentStep(s, ReportStuck(first)), id) == if id == first then StuckTold(At(s, id)) else At(s, id)
  {
    AtNext(s, ReportStuck(first), id);
  }

  /** The failed message of every job in `ids` is sent, one after the other. */
  lemma {:induction false} ReportsAreTaken(run: seq<AgentAction>, ids: set<JobId>) returns (more: seq<AgentAction>)
    requires Exec(run).mode == Recovering
    ensures Exec(run + more).mode == Recovering
    ensures forall id :: At(Exec(run + more), id) == ToldIn(ids, Exec(run), id)
    ensures forall a :: a in more ==> a.ReportStuck?
    decreases |ids|
  {
    hide Exec, StuckTold, AgentStep, At;
    if ids == {} {
      more := [];
      assert run + more == run;
    } else {
      var first :| first in ids;
      var rest := ReportsAreTaken(run, ids - {first});
      more := rest + [ReportStuck(first)];
      assert run + more == run + rest + [ReportStuck(first)];
      ExecOne(run + rest, ReportStuck(first));
      ReportIsTaken(Exec(run + rest), first, first);
      forall id ensures At(Exec(run + more), id) == ToldIn(ids, Exec(run), id) {
        ReportIsTaken(Exec(run + rest), first, id);
        assert At(Exec(run + rest), id) == ToldIn(ids - {first}, Exec(run), id);
      }
    }
  }

  /** From any state, after any crash, recovery goes through and the agent is up again, with every
      job as recovery leaves it. */
  lemma AgentComesBack(run: seq<AgentAction>, keep: map<JobId, nat>) returns (more: seq<AgentAction>)
    ensures forall a :: a in more ==> a.MarkStuck? || a.ReportStuck? || a.StartNetwork?
    ensures
      var s, s' := Exec(run), Exec(run + [Crash(keep)] + more);
      && s'.mode == Up
      && forall id :: At(s', id) == Recovered(At(s, id), if id in keep then keep[id] else MAX_BYTES + 1)
  {
    hide Exec;
    var s := Exec(run);
    var r1 := run + [Crash(keep)];
    ExecOne(run, Crash(keep));
    var r2 := r1 + [MarkStuck];
    ExecOne(r1, MarkStuck);
    forall id ensures At(Exec(r2), id) == MarkedAfterCrash(At(s, id), if id in keep then keep[id] else MAX_BYTES + 1) {
      CrashIsTaken(s, keep, id);
      MarkIsTaken(Exec(r1), id);
    }
    CrashIsTaken(s, keep, "");
    MarkIsTaken(Exec(r1), "");
    var reports := ReportsAreTaken(r2, Exec(r2).jobs.Keys);
    var r3 := r2 + reports;
    ExecOne(r3, StartNetwork);
    more := [MarkStuck] + reports + [StartNetwork];
    assert r3 + [StartNetwork] == run + [Crash(keep)] + more;
    StartIsTaken(s, Exec(r2), Exec(r3), keep);
  }

  lemma StartIsTaken(s: Agent, s2: Agent, s3: Agent, keep: map<JobId, nat>)
    requires s3.mode == Recovering
    requires forall id :: At(s2, id) == MarkedAfterCrash(At(s, id), if id in keep then keep[id] else MAX_BYTES + 1)
    requires forall id :: At(s3, id) == ToldIn(s2.jobs.Keys, s2, id)
    ensures AgentStep(s3, StartNetwork).mode == Up
    ensures forall id :: At(AgentStep(s3, StartNetwork), id) == Recovered(At(s, id), if id in keep then keep[id] else MAX_BYTES + 1)
  {
    forall id ensures At(s3, id).handler.NoHandler? { AllReported(s, s2, s3, keep, id); }
    forall id | id in s3.jobs ensures s3.jobs[id].handler.NoHandler? { assert At(s3, id).handler.NoHandler?; }
    assert HandlerFree(s3);
    forall id ensures At(AgentStep(s3, StartNetwork), id) == Recovered(At(s, id), if id in keep then keep[id] else MAX_BYTES + 1) {
      AllReported(s, s2, s3, keep, id);
      AtNext(s3, StartNetwork, id);
    }
  }

  lemma AllReported(s: Agent, s2: Agent, s3: Agent, keep: map<JobId, nat>, id: JobId)
    requires At(s2, id) == MarkedAfterCrash(At(s, id), if id in keep then keep[id] else MAX_BYTES + 1)
    requires At(s3, id) == ToldIn(s2.jobs.Keys, s2, id)
    ensures At(s3, id) == StuckTold(At(s2, id)) && At(s3, id).handler.NoHandler?
  {
  }

  /** The handler may end by a failure of its own at any point after the start, and a write left
      behind by a cancelled task may be lost; neither changes anything else. */
  lemma HandlerMayDie(s: Agent, id: JobId)
    requires s.mode == Up && !At(s, id).handler.StuckReporting?
    ensures At(AgentStep(s, OnJob(id, HandlerDies)), id) == At(s, id).(handler := NoHandler)
    ensures At(AgentStep(s, OnJob(id, OrphanDropped)), id) == At(s, id).(orphan := None)
  {
    hide Step, At;
    EveryStepIsTaken(s, id, HandlerDies);
    EveryStepIsTaken(s, id, OrphanDropped);
    StepsThatEnd(At(s, id));
  }

  lemma StepsThatEnd(v: Job)
    ensures !v.handler.StuckReporting? ==> Step(v, HandlerDies) == v.(handler := NoHandler)
    ensures Step(v, OrphanDropped) == v.(orphan := None)
  {
    hide TaskMove;
  }

  /** A task may also end by a failure of its own at any point: it leaves the row as it is. */
  lemma TaskMayDie(s: Agent, id: JobId)
    requires s.mode == Up && !At(s, id).pc.Idle?
    ensures
      var v, v' := At(s, id), At(AgentStep(s, OnJob(id, TaskDies)), id);
      && v'.pc.Idle? && v'.row == v.row && v'.log == v.log && v'.file == v.file
      && v'.cancelRequested == (v.cancelRequested && v.pc.Created?)
  {
    hide Flatten, NotOnline;
    EveryStepIsTaken(s, id, TaskDies);
  }
}
