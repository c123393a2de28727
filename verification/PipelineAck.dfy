/** The acknowledgement of a job's receipt: exactly when it is submitted, and that a chance
    once missed never comes back. */
module PipelineAck {
  import opened Options
  import opened JobRow
  import opened Downloader
  import opened Pipeline
  import opened PipelineSafety

  const ACK := Submit(ReceivedMsg)

  /** `a` ends the handler between the insert of a row and its acknowledgement. */
  predicate CutsAck(v: Job, id: JobId, a: AgentAction) {
    v.handler.Acking? && (a.Crash? || a == OnJob(id, HandlerDies))
  }

  /** Some step of the run did that to this job. */
  predicate AckWindowCut(run: seq<AgentAction>, id: JobId) {
    run != [] &&
    var s, a := Exec(run[..|run|-1]), run[|run|-1];
    AckWindowCut(run[..|run|-1], id) || (Enabled(s, a) && CutsAck(At(s, id), id, a))
  }

  predicate AckFits(v: Job, cut: bool) {
    if v.row.None? || v.handler.Acking? then ACK !in v.log && !cut else ACK in v.log <==> !cut
  }

  lemma HandlerAck(v: Job, a: Action, h: Past)
    requires Inv(Up, v, h) && !IsTaskAction(a) && !a.OrphanCommits? && !a.OrphanDropped?
    ensures
      var v', e := HandlerMove(v, a), Emits(v, a);
      && (v.row.Some? ==> v'.row.Some?)
      && (v'.handler.Acking? <==> (v.handler.Acking? && !a.HandlerSubmit? && !a.HandlerDies?) || (v.row.None? && v'.row.Some?))
      && (e == Some(ACK) <==> v.handler.Acking? && a.HandlerSubmit?)
  {
    hide EdgesFit, RowIsLastCommit, NoWayBack, PrintedOnce, TaskFits, Updated;
  }

  lemma TaskAck(v: Job, a: Action, h: Past)
    requires Inv(Up, v, h) && (IsTaskAction(a) || a.OrphanCommits? || a.OrphanDropped?)
    ensures
      var v', e := Moved(v, a), Emits(v, a);
      (v'.row.Some? <==> v.row.Some?) && v'.handler == v.handler && e != Some(ACK)
  {
    hide EdgesFit, RowIsLastCommit, NoWayBack, PrintedOnce, Updated, Flatten, NotOnline, HandlerFits;
  }

  lemma NextAck(s: Agent, a: AgentAction, id: JobId, cut: bool, h: Past)
    requires Enabled(s, a) && Inv(s.mode, At(s, id), h) && AckFits(At(s, id), cut)
    ensures
      var v := At(s, id);
      AckFits(Recorded(Touched(v, id, a), News(v, id, a)), cut || CutsAck(v, id, a))
  {
    hide TaskMove, HandlerMove, OrphanMove, Emits, Updated;
    var v := At(s, id);
    TouchedKeepsPast(v, id, a);
    match a
    case OnJob(i, b) =>
      if i == id {
        if IsTaskAction(b) || b.OrphanCommits? || b.OrphanDropped? { TaskAck(v, b, h); } else { HandlerAck(v, b, h); }
      }
    case _ =>
  }

  lemma {:induction false} AckAlwaysFits(run: seq<AgentAction>, id: JobId)
    ensures AckFits(At(Exec(run), id), AckWindowCut(run, id))
  {
    if run != [] {
      var s, a := Exec(run[..|run|-1]), run[|run|-1];
      AckAlwaysFits(run[..|run|-1], id);
      AlwaysInv(run[..|run|-1], id);
      if Enabled(s, a) {
        AtNext(s, a, id);
        NextAck(s, a, id, AckWindowCut(run[..|run|-1], id), PastOf(At(s, id)));
      }
    }
  }

  /** Over every run, a stored job whose handler is past the acknowledgement has been
      acknowledged if and only if neither a crash nor an error ended the handler between the
      insert and the acknowledgement. */
  lemma AcknowledgedExactlyUnlessCut(run: seq<AgentAction>, id: JobId)
    requires At(Exec(run), id).row.Some? && !At(Exec(run), id).handler.Acking?
    ensures Submit(ReceivedMsg) in At(Exec(run), id).log <==> !AckWindowCut(run, id)
  {
    AckAlwaysFits(run, id);
  }

  lemma {:induction false} CutStaysCut(run: seq<AgentAction>, more: seq<AgentAction>, id: JobId)
    requires AckWindowCut(run, id)
    ensures AckWindowCut(run + more, id)
    decreases |more|
  {
    if more == [] {
      assert run + more == run;
    } else {
      var front := more[..|more|-1];
      CutStaysCut(run, front, id);
      assert (run + more)[..|run + more|-1] == run + front;
    }
  }

  /** A job that was not acknowledged then never is: not by a resumption, not by a further
      dispatch, over any continuation of the run. */
  lemma MissedAckIsNeverMadeUp(run: seq<AgentAction>, more: seq<AgentAction>, id: JobId)
    requires var v := At(Exec(run), id); v.row.Some? && !v.handler.Acking? && Submit(ReceivedMsg) !in v.log
    ensures var v := At(Exec(run + more), id); v.row.Some? && !v.handler.Acking? && Submit(ReceivedMsg) !in v.log
  {
    AckAlwaysFits(run, id);
    CutStaysCut(run, more, id);
    AckAlwaysFits(run + more, id);
  }
}
