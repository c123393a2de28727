/** Exactly which schedules break the transition table. */
module PipelineRaces {
  import opened Options
  import opened JobStatus
  import opened JobRow
  import opened Downloader
  import opened Pipeline
  import opened PipelineSafety

  /** A cancel has been accepted and has not yet committed. */
  predicate CancelUnderWay(v: Job) {
    v.handler.CancelChosen? || v.handler.CancelWriting?
  }

  /** The step commits a status behind which a cancel is no longer legal. */
  predicate MovesOn(e: Option<Event>) {
    e.Some? && e.value.Commit? && (e.value.status.Printing? || e.value.status.Completed? || e.value.status.Failed?)
  }

  /** A cancel is under way at the end of the run, and since it was accepted PRINTING, COMPLETED
      or FAILED has been committed. */
  predicate Overtaken(run: seq<AgentAction>, id: JobId) {
    run != [] && CancelUnderWay(At(Exec(run), id)) &&
    var s, a := Exec(run[..|run|-1]), run[|run|-1];
    Overtaken(run[..|run|-1], id) || (Enabled(s, a) && MovesOn(News(At(s, id), id, a)))
  }

  /** The two writes that break the table: a cancel that was overtaken between its read and its
      commit, and a write that outlived its task and commits behind a cancel. */
  predicate Breaks(run: seq<AgentAction>, id: JobId, a: AgentAction) {
    var v := At(Exec(run), id);
    && Enabled(Exec(run), a) && a.OnJob? && a.id == id
    && ((a.action.CancelCommit? && v.handler.CancelWriting? && Overtaken(run, id))
        || (a.action.OrphanCommits? && v.orphan.Some? && v.orphan.value.SetStatus?
            && v.row.Some? && v.row.value.status.Cancelled?))
  }

  /** No step of the run is such a write for this job. */
  predicate NeverBreaks(run: seq<AgentAction>, id: JobId) {
    run == [] || (NeverBreaks(run[..|run|-1], id) && !Breaks(run[..|run|-1], id, run[|run|-1]))
  }

  /** While a cancel is under way, being overtaken is having left the statuses it may act on. */
  predicate OvertakenFits(v: Job, overtaken: bool) {
    if CancelUnderWay(v) then v.row.Some? && (overtaken <==> !IsResumable(v.row.value.status)) else !overtaken
  }

  lemma TaskOvertakes(v: Job, a: Action, h: Past)
    requires Inv(Up, v, h) && CancelUnderWay(v) && (IsTaskAction(a) || a.OrphanCommits? || a.OrphanDropped?)
    ensures
      var v', e := Moved(v, a), Emits(v, a);
      && v'.row.Some? && v'.handler == v.handler
      && (!IsResumable(v'.row.value.status) <==> !IsResumable(v.row.value.status) || MovesOn(e))
  {
    hide Flatten, NotOnline, EdgesFit, RowIsLastCommit, PrintedOnce, NoWayBack;
  }

  lemma HandlerOvertakes(v: Job, a: Action, h: Past)
    requires Inv(Up, v, h) && !IsTaskAction(a) && !a.OrphanCommits? && !a.OrphanDropped?
    ensures
      var v', e := HandlerMove(v, a), Emits(v, a);
      && !MovesOn(e)
      && (CancelUnderWay(v') ==> v'.row == v.row && v.row.Some?)
      && (CancelUnderWay(v') && !CancelUnderWay(v) ==> IsResumable(v.row.value.status))
  {
    hide EdgesFit, RowIsLastCommit, PrintedOnce, NoWayBack, PcFits, Updated;
  }

  lemma NextOvertaken(s: Agent, a: AgentAction, id: JobId, h: Past, overtaken: bool)
    requires Enabled(s, a) && Inv(s.mode, At(s, id), h) && OvertakenFits(At(s, id), overtaken)
    ensures
      var v := At(s, id);
      var v' := Recorded(Touched(v, id, a), News(v, id, a));
      OvertakenFits(v', CancelUnderWay(v') && (overtaken || MovesOn(News(v, id, a))))
  {
    hide TaskMove, HandlerMove, OrphanMove, Emits, EdgesFit, Updated;
    var v := At(s, id);
    if a.OnJob? && a.id == id {
      var b := a.action;
      if IsTaskAction(b) || b.OrphanCommits? || b.OrphanDropped? {
        if CancelUnderWay(v) { TaskOvertakes(v, b, h); } else { HandlerStays(v, b); }
      } else {
        HandlerOvertakes(v, b, h);
      }
    }
  }

  lemma HandlerStays(v: Job, a: Action)
    requires IsTaskAction(a) || a.OrphanCommits? || a.OrphanDropped?
    ensures Moved(v, a).handler == v.handler
  {
    hide Flatten, NotOnline, Updated;
  }

  lemma {:induction false} OvertakenAlwaysFits(run: seq<AgentAction>, id: JobId)
    ensures OvertakenFits(At(Exec(run), id), Overtaken(run, id))
  {
    if run != [] {
      hide OvertakenFits, PastOf, Inv;
      var s, a := Exec(run[..|run|-1]), run[|run|-1];
      OvertakenAlwaysFits(run[..|run|-1], id);
      AlwaysInv(run[..|run|-1], id);
      if Enabled(s, a) {
        AtNext(s, a, id);
        NextOvertaken(s, a, id, PastOf(At(s, id)), Overtaken(run[..|run|-1], id));
      } else {
        SameOvertaken(At(s, id), Overtaken(run[..|run|-1], id));
      }
    } else {
      assert !CancelUnderWay(FRESH);
    }
  }

  lemma SameOvertaken(v: Job, overtaken: bool)
    requires OvertakenFits(v, overtaken)
    ensures OvertakenFits(v, CancelUnderWay(v) && overtaken)
  {
  }

  // ---- the exact condition -------------------------------------------------------------------

  /** At the finest interleaving a row's history is legal exactly when neither of those two
      writes happened. */
  lemma {:induction false} LegalExactlyWithoutRaces(run: seq<AgentAction>, id: JobId)
    ensures LegalPath(Statuses(At(Exec(run), id).log)) <==> NeverBreaks(run, id)
  {
    if run != [] {
      var front, a := run[..|run|-1], run[|run|-1];
      var s, v := Exec(front), At(Exec(front), id);
      LegalExactlyWithoutRaces(front, id);
      if Enabled(s, a) {
        AlwaysInv(front, id);
        OvertakenAlwaysFits(front, id);
        NextEdgeLegal(front, id, a, PastOf(v));
        hide Inv, OvertakenFits, Breaks, Touched, News, LegalPath;
        AtNext(s, a, id);
        TouchedKeepsPast(v, id, a);
        PastThen(Touched(v, id, a), News(v, id, a));
        if News(v, id, a).Some? && News(v, id, a).value.Commit? {
          LegalPush(Statuses(v.log), News(v, id, a).value.status);
        }
      }
    }
  }

  lemma LegalPush(path: seq<Status>, b: Status)
    ensures LegalPath(path + [b]) <==> LegalPath(path) && (path != [] ==> IsLegal(path[|path|-1], b))
  {
    if LegalPath(path + [b]) {
      forall i | 0 < i < |path| ensures IsLegal(path[i-1], path[i]) {
        assert IsLegal((path + [b])[i-1], (path + [b])[i]);
      }
      if path != [] { assert IsLegal((path + [b])[|path|-1], (path + [b])[|path|]); }
    }
  }

  lemma NextEdgeLegal(run: seq<AgentAction>, id: JobId, a: AgentAction, h: Past)
    requires Enabled(Exec(run), a) && Inv(Exec(run).mode, At(Exec(run), id), h)
    requires OvertakenFits(At(Exec(run), id), Overtaken(run, id))
    ensures
      var e := News(At(Exec(run), id), id, a);
      && (e.Some? && e.value.Commit? && h.path != [] ==>
            (IsLegal(h.path[|h.path|-1], e.value.status) <==> !Breaks(run, id, a)))
      && (Breaks(run, id, a) ==> e.Some? && e.value.Commit? && h.path != [])
  {
    hide EdgesFit, Exec, Overtaken, NoWayBack, PrintedOnce;
  }
}
