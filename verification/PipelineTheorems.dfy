/** The guarantees of the pipeline, over every run: any interleaving of tasks and inbound
    messages, any answers of the network and the printer, any number of crashes. */
module PipelineTheorems {
  import opened Options
  import opened JobStatus
  import opened JobRow
  import opened Downloader
  import opened Pipeline
  import opened PipelineSafety
  import opened PipelineHistory
  import opened PipelineCoarse

  function JobAfter(run: seq<AgentAction>, id: JobId): Job { At(Exec(run), id) }

  // ---- every interleaving --------------------------------------------------------------

  /** `print` is called at most once per job id, PRINTING is stored at most once, and from
      then on the job is never in a status that recovery would resume. */
  lemma AtMostOnePrint(run: seq<AgentAction>, id: JobId)
    ensures
      var v := JobAfter(run, id);
      && |Prints(v.log)| <= 1
      && multiset(Statuses(v.log))[Printing] <= 1
      && (Prints(v.log) != [] ==> Printing in Statuses(v.log))
      && (Printing in Statuses(v.log) ==> v.row.Some? && !IsResumable(v.row.value.status))
  {
    AlwaysInv(run, id);
    var path := Statuses(JobAfter(run, id).log);
    assert Printing in path <==> multiset(path)[Printing] > 0;
  }

  /** An illegal edge in a row's history has CANCELLED at one of its ends. */
  lemma IllegalEdgesTouchCancelled(run: seq<AgentAction>, id: JobId, i: nat)
    requires 0 < i < |Statuses(JobAfter(run, id).log)|
    ensures
      var path := Statuses(JobAfter(run, id).log);
      path[0] == Received && (IsLegal(path[i-1], path[i]) || path[i-1] == Cancelled || path[i] == Cancelled)
  {
    AlwaysInv(run, id);
    assert EdgeFits(Statuses(JobAfter(run, id).log)[i-1], Statuses(JobAfter(run, id).log)[i]);
  }

  /** A job for which no cancel was ever accepted has a fully legal history. */
  lemma LegalUnlessCancelAccepted(run: seq<AgentAction>, id: JobId)
    requires CancelAccepted !in JobAfter(run, id).log
    ensures LegalPath([Queued] + Statuses(JobAfter(run, id).log))
  {
    var log := JobAfter(run, id).log;
    AlwaysInv(run, id);
    AlwaysHistory(run, id);
    NoCancelCommit(log);
    var path := Statuses(log);
    forall i | 0 < i < |[Queued] + path| ensures IsLegal(([Queued] + path)[i-1], ([Queued] + path)[i]) {
      if i > 1 { assert EdgeFits(path[i-2], path[i-1]); assert path[i-2] in path && path[i-1] in path; }
    }
  }

  lemma {:induction false} NoCancelCommit(log: seq<Event>)
    requires Causal(log) && CancelAccepted !in log
    ensures Cancelled !in Statuses(log)
  {
    if log != [] {
      var front, e := log[..|log|-1], log[|log|-1];
      assert log == front + [e];
      assert Causal(front) by {
        forall i | 0 <= i < |front| ensures Caused(front[..i], front[i]) {
          assert front[..i] == log[..i];
          assert Caused(log[..i], log[i]);
        }
      }
      assert Caused(log[..|log|-1], log[|log|-1]);
      NoCancelCommit(front);
    }
  }

  /** The row always mirrors the last commit, and `attempts` counts the commits after the insert. */
  lemma RowMirrorsHistory(run: seq<AgentAction>, id: JobId)
    ensures
      var v := JobAfter(run, id);
      var path := Statuses(v.log);
      (v.row.None? <==> path == []) &&
      (v.row.Some? ==> v.row.value.status == path[|path|-1] && v.row.value.attempts == |path| - 1)
  {
    AlwaysInv(run, id);
  }

  /** Write-ahead reporting: a message is submitted only after the commit of what it says. */
  lemma MessagesFollowCommits(run: seq<AgentAction>, id: JobId, i: nat)
    requires i < |JobAfter(run, id).log| && JobAfter(run, id).log[i].Submit?
    ensures
      var log := JobAfter(run, id).log;
      exists k :: 0 <= k < i && Reports(log[i].message, log[k])
  {
    AlwaysHistory(run, id);
    var log := JobAfter(run, id).log;
    assert Caused(log[..i], log[i]);
    var k :| 0 <= k < i && log[..i][k] == CommitOf(log[i].message);
    assert Reports(log[i].message, log[k]);
  }

  /** The message says what the event commits, for a failure with the same code and text. */
  predicate Reports(m: Message, e: Event) {
    match m
    case ReceivedMsg => e == Commit(Received, None, None)
    case StartedMsg => e == Commit(Printing, None, None)
    case CompletedMsg => e == Commit(Completed, None, None)
    case FailedMsg(code, text) => e == Commit(Failed, code, text)
    case CancelledMsg => e == Commit(Cancelled, None, None)
  }

  /** A completed message, first or resent, comes after a call of `print` that returned. */
  lemma CompletedMeansPrinted(run: seq<AgentAction>, id: JobId, i: nat)
    requires i < |JobAfter(run, id).log| && JobAfter(run, id).log[i] == Submit(CompletedMsg)
    ensures
      var log := JobAfter(run, id).log;
      exists c, r, p :: 0 <= p < r < c < i
        && log[p].PrintCall? && log[r] == PrintReturned && log[c] == Commit(Completed, None, None)
  {
    AlwaysHistory(run, id);
    var log := JobAfter(run, id).log;
    assert Caused(log[..i], log[i]);
    var c :| 0 <= c < i && log[..i][c] == Commit(Completed, None, None);
    assert Caused(log[..c], log[c]);
    var r :| 0 <= r < c && log[..c][r] == PrintReturned;
    assert Caused(log[..r], log[r]);
    var p :| 0 <= p < r && log[..r][p].PrintCall?;
    assert log[c] == Commit(Completed, None, None) && log[r] == PrintReturned && log[p].PrintCall?;
  }

  /** At some step of the run the task asked the server for the document and this is what it
      was served. */
  predicate Answered(run: seq<AgentAction>, id: JobId, source: Source) {
    run != [] &&
    var s, a := Exec(run[..|run|-1]), run[|run|-1];
    Answered(run[..|run|-1], id, source) || (Enabled(s, a) && a.OnJob? && a.id == id && IsAnswer(At(s, id), a.action, source))
  }

  predicate IsAnswer(v: Job, a: Action, source: Source) {
    a == TaskLocate(source) && v.pc.Located? && !(v.pc.hasFile && v.file.Some?)
  }

  /** What a download has got and has still to get is what the server serves. */
  ghost predicate DownloadsFit(run: seq<AgentAction>, id: JobId, v: Job) {
    && (v.pc.Downloading? ==> Answered(run, id, Stream(v.pc.got + v.pc.todo, v.pc.ending)))
    && forall chunks :: Downloaded(chunks) in v.log ==> Answered(run, id, Stream(chunks, Ended))
  }

  lemma NextDownload(v: Job, a: Action)
    ensures
      var v' := Moved(v, a);
      v'.pc.Downloading? ==>
        || (v.pc.Downloading? && v'.pc.got + v'.pc.todo == v.pc.got + v.pc.todo && v'.pc.ending == v.pc.ending)
        || IsAnswer(v, a, Stream(v'.pc.got + v'.pc.todo, v'.pc.ending))
    ensures
      var e := Emits(v, a);
      e.Some? && e.value.Downloaded? ==> v.pc.Downloading? && e.value.chunks == v.pc.got + v.pc.todo && v.pc.ending.Ended?
  {
    hide Flatten, NotOnline, Updated, Report;
    if a.TaskChunk? && v.pc.Downloading? {
      if v.pc.todo != [] {
        assert v.pc.got + v.pc.todo == v.pc.got + [v.pc.todo[0]] + v.pc.todo[1..];
      } else {
        assert v.pc.got + v.pc.todo == v.pc.got;
      }
    }
    if a.TaskLocate? && v.pc.Located? && a.source.Stream? { assert [] + a.source.chunks == a.source.chunks; }
  }

  /** Every download on record is, chunk for chunk, one whole stream the server served for this
      job earlier in the run. */
  lemma {:induction false} DownloadsWereServed(run: seq<AgentAction>, id: JobId)
    ensures DownloadsFit(run, id, JobAfter(run, id))
  {
    if run != [] {
      var front, a := run[..|run|-1], run[|run|-1];
      var s, v := Exec(front), At(Exec(front), id);
      DownloadsWereServed(front, id);
      AtNext(s, a, id);
      TouchedKeepsPast(v, id, a);
      hide TaskMove, HandlerMove, OrphanMove, Emits;
      if a.OnJob? && a.id == id { NextDownload(v, a.action); }
    }
  }

  /** What is printed is, byte for byte, one whole stream the server served for this job, however
      many crashes cut earlier attempts short; and PRINTING was stored before. */
  lemma PrintedFileIsWhole(run: seq<AgentAction>, id: JobId, i: nat)
    requires i < |JobAfter(run, id).log| && JobAfter(run, id).log[i].PrintCall?
    ensures
      var log := JobAfter(run, id).log;
      && PRINTING_COMMIT in log[..i]
      && log[i].content.Some?
      && 0 < |log[i].content.value| <= MAX_BYTES
      && exists chunks :: Downloaded(chunks) in log[..i] && Flatten(chunks) == log[i].content.value
           && Answered(run, id, Stream(chunks, Ended))
  {
    AlwaysHistory(run, id);
    var log := JobAfter(run, id).log;
    assert Caused(log[..i], log[i]);
    DownloadsWereServed(run, id);
    var chunks :| Downloaded(chunks) in log[..i] && Flatten(chunks) == log[i].content.value;
    assert Downloaded(chunks) in log;
  }

  /** No attempt ever leaves more than the maximum on disk, and a stored path always leads to
      a whole download. */
  lemma StoredFileIsWhole(run: seq<AgentAction>, id: JobId)
    ensures
      var v := JobAfter(run, id);
      && (v.file.Some? ==> |v.file.value| <= MAX_BYTES)
      && (v.row.Some? && v.row.value.hasFile ==> v.file.Some? && WholeDownload(v.log, v.file.value))
  {
    AlwaysHistory(run, id);
  }

  /** Histories only grow, so what is said of them is said of everything that ever happened. */
  lemma HistoryOnlyGrows(run: seq<AgentAction>, a: AgentAction, id: JobId)
    ensures JobAfter(run, id).log <= JobAfter(run + [a], id).log
  {
    assert (run + [a])[..|run|] == run;
    var s := Exec(run);
    AtNext(s, a, id);
    TouchedKeepsPast(At(s, id), id, a);
  }

  /** Over any continuation of a run. */
  lemma {:induction false} HistoryGrows(run: seq<AgentAction>, more: seq<AgentAction>, id: JobId)
    ensures JobAfter(run, id).log <= JobAfter(run + more, id).log
    decreases |more|
  {
    if more == [] {
      assert run + more == run;
    } else {
      var front := more[..|more|-1];
      HistoryGrows(run, front, id);
      HistoryOnlyGrows(run + front, more[|more|-1], id);
      assert run + front + [more[|more|-1]] == run + more;
    }
  }

  lemma {:induction false} StatusesGrow(a: seq<Event>, b: seq<Event>)
    requires a <= b
    ensures Statuses(a) <= Statuses(b)
    decreases |b|
  {
    if a == b {
    } else {
      var front, e := b[..|b|-1], b[|b|-1];
      StatusesGrow(a, front);
      assert b == front + [e];
      LogPush(front, e);
    }
  }

  lemma MoveKeepsOrder(v: Job, a: Action)
    requires v.row.Some?
    ensures Moved(v, a).row.Some? && Moved(v, a).row.value.order == v.row.value.order
  {
    hide Flatten, NotOnline, Report;
    if IsTaskAction(a) { hide HandlerMove, OrphanMove; } else { hide TaskMove; }
  }

  lemma OrderStays(v: Job, id: JobId, a: AgentAction)
    requires v.row.Some?
    ensures Touched(v, id, a).row.Some? && Touched(v, id, a).row.value.order == v.row.value.order
  {
    hide Moved;
    if a.OnJob? { MoveKeepsOrder(v, a.action); }
  }

  lemma NewsOfPrint(v: Job, id: JobId, a: AgentAction)
    ensures News(v, id, a).Some? && News(v, id, a).value.PrintCall? ==>
      v.row.Some? && News(v, id, a).value.order == v.row.value.order
  {
    hide Flatten;
  }

  predicate PrintsItsOrder(v: Job) {
    forall i :: 0 <= i < |v.log| && v.log[i].PrintCall? ==> v.row.Some? && v.log[i].order == v.row.value.order
  }

  lemma PrintsItsOrderOn(v: Job, id: JobId, a: AgentAction)
    requires PrintsItsOrder(v)
    ensures PrintsItsOrder(Recorded(Touched(v, id, a), News(v, id, a)))
  {
    hide Touched, News;
    var v', e := Touched(v, id, a), News(v, id, a);
    TouchedKeepsPast(v, id, a);
    if v.row.Some? { OrderStays(v, id, a); }
    NewsOfPrint(v, id, a);
    assert forall i :: 0 <= i < |v.log| ==> Recorded(v', e).log[i] == v.log[i];
  }

  /** At some step of the run the hub dispatched this order for a job not yet stored. */
  predicate Dispatched(run: seq<AgentAction>, id: JobId, order: Order) {
    run != [] &&
    var s, a := Exec(run[..|run|-1]), run[|run|-1];
    || Dispatched(run[..|run|-1], id, order)
    || (Enabled(s, a) && a == OnJob(id, Dispatch(order)) && At(s, id).handler.NoHandler? && At(s, id).row.None?)
  }

  ghost predicate OrdersFit(run: seq<AgentAction>, id: JobId, v: Job) {
    && (v.handler.Inserting? ==> Dispatched(run, id, v.handler.order))
    && (v.row.Some? ==> Dispatched(run, id, v.row.value.order))
  }

  /** Where the order in the handler and the one in the row come from. */
  lemma NextOrder(v: Job, a: Action)
    ensures
      var v' := Moved(v, a);
      && (v'.handler.Inserting? ==>
            || (v.handler.Inserting? && v.handler.order == v'.handler.order)
            || (a == Dispatch(v'.handler.order) && v.handler.NoHandler? && v.row.None?))
      && (v'.row.Some? ==>
            || (v.row.Some? && v.row.value.order == v'.row.value.order)
            || (v.handler.Inserting? && v.handler.order == v'.row.value.order))
  {
    hide Flatten, NotOnline, Report;
    if v.row.Some? { MoveKeepsOrder(v, a); }
    if IsTaskAction(a) { hide HandlerMove, OrphanMove; } else { hide TaskMove; }
  }

  /** What is stored about a job is what the hub dispatched for it. */
  lemma {:induction false} StoresWhatWasDispatched(run: seq<AgentAction>, id: JobId)
    ensures OrdersFit(run, id, JobAfter(run, id))
    ensures JobAfter(run, id).row.Some? ==> Dispatched(run, id, JobAfter(run, id).row.value.order)
  {
    if run != [] {
      var front, a := run[..|run|-1], run[|run|-1];
      var s, v := Exec(front), At(Exec(front), id);
      StoresWhatWasDispatched(front, id);
      AtNext(s, a, id);
      hide TaskMove, HandlerMove, OrphanMove, Emits;
      if a.OnJob? && a.id == id { NextOrder(v, a.action); }
    }
  }

  /** And so is what gets printed: the same printer, the same document, the same number of
      copies. */
  lemma PrintsWhatWasDispatched(run: seq<AgentAction>, id: JobId, i: nat)
    requires i < |JobAfter(run, id).log| && JobAfter(run, id).log[i].PrintCall?
    ensures
      var v := JobAfter(run, id);
      v.row.Some? && v.log[i].order == v.row.value.order && Dispatched(run, id, v.log[i].order)
  {
    hide Exec, Dispatched;
    AlwaysPrintsItsOrder(run, id);
    StoresWhatWasDispatched(run, id);
  }

  lemma {:induction false} AlwaysPrintsItsOrder(run: seq<AgentAction>, id: JobId)
    ensures PrintsItsOrder(JobAfter(run, id))
  {
    if run == [] {
    } else {
      AlwaysPrintsItsOrder(run[..|run|-1], id);
      AtNext(Exec(run[..|run|-1]), run[|run|-1], id);
      PrintsItsOrderOn(At(Exec(run[..|run|-1]), id), id, run[|run|-1]);
    }
  }

  /** And nothing ever rewrites it. */
  lemma {:induction false} OrderNeverChanges(run: seq<AgentAction>, more: seq<AgentAction>, id: JobId)
    requires JobAfter(run, id).row.Some?
    ensures var row := JobAfter(run + more, id).row; row.Some? && row.value.order == JobAfter(run, id).row.value.order
    decreases |more|
  {
    if more == [] {
      assert run + more == run;
    } else {
      var all := run + more;
      assert all[..|all|-1] == run + more[..|more|-1];
      OrderNeverChanges(run, more[..|more|-1], id);
      var s, a := Exec(all[..|all|-1]), all[|all|-1];
      AtNext(s, a, id);
      OrderStays(At(s, id), id, a);
    }
  }

  lemma FileStays(v: Job, id: JobId, a: AgentAction)
    requires v.row.Some? && v.row.value.hasFile
    ensures Touched(v, id, a).row.Some? && Touched(v, id, a).row.value.hasFile
  {
    hide TaskMove, HandlerMove, OrphanMove;
    if a.OnJob? { TaskKeepsFile(v, a.action); HandlerKeepsFile(v, a.action); }
  }

  lemma TaskKeepsFile(v: Job, a: Action)
    requires v.row.Some? && v.row.value.hasFile
    ensures TaskMove(v, a).row.Some? && TaskMove(v, a).row.value.hasFile
  {
    hide Flatten, NotOnline;
  }

  lemma HandlerKeepsFile(v: Job, a: Action)
    requires v.row.Some? && v.row.value.hasFile
    ensures HandlerMove(v, a).row.Some? && HandlerMove(v, a).row.value.hasFile
    ensures OrphanMove(v, a).row.Some? && OrphanMove(v, a).row.value.hasFile
  {
    hide Report;
  }

  /** A stored path stays stored, so a job is never downloaded again for want of it. */
  lemma {:induction false} StoredPathStays(run: seq<AgentAction>, more: seq<AgentAction>, id: JobId)
    requires JobAfter(run, id).row.Some? && JobAfter(run, id).row.value.hasFile
    ensures JobAfter(run + more, id).row.Some? && JobAfter(run + more, id).row.value.hasFile
    decreases |more|
  {
    if more == [] {
      assert run + more == run;
    } else {
      var all := run + more;
      assert all[..|all|-1] == run + more[..|more|-1];
      StoredPathStays(run, more[..|more|-1], id);
      var s, a := Exec(all[..|all|-1]), all[|all|-1];
      AtNext(s, a, id);
      FileStays(At(s, id), id, a);
    }
  }

  // ---- coarse interleaving -------------------------------------------------------------

  /** Every status write is a legal transition from the stored status. */
  lemma CoarseHistoryIsLegal(run: seq<AgentAction>, id: JobId)
    requires CoarseRun(run)
    ensures LegalPath([Queued] + Statuses(JobAfter(run, id).log))
  {
    AlwaysCoarse(run, id);
    AlwaysInv(run, id);
    var path := Statuses(JobAfter(run, id).log);
    forall i | 0 < i < |[Queued] + path| ensures IsLegal(([Queued] + path)[i-1], ([Queued] + path)[i]) {
      if i > 1 { assert IsLegal(path[i-2], path[i-1]); }
    }
  }

  /** A terminal status is never left, over any continuation of the run. */
  lemma TerminalRowsStay(run: seq<AgentAction>, more: seq<AgentAction>, id: JobId)
    requires CoarseRun(run + more)
    requires var v := JobAfter(run, id); v.row.Some? && IsTerminal(v.row.value.status)
    ensures var v, v' := JobAfter(run, id), JobAfter(run + more, id);
      v'.row.Some? && v'.row.value.status == v.row.value.status
  {
    RowMirrorsHistory(run, id);
    RowMirrorsHistory(run + more, id);
    HistoryGrows(run, more, id);
    var path, path' := Statuses(JobAfter(run, id).log), Statuses(JobAfter(run + more, id).log);
    StatusesGrow(JobAfter(run, id).log, JobAfter(run + more, id).log);
    AlwaysCoarse(run + more, id);
    TerminalIsAbsorbing(path', |path| - 1, |path'| - 1);
  }

  /** All terminal messages for a job are the same message, over all lifetimes, and say what
      the row says: the same outcome and, for a failure, the same code and text. */
  lemma TerminalReportsAgree(run: seq<AgentAction>, id: JobId)
    requires CoarseRun(run)
    ensures
      var v := JobAfter(run, id);
      forall m :: m in Messages(v.log) && IsTerminal(StatusOf(m)) ==>
        v.row.Some? && IsTerminal(v.row.value.status) && m == Report(v.row.value)
  {
    AlwaysCoarse(run, id);
  }

  /** Within one lifetime the statuses told to the hub are a legal path from the status the
      row had when the lifetime began (QUEUED if there was none), and only a terminal one is
      ever told twice. */
  lemma TellsALegalPath(run: seq<AgentAction>, id: JobId)
    requires CoarseRun(run)
    ensures
      var v := JobAfter(run, id);
      && v.since <= |v.log|
      && LifeOf(v) == [v.base] + StatusesTold(Messages(v.log[v.since..]))
      && TellingPath(LifeOf(v))
  {
    AlwaysCoarse(run, id);
  }

  /** In a run without a crash that path starts at QUEUED and covers all messages. */
  lemma {:induction false} OneLifetimeStartsAtQueued(run: seq<AgentAction>, id: JobId)
    requires forall a :: a in run ==> !a.Crash?
    ensures JobAfter(run, id).since == 0 && JobAfter(run, id).base == Queued
  {
    if run != [] {
      var front, a := run[..|run|-1], run[|run|-1];
      OneLifetimeStartsAtQueued(front, id);
      assert a in run;
      AtNext(Exec(front), a, id);
      TouchedKeepsPast(At(Exec(front), id), id, a);
    }
  }

  /** How often a task for the job was created. */
  function TasksCreated(run: seq<AgentAction>, id: JobId): nat {
    if run == [] then 0
    else
      var before, now := At(Exec(run[..|run|-1]), id), At(Exec(run), id);
      TasksCreated(run[..|run|-1], id) + if before.pc.Idle? && now.pc.Created? then 1 else 0
  }

  lemma CreatedIsCounted(v: Job, id: JobId, a: AgentAction, mode: Mode, h: Past)
    requires Inv(mode, v, h) && (a.StartNetwork? ==> mode != Up)
    ensures
      var v' := Touched(v, id, a);
      v'.lives == v.lives + if v.pc.Idle? && v'.pc.Created? then 1 else 0
  {
    hide Flatten, NotOnline, Updated, Report, EdgesFit, NoWayBack, PrintedOnce, RowIsLastCommit, PcFits;
    if a.OnJob? { if IsTaskAction(a.action) { hide HandlerMove, OrphanMove; } else { hide TaskMove; } }
  }

  lemma {:induction false} LivesAreTasks(run: seq<AgentAction>, id: JobId)
    ensures JobAfter(run, id).lives == TasksCreated(run, id)
  {
    if run != [] {
      var front, a := run[..|run|-1], run[|run|-1];
      LivesAreTasks(front, id);
      AlwaysInv(front, id);
      AtNext(Exec(front), a, id);
      hide Touched, News, Inv, PastOf;
      if Enabled(Exec(front), a) { CreatedIsCounted(At(Exec(front), id), id, a, Exec(front).mode, PastOf(At(Exec(front), id))); }
    }
  }

  /** At most one WAITING_FOR_PRINTER per task of the job, in whatever lifetime, one PRINTING and
      one terminal status are ever written. */
  lemma AttemptsAreBounded(run: seq<AgentAction>, id: JobId)
    requires CoarseRun(run)
    ensures var v := JobAfter(run, id); v.row.Some? ==> v.row.value.attempts <= TasksCreated(run, id) + 2
  {
    LivesAreTasks(run, id);
    AlwaysCoarse(run, id);
    AlwaysInv(run, id);
  }
}
