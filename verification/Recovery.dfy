/** Start-up recovery: `Agent._recover_on_startup`, run before the network is started. */
module Recovery {
  import opened Options
  import opened JobStatus
  import opened JobRow
  import opened Pipeline
  import opened Store = QueueStore
  import opened Worker = JobWorker

  /** The failed message for a job that was printing when the agent stopped. Its words are the
      ones the store writes. */
  function StuckMessage(id: JobId): Envelope {
    Envelope(id, FailedMsg(Some("AGENT_RESTARTED_DURING_PRINT"), Some("The agent restarted while this job was printing.")))
  }

  function StuckMessages(ids: seq<JobId>): seq<Envelope> {
    seq(|ids|, i requires 0 <= i < |ids| => StuckMessage(ids[i]))
  }

  /** The words sent are the words stored. */
  lemma SameWords(id: JobId)
    ensures StuckMessage(id) == Envelope(id, FailedMsg(Some(RESTARTED_CODE), Some(RESTARTED_TEXT)))
  {
  }

  /** Submits the failed message of every stuck job, in order; with no socket yet they queue. */
  method ReportStuckJobs(worker: JobWorker, ids: seq<JobId>)
    requires worker.Valid() && worker.ws.state.phase.Disconnected?
    modifies worker.ws
    ensures worker.Valid() && worker.ws.state.phase.Disconnected?
    ensures worker.ws.durableQueue == old(worker.ws.durableQueue) + StuckMessages(ids)
    ensures worker.ws.state.submitted == old(worker.ws.state.submitted) + StuckMessages(ids)
  {
    hide StuckMessage;
    var i := 0;
    while i < |ids|
      invariant 0 <= i <= |ids|
      invariant worker.Valid() && worker.ws.state.phase.Disconnected?
      invariant worker.ws.durableQueue == old(worker.ws.durableQueue) + StuckMessages(ids[..i])
      invariant worker.ws.state.submitted == old(worker.ws.state.submitted) + StuckMessages(ids[..i])
    {
      worker.ws.Send(StuckMessage(ids[i]), true, false);
      assert StuckMessages(ids[..i + 1]) == StuckMessages(ids[..i]) + [StuckMessage(ids[i])];
      i := i + 1;
    }
    assert ids[..i] == ids;
  }

  /** `resume_job` for every listed row that is RECEIVED or WAITING_FOR_PRINTER. */
  method ResumeJobs(worker: JobWorker, ids: seq<JobId>) returns (resumed: seq<JobId>)
    requires forall i :: 0 <= i < |ids| ==> ids[i] in worker.store.rows
    requires NoRepeats(ids) && worker.tasks == {}
    modifies worker`tasks
    ensures NoRepeats(resumed)
    ensures forall id :: id in worker.tasks <==> id in resumed
    ensures forall id :: id in resumed <==> id in ids && IsResumable(worker.store.rows[id].status)
  {
    resumed := [];
    var i := 0;
    while i < |ids|
      invariant 0 <= i <= |ids| && NoRepeats(resumed)
      invariant forall id :: id in worker.tasks <==> id in resumed
      invariant forall id :: id in resumed <==> id in ids[..i] && IsResumable(worker.store.rows[id].status)
    {
      assert ids[..i + 1] == ids[..i] + [ids[i]];
      assert ids[i] !in ids[..i];
      if IsResumable(worker.store.rows[ids[i]].status) {
        worker.tasks := worker.tasks + {ids[i]};
        resumed := resumed + [ids[i]];
      }
      i := i + 1;
    }
    assert ids[..i] == ids;
  }

  /** What the store lists once the stuck rows are marked. */
  lemma AfterMarking(listing: seq<JobId>, rows: map<JobId, Row>)
    requires Lists(listing, rows)
    ensures
      var rows' := AllRestarted(rows);
      && Lists(listing, rows')
      && (forall id :: id in rows' ==> !rows'[id].status.Printing?)
      && (var open := Select(listing, rows', IsOpen);
          && NoRepeats(open)
          && (forall i :: 0 <= i < |open| ==> open[i] in rows')
          && (forall id :: id in open && IsResumable(rows'[id].status) <==> id in rows && IsResumable(rows[id].status)))
  {
    var rows' := AllRestarted(rows);
    SelectIs(listing, rows', IsOpen);
    var open := Select(listing, rows', IsOpen);
    assert forall i :: 0 <= i < |open| ==> open[i] in open;
  }

  /** From any stored state: no PRINTING row is left, only rows that were PRINTING have changed,
      one failed message for each of those is queued in order, and there is exactly one new task
      for each resumable row and none for any other. */
  method RecoverOnStartup(worker: JobWorker) returns (stuck: seq<JobId>, resumed: seq<JobId>)
    requires worker.Valid() && worker.ws.state.phase.Disconnected? && worker.tasks == {}
    modifies worker`tasks, worker.store, worker.ws
    ensures worker.Valid() && worker.ws.state.phase.Disconnected?
    ensures worker.store.rows == AllRestarted(old(worker.store.rows))
    ensures forall id :: id in worker.store.rows ==> !worker.store.rows[id].status.Printing?
    ensures stuck == Select(old(worker.store.listing), old(worker.store.rows), IsPrinting)
    ensures worker.ws.durableQueue == old(worker.ws.durableQueue) + StuckMessages(stuck)
    ensures NoRepeats(resumed) && forall id :: id in worker.tasks <==> id in resumed
    ensures forall id :: id in resumed <==> id in old(worker.store.rows) && IsResumable(old(worker.store.rows)[id].status)
  {
    hide AllRestarted, Select, NoRepeats, StuckMessages;
    AfterMarking(worker.store.listing, worker.store.rows);
    stuck := worker.store.MarkStuckPrintingAsFailed();
    ReportStuckJobs(worker, stuck);
    var open := worker.store.ListNonTerminal();
    resumed := ResumeJobs(worker, open);
  }

  /** Job by job, recovery is what the machine does between a crash and the start of the network. */
  lemma RecoveryIsTheMachines(rows: map<JobId, Row>, id: JobId, v: Job)
    requires v.row == Lookup(rows, id) && v.pc.Idle? && v.handler.NoHandler?
    ensures var v' := Resumed(Recorded(StuckReported(Recorded(Marked(v), MarkEvent(v))), StuckEvent(Marked(v))));
      && v'.row == Lookup(AllRestarted(rows), id)
      && (v'.pc.Created? <==> id in rows && IsResumable(rows[id].status)) && (v'.pc.Created? || v'.pc.Idle?)
      && (StuckEvent(Marked(v)) == if id in rows && rows[id].status.Printing?
                                   then Some(Submit(StuckMessage(id).message)) else None)
  {
    SameWords(id);
  }
}
