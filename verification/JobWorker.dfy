/** `JobWorker` as straight-line code, and the proof that what each call does is a run of the
    pipeline's step machine. */
module JobWorker {
  import opened Options
  import opened JobStatus
  import opened JobRow
  import opened Downloader
  import opened Pipeline
  import opened PipelineProgress
  import opened JobRuns
  import Store = QueueStore
  import Ws = WsClient

  function Wrap(id: JobId, messages: seq<Message>): seq<Envelope> {
    seq(|messages|, i requires 0 <= i < |messages| => Envelope(id, messages[i]))
  }

  function Lookup<T>(m: map<JobId, T>, id: JobId): Option<T> {
    if id in m then Some(m[id]) else None
  }

  /** Where a call began: the machine, the messages already submitted, and the other jobs. */
  datatype Origin = Origin(job: Job, submitted: seq<Envelope>, rows: map<JobId, Row>, files: map<JobId, Bytes>)

  class JobWorker {
    const store: Store.QueueStore
    const ws: Ws.WsClient<Envelope>
    var tasks: set<JobId>
    var cancelRequested: set<JobId>
    /** The download directory: one file per job id. */
    var files: map<JobId, Bytes>

    constructor (store: Store.QueueStore, ws: Ws.WsClient<Envelope>, files: map<JobId, Bytes>)
      ensures this.store == store && this.ws == ws && this.files == files && tasks == {} && cancelRequested == {}
    {
      this.store, this.ws, this.files := store, ws, files;
      tasks, cancelRequested := {}, {};
    }

    ghost predicate Valid()
      reads this, store, ws
    {
      store.Valid() && ws.Valid() && !ws.state.phase.Flushing?
    }

    /** The machine and the worker hold the same row, file and cancel flag for a job. */
    ghost predicate Agrees(id: JobId, v: Job)
      reads this, store
    {
      v.row == Lookup(store.rows, id) && v.file == Lookup(files, id) && v.cancelRequested == (id in cancelRequested)
    }

    /** Since `o`, the worker has done what the machine does on its way to `v`: it has submitted
        `told` for this job and left every other job alone. */
    ghost predicate Synced(id: JobId, o: Origin, v: Job, told: seq<Message>)
      reads this, store, ws
    {
      && Valid() && Agrees(id, v) && Leads(o.job, v, told)
      && ws.state.submitted == o.submitted + Wrap(id, told)
      && store.rows - {id} == o.rows - {id} && files - {id} == o.files - {id}
    }

    /** A database write and the resumption after it. */
    method Write(id: JobId, ghost o: Origin, ghost v: Job, ghost told: seq<Message>, w: Write) returns (ghost v': Job)
      requires Synced(id, o, v, told) && v.pc == Writing(w, false) && v.row.Some?
      modifies store
      ensures Synced(id, o, v', told) && v'.pc == AfterWrite(w) && v'.row.Some? && v'.probes == v.probes && v'.handler == v.handler
      ensures v'.row.value.order == v.row.value.order && v'.cancelRequested == v.cancelRequested
    {
      hide Leads, AfterWrite;
      v' := WriteLeads(o.job, v, told, w);
      match w {
        case SetFile => store.SetLocalFilePath(id);
        case SetStatus(s, c, t) => store.UpdateStatus(id, s, c, t);
      }
    }

    /** A `send`, and for the last message of a job the `finally` block. */
    method SendOn(id: JobId, ghost o: Origin, ghost v: Job, ghost told: seq<Message>, m: Message)
      returns (ghost v': Job, ghost told': seq<Message>)
      requires Synced(id, o, v, told) && v.pc == Sending(m)
      modifies this, ws
      ensures Synced(id, o, v', told') && v'.row == v.row && v'.probes == v.probes && v'.handler == v.handler && told' == told + [m]
      ensures if m.StartedMsg? then v'.pc.ReadyToPrint? else v'.pc.Idle? && id !in tasks
    {
      hide Leads;
      v' := SubmitLeads(o.job, v, told);
      told' := told + [m];
      ws.Send(Envelope(id, m), true, false);
      assert Wrap(id, told') == Wrap(id, told) + [Envelope(id, m)];
      if !m.StartedMsg? {
        Leave(id);
      }
    }

    /** The `finally` block of `_process`. */
    method Leave(id: JobId)
      modifies `tasks, `cancelRequested
      ensures tasks == old(tasks) - {id} && cancelRequested == old(cancelRequested) - {id} && Valid() == old(Valid())
    {
      tasks := tasks - {id};
      cancelRequested := cancelRequested - {id};
    }

    /** `_fail` */
    method Fail(id: JobId, ghost o: Origin, ghost v: Job, ghost told: seq<Message>, code: string, text: string)
      returns (ghost v': Job, ghost told': seq<Message>)
      requires Synced(id, o, v, told) && v.pc == Writing(FailedWrite(code, text), false) && v.row.Some?
      modifies this, store, ws
      ensures Synced(id, o, v', told') && v'.pc.Idle? && v'.probes == v.probes && v'.handler == v.handler && id !in tasks
      ensures told' == told + [FailedMsg(Some(code), Some(text))]
    {
      hide Synced, Leads;
      v' := Write(id, o, v, told, FailedWrite(code, text));
      v', told' := SendOn(id, o, v', told, FailedMsg(Some(code), Some(text)));
    }

    /** A cancel may set its flag here and get no further. */
    method Interrupt(id: JobId, ghost o: Origin, ghost v: Job, ghost told: seq<Message>, now: bool) returns (ghost v': Job)
      requires Synced(id, o, v, told) && (now ==> v.handler.NoHandler?)
      modifies `cancelRequested
      ensures Synced(id, o, v', told) && v' == if now then Flagged(v) else v
    {
      hide Leads;
      v' := v;
      if now {
        FlagLeads(o.job, v, told);
        v' := Flagged(v);
        cancelRequested := cancelRequested + {id};
      }
    }

    /** One status read, during which a cancel may set its flag. */
    method ReadStatus(id: JobId, ghost o: Origin, ghost v: Job, ghost told: seq<Message>, world: World, k: nat)
      returns (online: bool, ghost v': Job)
      requires Synced(id, o, v, told) && v.pc.Probing? && (world.cancelAt == Some(k) ==> v.handler.NoHandler?)
      modifies `cancelRequested
      ensures Synced(id, o, v', told) && online == world.online(k) && v'.probes == v.probes + 1 && v'.row == v.row
      ensures v'.cancelRequested == (v.cancelRequested || world.cancelAt == Some(k))
      ensures v'.handler == if world.cancelAt == Some(k) then CancelFlagged else v.handler
      ensures v'.pc == if online then CheckBeforePrint
                       else if v.pc.waited == 0 then Writing(SetStatus(Waiting, None, None), false)
                       else PollGate(v.pc.waited)
    {
      hide Leads;
      v' := Interrupt(id, o, v, told, world.cancelAt == Some(k));
      online := world.online(k);
      v' := StatusLeads(o.job, v', told, online);
    }

    /** The handler that a cancel set during the first `k` reads leaves behind. */
    ghost predicate HandlerAfter(world: World, k: nat, before: Handler, after: Handler) {
      after == if world.cancelAt.Some? && world.cancelAt.value < k then CancelFlagged else before
    }

    /** `_wait_for_printer`: one status read, then at most twelve polls. */
    method WaitForPrinter(id: JobId, ghost o: Origin, ghost v: Job, ghost told: seq<Message>, world: World)
      returns (ready: bool, probes: nat, ghost v': Job)
      requires Synced(id, o, v, told) && v.pc == Probing(0) && v.probes == 0 && v.row.Some?
      requires world.cancelAt.Some? ==> v.handler.NoHandler?
      modifies store, `cancelRequested
      ensures Synced(id, o, v', told) && v'.row.Some? && v'.row.value.order == v.row.value.order
      ensures 1 <= probes == v'.probes <= MAX_PROBES && HandlerAfter(world, probes, v.handler, v'.handler)
      ensures v'.cancelRequested == Pending(v.cancelRequested, world, probes - 1)
      ensures ready ==> ReadyAt(v.cancelRequested, world, probes - 1)
      ensures !ready ==> forall k :: 0 <= k < probes ==> !world.online(k)
      ensures !ready ==> probes == MAX_PROBES || Pending(v.cancelRequested, world, probes - 1)
      ensures v'.pc == if ready then CheckBeforePrint
                       else Writing(FailedWrite(PRINTER_OFFLINE, NotOnline(v.row.value.order.printer)), false)
    {
      hide Leads, NotOnline, Step, Synced;
      var online;
      online, v' := ReadStatus(id, o, v, told, world, 0);
      probes := 1;
      if online {
        return true, probes, v';
      }
      v' := Write(id, o, v', told, SetStatus(Waiting, None, None));
      ready, probes, v' := PollPrinter(id, o, v', told, world, v);
    }

    /** The poll loop. `v` is the job before its first status read. */
    method PollPrinter(id: JobId, ghost o: Origin, ghost u: Job, ghost told: seq<Message>, world: World, ghost v: Job)
      returns (ready: bool, probes: nat, ghost v': Job)
      requires Polling(id, o, u, told, world, v, 0, 1)
      requires world.cancelAt.Some? ==> v.handler.NoHandler?
      modifies store, `cancelRequested
      ensures Synced(id, o, v', told) && v'.row.Some? && v'.row.value.order == v.row.value.order
      ensures 1 <= probes == v'.probes <= MAX_PROBES && HandlerAfter(world, probes, v.handler, v'.handler)
      ensures v'.cancelRequested == Pending(v.cancelRequested, world, probes - 1)
      ensures ready ==> ReadyAt(v.cancelRequested, world, probes - 1)
      ensures !ready ==> forall k :: 0 <= k < probes ==> !world.online(k)
      ensures !ready ==> probes == MAX_PROBES || Pending(v.cancelRequested, world, probes - 1)
      ensures v'.pc == if ready then CheckBeforePrint
                       else Writing(FailedWrite(PRINTER_OFFLINE, NotOnline(v.row.value.order.printer)), false)
    {
      hide Leads, NotOnline, Step, Synced;
      probes, v' := 1, u;
      var waited := 0;
      while waited < MAX_WAIT_SECONDS
        invariant 0 <= waited <= MAX_WAIT_SECONDS
        invariant Polling(id, o, v', told, world, v, waited, probes)
      {
        var cancelled := IsCancelled(id, o, v', told);
        v' := PassGate(id, o, v', told);
        if cancelled {
          return false, probes, v';
        }
        waited := waited + POLL_SECONDS;
        var online;
        online, v' := ReadStatus(id, o, v', told, world, probes);
        probes := probes + 1;
        if online {
          return true, probes, v';
        }
      }
      v' := PassGate(id, o, v', told);
      return false, probes, v';
    }

    /** At the head of the poll loop after `waited` seconds: none of the reads so far found the
        printer online, and no cancel was pending before the last. */
    ghost predicate Polling(id: JobId, o: Origin, u: Job, told: seq<Message>, world: World, v: Job, waited: nat, probes: nat)
      reads this, store, ws
    {
      && v.row.Some? && Synced(id, o, u, told) && u.pc == PollGate(waited) && waited % POLL_SECONDS == 0
      && u.row.Some? && u.row.value.order == v.row.value.order && HandlerAfter(world, probes, v.handler, u.handler)
      && probes == u.probes == 1 + waited / POLL_SECONDS
      && u.cancelRequested == Pending(v.cancelRequested, world, probes - 1)
      && (forall k :: 0 <= k < probes ==> !world.online(k))
      && forall k :: 0 <= k < probes - 1 ==> !Pending(v.cancelRequested, world, k)
    }

    method IsCancelled(id: JobId, ghost o: Origin, ghost v: Job, ghost told: seq<Message>) returns (r: bool)
      requires Synced(id, o, v, told)
      ensures r == v.cancelRequested == (id in cancelRequested)
    {
      hide Leads;
      r := id in cancelRequested;
    }

    /** The head of the poll loop, on the machine. */
    ghost method PassGate(id: JobId, o: Origin, v: Job, told: seq<Message>) returns (v': Job)
      requires Synced(id, o, v, told) && v.pc.PollGate? && v.row.Some?
      ensures Synced(id, o, v', told) && SameJob(v, v') && v'.probes == v.probes
      ensures v'.pc == if v.pc.waited >= MAX_WAIT_SECONDS || v.cancelRequested
                       then Writing(FailedWrite(PRINTER_OFFLINE, NotOnline(v.row.value.order.printer)), false)
                       else Probing(v.pc.waited + POLL_SECONDS)
    {
      hide Leads, NotOnline;
      v' := GateLeads(o.job, v, told);
    }

    /** The part of `_process` that makes sure the document is on disk. */
    method GetDocument(id: JobId, ghost o: Origin, ghost v: Job, ghost told: seq<Message>, hasFile: bool, source: Source)
      returns (ready: bool, ghost v': Job, ghost told': seq<Message>)
      requires Synced(id, o, v, told) && v.pc == Located(hasFile) && v.probes == 0 && v.row.Some?
      modifies this, store, ws
      ensures Synced(id, o, v', told') && v'.probes == 0 && v'.handler == v.handler
      ensures if ready then v'.pc.CheckBeforeWait? && v'.row.Some? && v'.row.value.order == v.row.value.order && told' == told
                            && v'.cancelRequested == v.cancelRequested
              else v'.pc.Idle? && id !in tasks
      ensures var error := DocumentError(hasFile, v.file, source);
        && (ready <==> error.None?)
        && (!ready ==> told' == told + [FailedMsg(Some(error.value.0), Some(error.value.1))])
    {
      hide Leads, Step, Fetch;
      told' := told;
      if hasFile && id in files {
        v' := FoundLeads(o.job, v, told);
        return true, v', told';
      }
      v' := DownloadLeads(o.job, v, told, source);
      var outcome, file := DownloadDocument(source, Lookup(files, id));
      files := if file.Some? then files[id := file.value] else files;
      if outcome.DownloadError? {
        v', told' := Fail(id, o, v', told, outcome.code, outcome.text);
        return false, v', told';
      }
      v' := Write(id, o, v', told, SetFile);
      return true, v', told';
    }

    /** The call of `print`, on the machine. */
    ghost method CallPrint(id: JobId, o: Origin, v: Job, told: seq<Message>, outcome: PrintOutcome) returns (v': Job)
      requires Synced(id, o, v, told) && v.pc.ReadyToPrint? && v.row.Some?
      ensures Synced(id, o, v', told) && SameJob(v, v') && v'.probes == v.probes
      ensures v'.pc == Writing(if outcome.Returns? then SetStatus(Completed, None, None)
                               else FailedWrite(PRINTER_ERROR, outcome.text), false)
    {
      hide Leads;
      v' := PrintLeads(o.job, v, told, outcome);
    }

    /** The part of `_process` from PRINTING to the end. */
    method Print(id: JobId, ghost o: Origin, ghost v: Job, ghost told: seq<Message>, outcome: PrintOutcome)
      returns (ghost v': Job, ghost told': seq<Message>)
      requires Synced(id, o, v, told) && v.pc == Writing(SetStatus(Printing, None, None), false) && v.row.Some?
      modifies this, store, ws
      ensures Synced(id, o, v', told') && v'.pc.Idle? && v'.probes == v.probes && v'.handler == v.handler && id !in tasks
      ensures told' == told + PrintTells(outcome)
    {
      hide Leads, Step, Synced, AfterWrite;
      StatusesSent();
      v' := Write(id, o, v, told, SetStatus(Printing, None, None));
      v', told' := SendOn(id, o, v', told, StartedMsg);
      v' := CallPrint(id, o, v', told', outcome);
      if outcome.Raises? {
        v', told' := Fail(id, o, v', told', PRINTER_ERROR, outcome.text);
      } else {
        v' := Write(id, o, v', told', SetStatus(Completed, None, None));
        v', told' := SendOn(id, o, v', told', CompletedMsg);
      }
    }

    /** The part of `_process` behind its first look at the cancel flag. */
    method WaitAndPrint(id: JobId, ghost o: Origin, ghost v: Job, ghost told: seq<Message>, world: World, printer: string)
      returns (probes: nat, ghost v': Job, ghost told': seq<Message>)
      requires Synced(id, o, v, told) && v.pc == Probing(0) && v.probes == 0 && !v.cancelRequested
      requires v.row.Some? && v.row.value.order.printer == printer && (world.cancelAt.Some? ==> v.handler.NoHandler?)
      modifies this, store, ws
      ensures Synced(id, o, v', told') && v'.pc.Idle? && probes == v'.probes <= MAX_PROBES && id !in tasks
      ensures HandlerAfter(world, probes, v.handler, v'.handler)
      ensures told' == told + WaitTells(printer, world)
    {
      hide Leads, Step, NotOnline, PrintTells, Synced;
      var ready;
      ready, probes, v' := WaitForPrinter(id, o, v, told, world);
      WaitedFor(printer, world, ready, probes);
      if !ready {
        v', told' := Fail(id, o, v', told, PRINTER_OFFLINE, NotOnline(printer));
        return;
      }
      var cancelled := IsCancelled(id, o, v', told);
      if cancelled {
        v' := LeaveCancelled(id, o, v', told);
        told' := told;
        return;
      }
      v' := PassCheck(id, o, v', told);
      v', told' := Print(id, o, v', told, world.printing);
    }

    /** A look at the cancel flag that finds it set ends the task. */
    method LeaveCancelled(id: JobId, ghost o: Origin, ghost v: Job, ghost told: seq<Message>) returns (ghost v': Job)
      requires Synced(id, o, v, told) && (v.pc.CheckBeforeWait? || v.pc.CheckBeforePrint?) && v.cancelRequested
      modifies `tasks, `cancelRequested
      ensures Synced(id, o, v', told) && v'.pc.Idle? && v'.probes == v.probes && v'.handler == v.handler && id !in tasks
    {
      hide Leads;
      v' := CheckLeads(o.job, v, told);
      Leave(id);
    }

    /** One that does not lets it go on. */
    ghost method PassCheck(id: JobId, o: Origin, v: Job, told: seq<Message>) returns (v': Job)
      requires Synced(id, o, v, told) && (v.pc.CheckBeforeWait? || v.pc.CheckBeforePrint?) && !v.cancelRequested
      ensures Synced(id, o, v', told) && SameJob(v, v') && v'.probes == v.probes
      ensures v'.pc == if v.pc.CheckBeforeWait? then Probing(0) else Writing(SetStatus(Printing, None, None), false)
    {
      hide Leads;
      v' := CheckLeads(o.job, v, told);
    }

    /** `_process`: whatever the server, the printer and the store answer, it is a run of the
        machine from the task's creation to its end. */
    method Process(id: JobId, world: World, ghost v0: Job)
      returns (probes: nat, ghost v: Job, ghost told: seq<Message>)
      requires Valid() && Agrees(id, v0) && v0.pc.Created? && v0.probes == 0
      requires world.cancelAt.Some? ==> v0.handler.NoHandler?
      modifies this, store, ws
      ensures Synced(id, Origin(v0, old(ws.state.submitted), old(store.rows), old(files)), v, told)
      ensures v.pc.Idle? && probes == v.probes <= MAX_PROBES && HandlerAfter(world, probes, v0.handler, v.handler)
      ensures v0.row.Some? ==> id !in tasks && told == Tells(v0, world)
    {
      hide Leads, Step, DocumentError, WaitTells;
      ghost var o := Origin(v0, ws.state.submitted, store.rows, files);
      LeadsHere(v0);
      probes, told := 0, [];
      assert ws.state.submitted == o.submitted + Wrap(id, []);
      v := ReadLeads(v0, v0, told);
      var record := store.Get(id);
      if record.None? {
        return;
      }
      var ready;
      ready, v, told := GetDocument(id, o, v, told, record.value.hasFile, world.source);
      if !ready {
        return;
      }
      hide Synced;
      var cancelled := IsCancelled(id, o, v, told);
      if cancelled {
        v := LeaveCancelled(id, o, v, told);
        return;
      }
      v := PassCheck(id, o, v, told);
      probes, v, told := WaitAndPrint(id, o, v, told, world, record.value.order.printer);
    }

    /** The part of `handle_dispatch` from the insert on, whether or not another dispatch has
        stored the job since the handler looked. */
    method AcceptDispatch(id: JobId, order: Order, ghost v: Job) returns (ghost v': Job)
      requires Valid() && Agrees(id, v) && v.handler == Inserting(order)
      modifies this, store, ws
      ensures v' == RunJob(v, ACCEPT_STEPS) && v' == Accepted(v, order)
      ensures Valid() && Agrees(id, v')
      ensures ws.state.submitted == old(ws.state.submitted) + Wrap(id, AcceptTells(v))
      ensures store.rows - {id} == old(store.rows) - {id} && files == old(files)
      ensures tasks == if v.row.None? then old(tasks) + {id} else old(tasks)
      ensures v.row.None? ==> id in store.rows && store.rows[id] == Row(order, Received, None, None, false, 0)
    {
      hide RunJob, Report, Accepted;
      AcceptLeads(v, order);
      AcceptedIs(v, order);
      v' := Accepted(v, order);
      var inserted := store.InsertReceived(id, order);
      if !inserted {
        var existing := store.Get(id);
        if existing.Some? && IsTerminal(existing.value.status) {
          ws.Send(Envelope(id, Report(existing.value)), true, false);
        }
        return;
      }
      ws.Send(Envelope(id, ReceivedMsg), true, false);
      tasks := tasks + {id};
    }

    /** `handle_dispatch`: the four handler steps of the machine, of which a job already known
        takes only the resend of its terminal message, or none. */
    method HandleDispatch(id: JobId, order: Order, ghost v: Job) returns (ghost v': Job)
      requires Valid() && Agrees(id, v) && v.handler.NoHandler?
      modifies this, store, ws
      ensures v' == RunJob(v, DispatchSteps(order))
      ensures Valid() && Agrees(id, v') && v'.handler.NoHandler?
      ensures v.log <= v'.log && Messages(v'.log[|v.log|..]) == AcceptTells(v)
      ensures ws.state.submitted == old(ws.state.submitted) + Wrap(id, AcceptTells(v))
      ensures store.rows - {id} == old(store.rows) - {id} && files == old(files)
      ensures tasks == if v.row.None? then old(tasks) + {id} else old(tasks)
      ensures v.row.None? ==> id in store.rows && store.rows[id] == Row(order, Received, None, None, false, 0)
    {
      hide Messages, RunJob, Report, Accepted;
      var existing := store.Get(id);
      if existing.Some? {
        DispatchOfKnown(v, order);
        v' := RunJob(v, DispatchSteps(order));
        if IsTerminal(existing.value.status) {
          ws.Send(Envelope(id, Report(existing.value)), true, false);
        }
        return;
      }
      DispatchOfNew(v, order);
      AcceptTold(v.(handler := Inserting(order)), order);
      AcceptedIs(v.(handler := Inserting(order)), order);
      v' := AcceptDispatch(id, order, v.(handler := Inserting(order)));
    }

    /** `handle_cancel`: the five cancel steps of the machine, wherever the task is. A write the
        task has with a thread is left to `LateWrite`. `begun` says whether a live task has
        entered its `try` block; only then its `finally` block runs. */
    method HandleCancel(id: JobId, begun: bool, ghost v: Job) returns (ghost v': Job)
      requires Valid() && Agrees(id, v) && v.handler.NoHandler?
      requires (!v.pc.Idle? ==> id in tasks) && (begun <==> !v.pc.Idle? && !v.pc.Created?)
      modifies this, store, ws
      ensures v' == RunJob(v, CancelSteps())
      ensures Valid() && Agrees(id, v') && v'.handler.NoHandler?
      ensures v.log <= v'.log && ws.state.submitted == old(ws.state.submitted) + Wrap(id, Messages(v'.log[|v.log|..]))
      ensures store.rows - {id} == old(store.rows) - {id} && files == old(files)
    {
      hide Messages, RunJob, Updated, AfterCancel, Valid;
      v' := CancelLeads(v);
      if v.row.Some? { AfterCancelIs(v); }
      RaiseFlag(id);
      var record := store.Get(id);
      if record.None? || !IsResumable(record.value.status) {
        return;
      }
      if id in tasks && begun {
        Leave(id);
      }
      RecordCancel(id);
    }

    /** The last two statements of an honoured cancel. */
    method RecordCancel(id: JobId)
      requires Valid()
      modifies store, ws
      ensures Valid() && ws.state.submitted == old(ws.state.submitted) + [Envelope(id, CancelledMsg)]
      ensures store.rows == if id in old(store.rows)
                            then old(store.rows)[id := Updated(old(store.rows)[id], Cancelled, None, None)] else old(store.rows)
    {
      hide Updated;
      store.UpdateStatus(id, Cancelled, None, None);
      ws.Send(Envelope(id, CancelledMsg), true, false);
    }

    method RaiseFlag(id: JobId)
      modifies `cancelRequested
      ensures cancelRequested == old(cancelRequested) + {id} && Valid() == old(Valid())
    {
      cancelRequested := cancelRequested + {id};
    }

    /** A write that was with a thread when its task was cancelled commits all the same. */
    method LateWrite(id: JobId, w: Write, ghost v: Job) returns (ghost v': Job)
      requires Valid() && Agrees(id, v) && v.orphan == Some(w)
      modifies store
      ensures v' == Step(v, OrphanCommits) && Valid() && Agrees(id, v') && v'.orphan.None?
      ensures store.rows - {id} == old(store.rows) - {id}
    {
      hide TaskMove, HandlerMove, Updated;
      v' := Step(v, OrphanCommits);
      match w {
        case SetFile => store.SetLocalFilePath(id);
        case SetStatus(s, c, t) => store.UpdateStatus(id, s, c, t);
      }
    }
  }
}
