# ERES Print Agent: a verified model

The agent receives print jobs from a hub over a WebSocket, stores each in SQLite, downloads its
PDF, prints it, and reports every status back; it survives crashes, lost connections, duplicate
dispatches and cancels. On macOS, receipts are dithered to a bitmap and sent to the printer as
ESC/POS bytes. This project models three parts of it in Dafny and proves what they promise.

**The print pipeline and its reporting.** `Pipeline` is a step machine. A `Job` holds everything
there is about one job id: the stored row and file, the volatile task with its program counter,
the cancel flag, the inbound handler, and the history of commits, submissions, downloads and
print calls. An `Action` is one step together with what the environment decides in it, so a run
is a sequence of actions and a theorem about all sequences is a theorem about all runs. Every
`await` is a step boundary. A write handed to a thread can commit, or be dropped, after the task
that asked for it was cancelled. A crash may fall anywhere, also inside recovery, and forgets all
volatile state.

- `PipelineSafety`, `PipelineHistory`: the inductive invariants of the finest interleaving.
- `PipelineCoarse`: the same machine under a stricter schedule, in which a database write with the
  resumption of its caller, and a cancel's read, check, `task.cancel()` and write, are not
  interleaved. Crashes may still fall inside them.
- `PipelineTheorems`: results about every run.
- `PipelineRaces`: exactly which schedules break the transition table.
- `PipelineAck`: exactly when a job's receipt is acknowledged.
- `PipelineProgress`, `PipelineInPeace`: a rank that every step of a task lowers, and with it
  progress at the finest interleaving, while other jobs and duplicate dispatches go on.
- `PipelineAdmission`: what the agent takes on beside other jobs, and that it comes back from every
  crash.
- `PipelineStranded`: what a cancel that comes before its dispatch leads to.
- `PipelineLimits`: concrete runs that show what the code does not promise.
- `Outbox`: the life of the durable queue as a step machine of its own.
- `Delivery`: pipeline and durable queue together, hence what the hub gets to see.
- `QueueStore`, `WsClient`, `JobWorker`, `Recovery`: the source's classes as Dafny classes.
  `WsClient` refines `Outbox`. Each call of `JobWorker`, taken on its own, is shown to perform a
  run of the step machine (`JobRuns`), and what it submits is given as a function of what the
  server and the printer answer. How calls interleave is not derived from the classes: it is what
  the step machine says, by definition, with a step for each stretch between two `await`s.
- `Downloader`: the chunk loop, its file and its errors.

**The receipt raster path.** `Dither` has the Floyd-Steinberg recurrence and the in-place loop over
a rolling pair of rows; `DitherTheorems` has bounds and the balance of ink; `Escpos` the encoder and
a decoder that goes by lengths alone; `Receipt` the way from pages to bytes and back.

**Paper selection.** `RollMedia` has the stable sort and search for a roll size, and the custom size.

## Assumptions

- One agent process per database; a commit is atomic and durable; only the agent touches the
  download directory, and each job id has its own file.
- Inbound messages are handled one at a time, and recovery finishes before the network starts.
- After `task.cancel()` a task executes no further statement of its own body before its `finally`
  block. A cancel that finds the task before its `try` block skips the `finally` block.
- A socket that has raised ConnectionClosed once stays closed.
- Dithering and paper sizes are computed in exact real arithmetic, not in floating point.
- A history's `Submit` event is the call of `send`; whether the hub gets the message is the
  business of `Outbox`.

## Where the code falls short of its words

- `README.md` of the agent says that after a crash between insert and ack the hub re-dispatches the
  job and the ack goes out then. The code finds the row in flight and ignores the dispatch
  (job_worker.py lines 66 to 71). `UnacknowledgedJobExists` is a run in which such a job is even
  completed, `MissedAckIsNeverMadeUp` says that the ack never follows, and
  `AcknowledgedExactlyUnlessCut` is the exact condition.
- Not every status write is a legal transition when a write outlives its task or a cancel acts on
  a status it read earlier: `OutlivedWriteExists` and `OvertakenCancelExists` are such runs,
  `LegalExactlyWithoutRaces` is the exact condition, `CoarseHistoryIsLegal` a schedule that
  guarantees it.
- Line 163 of job_worker.py relies on `handle_cancel` having done its part, which a cancel that came
  before its dispatch has not: `EarlyCancelExists` is a run that leaves a job with nobody working on
  it, `EarlyCancel` says that this happens if and only if the document is obtained, and
  `StrandedJobStays` that only a crash or an accepted cancel ends it.
- The durable queue keeps the order of submission if and only if no `send` finds messages waiting
  behind its socket: `FifoExactlyWithoutOvertaking`, with `OvertakingExists` as the witness.

## Model

| member | source | states |
|---|---|---|
| `JobStatus.TerminalIsAbsorbing` | eres_print_agent/state_machine.py:23-52 | On a path legal under the table, everything after a terminal status is that status. |
| `JobStatus.PrintingIsNeverResumed` | eres_print_agent/state_machine.py:23-52 | On a legal path, after PRINTING comes only PRINTING or a terminal status, never one recovery would resume. |
| `JobStatus.TableByTarget` | eres_print_agent/state_machine.py:23-40 | The table read by its targets: from which statuses each status can be reached, and from no others. |
| `JobStatus.TerminalExactly` | eres_print_agent/state_machine.py:42-56 | A status is terminal if and only if the table leads nowhere from it. |
| `PipelineTheorems.AtMostOnePrint` | eres_print_agent/core/job_worker.py:135-187 | Over every run, with any crashes, duplicates and cancels: `print` is called at most once per job id, PRINTING is committed at most once, a print call implies that commit, and from it on the row is never RECEIVED or WAITING_FOR_PRINTER again. |
| `PipelineTheorems.IllegalEdgesTouchCancelled` | eres_print_agent/core/job_worker.py:93-104 | At the finest interleaving a row's history starts with RECEIVED and any step the table lacks has CANCELLED as source or target. |
| `PipelineTheorems.LegalUnlessCancelAccepted` | eres_print_agent/core/job_worker.py:93-104 | A job for which no cancel was accepted has a history that is legal from QUEUED on. |
| `PipelineRaces.LegalExactlyWithoutRaces` | eres_print_agent/core/job_worker.py:93-104 | At the finest interleaving a row's history is legal if and only if no cancel commits after PRINTING, COMPLETED or FAILED was committed between its read and its commit, and no outlived write commits over CANCELLED. |
| `PipelineRaces.OvertakenAlwaysFits` | eres_print_agent/core/job_worker.py:94-103 | In every run, while an accepted cancel is under way, such a commit has happened since it was accepted if and only if the row is no longer RECEIVED or WAITING_FOR_PRINTER. |
| `PipelineLimits.OutlivedWriteExists` | eres_print_agent/core/job_worker.py:93-133 | There is a run with the history RECEIVED, CANCELLED, FAILED: a write outlives its task. |
| `PipelineLimits.OvertakenCancelExists` | eres_print_agent/core/job_worker.py:93-104 | There is a run with the history RECEIVED, PRINTING, CANCELLED: a cancel acts on what it read. |
| `PipelineLimits.UnacknowledgedJobExists` | eres_print_agent/core/job_worker.py:63-91 | There is a run in which a job is completed, and reported so, and its receipt is never acknowledged. |
| `PipelineLimits.EarlyCancelExists` | eres_print_agent/core/job_worker.py:93-97 | There is a run in which a cancel before the dispatch leaves a stored, acknowledged job with no task. |
| `PipelineAck.AcknowledgedExactlyUnlessCut` | eres_print_agent/core/job_worker.py:73-91 | Over every run, a stored job whose handler is past that point has been acknowledged if and only if neither a crash nor an error ended the handler between insert and acknowledgement. |
| `PipelineAck.MissedAckIsNeverMadeUp` | eres_print_agent/core/job_worker.py:66-71 | A job not acknowledged then is not acknowledged after any continuation of the run, whatever is dispatched or resumed. |
| `PipelineStranded.EarlyCancel` | eres_print_agent/core/job_worker.py:135-163 | A task that starts with a cancel pending and meets no crash, further cancel or unhandled failure ends in a bounded number of steps; it leaves the job unmoved, told nothing and stranded if and only if the document was on disk or downloaded, and otherwise failed and reported. |
| `PipelineStranded.StrandedJobStays` | eres_print_agent/core/job_worker.py:66-104 | A job waiting to be processed with no task, handler or write at work stays exactly so, with nothing written or told, until a crash or an accepted cancel. |
| `PipelineTheorems.RowMirrorsHistory` | eres_print_agent/db/queue_store.py:137-165 | In every run a row holds the last committed status, and `attempts` is the number of commits after the insert. |
| `PipelineTheorems.MessagesFollowCommits` | eres_print_agent/core/job_worker.py:73-133 | Write-ahead reporting: before every message submitted for a job, first or resent, there is a commit of the very status it reports, for a failure with the same code and text. |
| `PipelineTheorems.CompletedMeansPrinted` | eres_print_agent/core/job_worker.py:113-187 | Before every completed message there are, in this order, a print call, its normal return, and the commit of COMPLETED. |
| `PipelineTheorems.PrintedFileIsWhole` | eres_print_agent/core/job_worker.py:143-180 | What is printed is, byte for byte, one whole stream of 1 byte to 25 MiB that the server served for this job in the run and that ended well, whatever crashes cut earlier attempts short; and PRINTING was committed before. |
| `PipelineTheorems.DownloadsWereServed` | eres_print_agent/net/downloader.py:69-109 | In every run a finished download is, chunk for chunk, a stream the server answered one of the task's own requests with earlier, and what an unfinished one has and still awaits is too. |
| `PipelineTheorems.StoredFileIsWhole` | eres_print_agent/net/downloader.py:69-109 | In every state a stored path leads to a whole download, and no file exceeds the maximum. |
| `PipelineTheorems.StoresWhatWasDispatched` | eres_print_agent/core/job_worker.py:63-81 | Over every run, the order stored for a job is, field by field, one the hub dispatched for it in the run while it was not yet stored. |
| `PipelineTheorems.PrintsWhatWasDispatched` | eres_print_agent/core/job_worker.py:177-180 | Every print call carries the stored order, and so one that the hub dispatched: its printer, document and number of copies. |
| `PipelineTheorems.StoredPathStays` | eres_print_agent/db/queue_store.py:137-173 | A stored file path stays stored after any continuation of the run. |
| `PipelineTheorems.OrderNeverChanges` | eres_print_agent/db/queue_store.py:96-173 | What the first dispatch of a job stored about it is the same after any continuation of the run. |
| `PipelineTheorems.HistoryGrows` | eres_print_agent/core/job_worker.py:63-210 | A job's history is a prefix of its history after any continuation of the run, crashes included. |
| `PipelineTheorems.CoarseHistoryIsLegal` | eres_print_agent/state_machine.py:23-52 | Under the coarse schedule, with crashes anywhere, every row's history is a legal path from QUEUED. |
| `PipelineTheorems.TerminalRowsStay` | eres_print_agent/state_machine.py:42-52 | Under the coarse schedule a terminal row keeps its status over any continuation of the run. |
| `PipelineTheorems.TerminalReportsAgree` | eres_print_agent/core/job_worker.py:113-133 | Under the coarse schedule all terminal messages for a job, over all lifetimes, are one and the same message and say what the row says, error code and text included. |
| `PipelineTheorems.TellsALegalPath` | eres_print_agent/core/job_worker.py:90-187 | Under the coarse schedule the statuses submitted in one lifetime are a legal path from the status stored when it began, and only a terminal one is repeated. |
| `PipelineTheorems.OneLifetimeStartsAtQueued` | eres_print_agent/core/agent.py:168-183 | Without a crash that path starts at QUEUED and covers every message of the job. |
| `PipelineTheorems.AttemptsAreBounded` | eres_print_agent/db/queue_store.py:137-165 | Under the coarse schedule `attempts` is at most the number of tasks ever created for the job, one for each lifetime that processed it, plus 2. |
| `PipelineInPeace.TaskFinishes` | eres_print_agent/core/job_worker.py:135-210 | From any point of any run, whatever follows short of a crash, a cancel of this job or a failure the code does not handle, other jobs and duplicate dispatches included: a live task with no cancel pending is over after at most 43 steps plus one per chunk, can take an enabled step until then, reads the printer at most 13 times, and ends with a terminal row that was reported; every terminal message equals that report, and without a further dispatch there is exactly one, the last. |
| `PipelineInPeace.AlwaysOwnsRow` | eres_print_agent/core/job_worker.py:113-210 | In every run, while a task is live, what it is about to report and what a duplicate dispatch is answered with are what the row says. |
| `PipelineAdmission.EveryStepIsTaken` | eres_print_agent/net/ws_client.py:158-161 | An agent that is up, with whatever jobs it has, takes every step of every job, a dispatch or cancel when no other inbound message is being handled, and no other job is touched. |
| `PipelineAdmission.DispatchIsTaken` | eres_print_agent/core/job_worker.py:63-91 | From every run, beside any other jobs: a dispatch of an unknown job stores its order as it came in a RECEIVED row, submits the acknowledgement and creates a task. |
| `PipelineAdmission.DuplicateIsTaken` | eres_print_agent/core/job_worker.py:66-71 | A dispatch of a known job submits its terminal message again if it is terminal, and else changes nothing. |
| `PipelineAdmission.CancelIsTaken` | eres_print_agent/core/job_worker.py:93-104 | A cancel of a RECEIVED or WAITING_FOR_PRINTER job, wherever its task is, ends the task, stores CANCELLED and submits it; any other cancel leaves only its flag. |
| `PipelineAdmission.AgentComesBack` | eres_print_agent/core/agent.py:168-183 | From any state, after any crash, the steps of recovery can all be taken and lead to an agent that is up, with every job as recovery leaves it. |
| `PipelineAdmission.RecoveredIs` | eres_print_agent/core/agent.py:121-138 | That is: a PRINTING row is FAILED with the restart code and text, and reported; any other row is as it was; exactly the RECEIVED and WAITING_FOR_PRINTER rows have a task; nothing volatile is left; a file being written may have lost its end. |
| `PipelineAdmission.CoarseLeavesRoom` | eres_print_agent/core/job_worker.py:93-104 | The coarse schedule allows crashes and recovery at any time, whole dispatches and cancels unless the task is in the middle of a write, and every step of a task for which no cancel is under way. |
| `PipelineProgress.TaskLeftAloneFinishes` | eres_print_agent/core/job_worker.py:135-210 | The same for one job in isolation. |
| `PipelineProgress.AtMostThirteenProbes` | eres_print_agent/core/job_worker.py:195-210 | In every run no lifetime of a task reads the printer's status more than 13 times, and the reads are one more than the seconds waited over 5. |
| `PipelineSafety.AlwaysInv` | eres_print_agent/core/job_worker.py:63-210 | The safety invariant of the finest interleaving holds after every run. |
| `PipelineHistory.AlwaysHistory` | eres_print_agent/core/job_worker.py:63-187 | After every run each event of a job's history has its causes before it, and whatever is about to be written, sent or printed is backed by the history. |
| `PipelineCoarse.AlwaysCoarse` | eres_print_agent/core/job_worker.py:93-210 | The invariant of the coarse schedule holds after every coarse run. |
| `JobWorker.JobWorker.Process` | eres_print_agent/core/job_worker.py:135-193 | `_process`, with a cancel setting its flag during any status read or none, performs a run of the step machine from creation to end, agrees with it on row, file and flag, leaves other jobs alone, reads the printer at most 13 times, and submits exactly what the answers of the server and the printer and that flag call for. |
| `JobWorker.JobWorker.WaitForPrinter` | eres_print_agent/core/job_worker.py:195-210 | True at the first read that finds the printer online, provided no cancel was pending at the head of the loop before it; false only after reads that did not, and then 13 of them or a cancel is pending. |
| `JobWorker.JobWorker.GetDocument` | eres_print_agent/core/job_worker.py:143-160 | The document is ready if and only if it is on disk or the download succeeds; else the job fails with the download's own code and text. |
| `JobWorker.JobWorker.WaitAndPrint` | eres_print_agent/core/job_worker.py:165-187 | Submits the offline failure if the printer is not found online in time or a cancel comes first, nothing if a cancel comes with the read that finds it online, else started and then completed or the printer's error. |
| `JobWorker.JobWorker.Print` | eres_print_agent/core/job_worker.py:172-187 | PRINTING, started, the print call, then COMPLETED and completed, or FAILED and failed with PRINTER_ERROR and the printer's words. |
| `JobWorker.JobWorker.Fail` | eres_print_agent/core/job_worker.py:124-133 | FAILED is stored and the same code and text are submitted; the job is over. |
| `JobWorker.JobWorker.HandleDispatch` | eres_print_agent/core/job_worker.py:63-91 | A dispatch performs the machine's four handler steps: a new job is stored with the dispatched order, acknowledged and given a task; a terminal one is reported again; one in flight is left alone. |
| `JobWorker.JobWorker.AcceptDispatch` | eres_print_agent/core/job_worker.py:73-91 | From the insert on, also when another dispatch has stored the job since the handler looked: that one is reported again if terminal and else left alone. |
| `JobWorker.JobWorker.HandleCancel` | eres_print_agent/core/job_worker.py:93-104 | A cancel performs the machine's five cancel steps, wherever the task is: honoured exactly before PRINTING, and a write the task has with a thread is left behind. |
| `JobWorker.JobWorker.LateWrite` | eres_print_agent/core/job_worker.py:99-103 | Such a write commits all the same, as the machine says. |
| `JobRuns.ProcessedJobIsReported` | eres_print_agent/core/job_worker.py:135-193 | Any run of the machine that `Process` performs, with no cancel pending before or on the way, ends with a terminal row and exactly one terminal message, the last, which reports it. |
| `QueueStore.QueueStore.InsertReceived` | eres_print_agent/db/queue_store.py:96-135 | True exactly for a new job id, which gets a RECEIVED row with the order given, no error, no file and no attempts; else nothing changes. |
| `QueueStore.QueueStore.UpdateStatus` | eres_print_agent/db/queue_store.py:137-165 | The one row changes: status, one more attempt, and an error code or text only where one is given. |
| `QueueStore.QueueStore.SetLocalFilePath` | eres_print_agent/db/queue_store.py:167-173 | The one row gets its path and nothing else. |
| `QueueStore.QueueStore.ListNonTerminal` | eres_print_agent/db/queue_store.py:175-185 | Exactly the ids whose rows are not COMPLETED, FAILED or CANCELLED, each once, in the order of the listing. |
| `QueueStore.QueueStore.MarkStuckPrintingAsFailed` | eres_print_agent/db/queue_store.py:187-223 | Returns exactly the PRINTING ids, each once, in listing order, and leaves every row as it was but those, which become FAILED with the restart code and text, one more attempt, and the same order and file. |
| `QueueStore.SelectIs` | eres_print_agent/db/queue_store.py:175-200 | A selection holds exactly the rows asked for, each once, in the order of the listing. |
| `QueueStore.MarkingTwiceChangesNothing` | eres_print_agent/db/queue_store.py:187-223 | After one marking a further one finds no row and changes nothing. |
| `Recovery.RecoverOnStartup` | eres_print_agent/core/agent.py:121-138 | From any stored state: no PRINTING row is left, only those rows changed, one failed message for each is queued in order, and exactly the RECEIVED and WAITING_FOR_PRINTER rows get a task, one each. |
| `Recovery.ReportStuckJobs` | eres_print_agent/core/agent.py:122-132 | The failed messages join the durable queue in order. |
| `Recovery.ResumeJobs` | eres_print_agent/core/agent.py:134-138 | One task for each resumable row listed, none for any other. |
| `Recovery.RecoveryIsTheMachines` | eres_print_agent/core/agent.py:121-138 | Job by job, recovery is what the step machine does between a crash and the start of the network. |
| `Outbox.MessagesAreConserved` | eres_print_agent/net/ws_client.py:95-111 | In every run of one lifetime each durable message is exactly once handed to a socket, queued, or in the unflushed rest. |
| `Outbox.NothingOvertakesNothing` | eres_print_agent/net/ws_client.py:95-168 | If no `send` falls on messages waiting behind a socket, handed-over, queue and rest are the messages in order of submission, across drops, rejections and partial flushes. |
| `Outbox.FifoExactlyWithoutOvertaking` | eres_print_agent/net/ws_client.py:138-168 | For messages that can be told apart that condition is exact: order is kept if and only if it holds. |
| `Outbox.OvertakingExists` | eres_print_agent/net/ws_client.py:143-155 | There is a run that hands over two messages in the wrong order. |
| `WsClient.WsClient.Send` | eres_print_agent/net/ws_client.py:95-106 | A durable message goes to a working socket or to the queue; any other message leaves no trace in the queue. |
| `WsClient.WsClient.FlushDurableQueue` | eres_print_agent/net/ws_client.py:108-111 | Wherever the socket breaks and whatever is submitted between, every queued message is handed over or queued again; in order if nothing was queued or nothing comes between; and the queue is empty if the socket held. |
| `WsClient.WsClient.RunSession` | eres_print_agent/net/ws_client.py:141-168 | One turn of the connection loop, reached or not, accepted or not, with messages submitted during authentication, between flushed messages, while connected and after, and the socket breaking in any of these: all join the line, in order if nothing comes between flushed messages and nothing was queued when messages came during authentication; and no socket is left. |
| `WsClient.WsClient.RunForever` | eres_print_agent/net/ws_client.py:138-180 | After any turns, handed-over and queued messages are all messages submitted, each once; in order of submission if the turns were quiet, and for messages that can be told apart exactly if no `send` ever found messages waiting behind its socket. |
| `Delivery.HubSeesWhatWasSubmitted` | eres_print_agent/core/job_worker.py:90-133 | Over every run of pipeline and queue together, at the finest interleaving, each message handed to a socket was submitted for its job after the matching commit, and a completed one after a print call that returned. |
| `Delivery.SubmittedIsTold` | eres_print_agent/net/ws_client.py:95-106 | In every run the one order of all submissions of a lifetime, restricted to a job, is that job's own history of messages. |
| `Delivery.HubSeesALegalPath` | eres_print_agent/net/ws_client.py:95-168 | Without overtaking, what the hub was handed about a job in a lifetime is a beginning of what was submitted, all of it once nothing waits, and under the coarse schedule a legal path from the status stored when the lifetime began, repeating only a terminal one. |
| `Delivery.HubNeverHasToUnlearn` | eres_print_agent/core/job_worker.py:113-133 | Under the coarse schedule any outcome the hub was ever handed for a job, in any lifetime, is what the row says at any later time. |
| `Downloader.DownloadDocument` | eres_print_agent/net/downloader.py:52-109 | The file left behind, the bytes counted and hashed, and the error, for every refusal and every stream. |
| `Downloader.FetchIs` | eres_print_agent/net/downloader.py:87-109 | By what was sent in all: over 26214400 bytes, that error and the chunks before the one too many; else the whole of it, and the stream's own error, or the one for an empty document, or none. So it succeeds if and only if the stream ends well and is neither empty nor too large, and never writes more than the maximum. |
| `Bits.WithBit` | eres_print_agent/printing/escpos.py:40-40 | Setting a dot sets that dot of the byte and no other. |
| `Bits.ByteIsItsDots` | eres_print_agent/printing/escpos.py:40-40 | A byte is its dots read as a binary number, leftmost first: dot 0 stands for 128. |
| `Dither.GrayToRows` | eres_print_agent/printing/escpos.py:26-54 | For every gray buffer, threshold, width and height: there are errors such that dot x of row y is set if and only if gray[y*width+x] and the 7/16, 3/16, 5/16 and 1/16 shares of the neighbours' errors are below the threshold, each error is what that leaves over, and padding dots are clear. |
| `Dither.DiffusesOneWay` | eres_print_agent/printing/escpos.py:26-54 | That determines every row. |
| `Dither.DitherRow` | eres_print_agent/printing/escpos.py:33-53 | One row: its dots are the recurrence's, and the next row holds all that was diffused into it. |
| `Dither.Diffuse` | eres_print_agent/printing/escpos.py:41-50 | One pixel: 7/16 to the right, 3/16, 5/16 and 1/16 below, clipped at the edges. |
| `Dither.SetDot` | eres_print_agent/printing/escpos.py:39-40 | One dot more, all others as they were. |
| `Dither.Page.DitheredRow` | eres_print_agent/printing/escpos.py:26-54 | Dot x of a row is set if and only if x is within the width and the value there is below the threshold; padding dots are clear. |
| `DitherTheorems.ErrorsStayBounded` | eres_print_agent/printing/escpos.py:36-50 | For grays 0 to 255 and a threshold t of 1 to 255 every error lies in [t-255, t) and every value in [t-255, 255+t). |
| `DitherTheorems.PartialValuesStayBounded` | eres_print_agent/printing/escpos.py:45-50 | So does every value a pixel passes through while the row above is dithered. |
| `DitherTheorems.BlackAndWhiteIsExact` | eres_print_agent/printing/escpos.py:26-54 | On a page of 0 and 255 only, dot x of row y is set if and only if gray[y*width+x] is 0, and no error arises anywhere. |
| `DitherTheorems.InkIsConserved` | eres_print_agent/printing/escpos.py:36-53 | For every page the sum of the gray buffer is 255 times the blank dots of the printed rows plus exactly the error dropped past the left, right and bottom edges. |
| `DitherTheorems.InkBalance` | eres_print_agent/printing/escpos.py:36-53 | So that sum and 255 times the blank dots differ by at most the largest error times 11/16 a row, 9/16 a column, and one. |
| `DitherTheorems.InkBalanceByDefault` | eres_print_agent/printing/escpos.py:26-54 | At threshold 128: by at most 88(h-1) + 72(w-1) + 128. |
| `DitherTheorems.WhiteIsBlank` | eres_print_agent/printing/escpos.py:36-40 | The white counted there is the dots the printed rows leave blank. |
| `Escpos.BuildEscposJob` | eres_print_agent/printing/escpos.py:64-82 | The bytes make a printer that reads them by length reset, print the rows between pad blank rows above and below in ceil(n/24) strips of 1 to 24 rows, feed at most 255 lines and cut; they are empty for no rows; and it is ValueError exactly for rows too wide or a negative feed. |
| `Escpos.AppendBlocks` | eres_print_agent/printing/escpos.py:73-77 | The block loop produces the encoding of the strips. |
| `Escpos.BlocksAre` | eres_print_agent/printing/escpos.py:73-77 | ceil(n/24) strips of 1 to 24 rows that make up the image in order. |
| `Escpos.DecodeEncoded` | eres_print_agent/printing/escpos.py:72-82 | A decoder that goes by lengths alone reads any sequence of fitting commands back, whatever bytes the image holds. |
| `Escpos.JobRoundTrip` | eres_print_agent/printing/escpos.py:64-82 | Decoding a job gives back the image between its pad rows, in strips of 1 to 24 rows, the feed capped at 255, and the cut. |
| `Receipt.TrimIsShortest` | eres_print_agent/printing/escpos.py:57-61 | The trimmed page is a contiguous slice that holds every dot and lies within every slice that does. |
| `Receipt.TrimIsIdempotent` | eres_print_agent/printing/escpos.py:57-61 | Trimming twice is trimming once. |
| `Receipt.TrimKeepsInk` | eres_print_agent/printing/escpos.py:57-61 | The rows with ink are the same rows in the same order. |
| `Receipt.BuildEscposReceipt` | eres_print_agent/printing/macos.py:245-255 | Blank if and only if no page has a dot. Else the bytes decode to an image that shows every dot of every page and no other dot, later pages and rows later and rows of a page at their distance, between blank edges of 4 mm to the nearest dot, with a feed of four lines and a cut. |
| `Receipt.AnyByteIsInk` | eres_print_agent/printing/escpos.py:57-58 | A row has a byte that is not zero if and only if it has a dot. |
| `Receipt.ReceiptKeepsInk` | eres_print_agent/printing/macos.py:245-255 | The inked rows of any such decoded receipt are the pages' inked rows. |
| `RollMedia.RollMediaFor` | eres_print_agent/printing/macos.py:188-201 | None if and only if no size is at least three times as long as wide; for an unknown page the shortest such roll; else the shortest that the page, shrunk to its width if it is wider, is no longer than, the driver's first among equals; the longest if there is none. |
| `RollMedia.ScalingKeepsShape` | eres_print_agent/printing/macos.py:197-199 | The scaled length is to the page's length as the narrower of paper and page is to the page's width. |
| `RollMedia.SortedRolls` | eres_print_agent/printing/macos.py:191-194 | Exactly the rolls, by length, equal lengths in the driver's order. |
| `RollMedia.CustomSizeIsRight` | eres_print_agent/printing/macos.py:169-172 | The custom size is the driver's widest to the nearest point, and its length is that of the receipt scaled to that width, to the next point, where the driver's range allows it, and else the end of the range; it lies in [min height, ceil(max height)], and the page is never enlarged. |
| `RollMedia.CustomMediaWhen` | eres_print_agent/printing/macos.py:162-168 | When there is a custom size, and when the division fails. |

## Left out

- JobWorker.JobWorker.Process: one call on its own; a cancel that is accepted while it runs, and a crash, are steps of the machine.
- Outbox.MessagesAreConserved: covers one process lifetime; the durable queue is in memory and a crash loses it.
- Delivery of every report to the hub, and honouring every cancel: the code does not provide them.
- WebSocket, TLS, HTTP, SQLite and JSON themselves: a send that works or raises, a stream of chunks, an atomic durable map, messages already parsed.
- URL, HTTP status and content type checks of the download: one refusal with the code and text they raise.
- Timestamps of rows and messages, log lines, the status snapshot, heartbeats, usage samples, printer sync and the reconnect backoff table.
- Rendering of PDF pages, the PPD and PDF text scraping, the width in dots, and the calls of `lp`, win32print and SumatraPDF: pages arrive as gray arrays of one width and `print` returns or raises.
- The formatting of a custom size as a string: its two numbers are modelled.
- Floating-point rounding in dithering and paper arithmetic.
- Credentials, pairing, the service wrappers, the command line and the installer.
