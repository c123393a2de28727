/** One row of the print_jobs table, the values written to it, and the messages
    that report on it. */
module JobRow {
  import opened Options
  import opened JobStatus

  type JobId = string

  /** The columns that a dispatch fills in and that nothing ever rewrites. */
  datatype Order = Order(printer: string, documentType: string, documentId: string, url: string, copies: int)

  datatype Row = Row(order: Order, status: Status, errorCode: Option<string>, errorMessage: Option<string>,
                     hasFile: bool, attempts: nat)

  datatype Message =
    | ReceivedMsg
    | StartedMsg
    | CompletedMsg
    | FailedMsg(code: Option<string>, text: Option<string>)
    | CancelledMsg

  /** A message with the job it is about. */
  datatype Envelope = Envelope(id: JobId, message: Message)

  const RESTARTED_CODE := "AGENT_RESTARTED_DURING_PRINT"
  const RESTARTED_TEXT := "The agent restarted while this job was printing."

  function NewRow(order: Order): Row {
    Row(order, Received, None, None, false, 0)
  }

  /** An absent error code or message leaves the stored one alone. */
  function Updated(row: Row, status: Status, code: Option<string>, text: Option<string>): Row {
    row.(status := status,
         attempts := row.attempts + 1,
         errorCode := if code.Some? then code else row.errorCode,
         errorMessage := if text.Some? then text else row.errorMessage)
  }

  function Restarted(row: Row): Row {
    if row.status == Printing
    then Updated(row, Failed, Some(RESTARTED_CODE), Some(RESTARTED_TEXT))
    else row
  }

  /** The message that reports a terminal row. */
  function Report(row: Row): Message
    requires IsTerminal(row.status)
  {
    match row.status
    case Completed => CompletedMsg
    case Failed => FailedMsg(row.errorCode, row.errorMessage)
    case Cancelled => CancelledMsg
  }

  /** The status a message tells the hub about. */
  function StatusOf(m: Message): Status {
    match m
    case ReceivedMsg => Received
    case StartedMsg => Printing
    case CompletedMsg => Completed
    case FailedMsg(_, _) => Failed
    case CancelledMsg => Cancelled
  }
}
