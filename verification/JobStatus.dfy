/** The print job statuses and the table of legal transitions between them. */
module JobStatus {

  datatype Status = Queued | Received | Waiting | Printing | Completed | Failed | Cancelled

  /** The transition table. */
  predicate InTable(current: Status, next: Status) {
    match current
    case Queued => next.Received? || next.Cancelled?
    case Received => next.Printing? || next.Waiting? || next.Failed? || next.Cancelled?
    case Waiting => next.Printing? || next.Failed? || next.Cancelled?
    case Printing => next.Completed? || next.Failed?
    case _ => false
  }

  /** Rewriting the same status is legal: it is an idempotent resend. */
  predicate IsLegal(current: Status, next: Status) {
    current == next || InTable(current, next)
  }

  predicate IsTerminal(s: Status) {
    s.Completed? || s.Failed? || s.Cancelled?
  }

  /** The statuses recovery resumes and a cancel is honoured in. */
  predicate IsResumable(s: Status) {
    s.Received? || s.Waiting?
  }

  /** The table read by its targets: where each status can be reached from. */
  lemma TableByTarget(s: Status)
    ensures !InTable(s, Queued)
    ensures InTable(s, Received) <==> s == Queued
    ensures InTable(s, Waiting) <==> s == Received
    ensures InTable(s, Printing) <==> s == Received || s == Waiting
    ensures InTable(s, Completed) <==> s == Printing
    ensures InTable(s, Failed) <==> s == Received || s == Waiting || s == Printing
    ensures InTable(s, Cancelled) <==> s == Queued || s == Received || s == Waiting
  {
  }

  /** The terminal statuses are the ones with no way on, and the resumable ones those from which
      PRINTING is one step away. */
  lemma TerminalExactly(s: Status)
    ensures IsTerminal(s) <==> forall t :: !InTable(s, t)
    ensures IsResumable(s) <==> InTable(s, Printing)
  {
    TableByTarget(s);
    if s.Queued? { assert InTable(s, Received); }
    if s.Received? || s.Waiting? { assert InTable(s, Printing); }
    if s.Printing? { assert InTable(s, Completed); }
  }

  ghost predicate LegalPath(path: seq<Status>) {
    forall i :: 0 < i < |path| ==> IsLegal(path[i-1], path[i])
  }

  /** A terminal status is exactly one no legal path can leave for another status. */
  lemma {:induction false} TerminalIsAbsorbing(path: seq<Status>, i: nat, k: nat)
    requires LegalPath(path) && i <= k < |path| && IsTerminal(path[i])
    ensures path[k] == path[i]
    decreases k
  {
    if i < k {
      TerminalIsAbsorbing(path, i, k - 1);
      assert IsLegal(path[k-1], path[k]);
    }
  }

  /** No legal path comes back to a resumable status once it has reached PRINTING. */
  lemma {:induction false} PrintingIsNeverResumed(path: seq<Status>, i: nat, k: nat)
    requires LegalPath(path) && i <= k < |path| && path[i] == Printing
    ensures path[k] == Printing || IsTerminal(path[k])
    decreases k
  {
    if i < k {
      PrintingIsNeverResumed(path, i, k - 1);
      assert IsLegal(path[k-1], path[k]);
    }
  }
}
