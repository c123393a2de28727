/** The print_jobs table: a map from job id to row, with the order a SELECT lists it in. A
    commit is atomic and durable. */
module QueueStore {
  import opened Options
  import opened JobStatus
  import opened JobRow

  /** The ids of the listing whose row satisfies `p`, in the order of the listing. */
  function Select(listing: seq<JobId>, rows: map<JobId, Row>, p: Status -> bool): (ids: seq<JobId>)
    requires forall i :: 0 <= i < |listing| ==> listing[i] in rows
  {
    if listing == [] then []
    else Select(listing[..|listing|-1], rows, p) +
         if p(rows[listing[|listing|-1]].status) then [listing[|listing|-1]] else []
  }

  predicate NoRepeats(ids: seq<JobId>) {
    forall i, k :: 0 <= i < k < |ids| ==> ids[i] != ids[k]
  }

  ghost predicate Lists(listing: seq<JobId>, rows: map<JobId, Row>) {
    && (forall i :: 0 <= i < |listing| ==> listing[i] in rows)
    && (forall id :: id in rows ==> id in listing)
    && NoRepeats(listing)
  }

  /** `ids` come in the order of `listing`: a later one stands further on. */
  ghost predicate InListingOrder(ids: seq<JobId>, listing: seq<JobId>) {
    forall i, k :: 0 <= i < k < |ids| ==> Follows(listing, ids[i], ids[k])
  }

  ghost predicate Follows(listing: seq<JobId>, x: JobId, y: JobId) {
    exists a, b :: 0 <= a < b < |listing| && listing[a] == x && listing[b] == y
  }

  lemma {:induction false} SelectKeepsOrder(listing: seq<JobId>, rows: map<JobId, Row>, p: Status -> bool)
    requires forall i :: 0 <= i < |listing| ==> listing[i] in rows
    ensures InListingOrder(Select(listing, rows, p), listing)
    ensures forall id :: id in Select(listing, rows, p) ==> id in listing
    decreases |listing|
  {
    if listing != [] {
      var front, last := listing[..|listing|-1], listing[|listing|-1];
      SelectKeepsOrder(front, rows, p);
      var ids, all := Select(front, rows, p), Select(listing, rows, p);
      assert listing == front + [last];
      assert all == if p(rows[last].status) then ids + [last] else ids;
      forall i, k | 0 <= i < k < |all|
        ensures Follows(listing, all[i], all[k])
      {
        if k < |ids| {
          assert Follows(front, ids[i], ids[k]);
          var a, b :| 0 <= a < b < |front| && front[a] == ids[i] && front[b] == ids[k];
          assert listing[a] == all[i] && listing[b] == all[k];
        } else {
          assert all[i] in front;
          var a :| 0 <= a < |front| && front[a] == all[i];
          assert listing[a] == all[i] && listing[|front|] == all[k];
        }
      }
    }
  }

  /** A selection lists exactly the rows asked for, each once, in the order of the listing. */
  lemma SelectIs(listing: seq<JobId>, rows: map<JobId, Row>, p: Status -> bool)
    requires forall i :: 0 <= i < |listing| ==> listing[i] in rows
    requires NoRepeats(listing)
    ensures forall id :: id in Select(listing, rows, p) <==> id in listing && p(rows[id].status)
    ensures NoRepeats(Select(listing, rows, p))
    ensures InListingOrder(Select(listing, rows, p), listing)
  {
    hide Select, NoRepeats, InListingOrder;
    SelectKeepsOrder(listing, rows, p);
    SelectHolds(listing, rows, p);
  }

  lemma {:induction false} SelectHolds(listing: seq<JobId>, rows: map<JobId, Row>, p: Status -> bool)
    requires forall i :: 0 <= i < |listing| ==> listing[i] in rows
    requires NoRepeats(listing)
    ensures forall id :: id in Select(listing, rows, p) <==> id in listing && p(rows[id].status)
    ensures NoRepeats(Select(listing, rows, p))
    decreases |listing|
  {
    if listing != [] {
      var front, last := listing[..|listing|-1], listing[|listing|-1];
      SelectHolds(front, rows, p);
      assert listing == front + [last];
      forall i | 0 <= i < |front| ensures front[i] != last { assert listing[i] != listing[|listing|-1]; }
      var ids, all := Select(front, rows, p), Select(listing, rows, p);
      assert all == if p(rows[last].status) then ids + [last] else ids;
      hide Select;
      assert last !in front;
      assert forall i :: 0 <= i < |ids| ==> ids[i] in ids && ids[i] != last;
      forall i, k | 0 <= i < k < |all| ensures all[i] != all[k] {
        if k < |ids| { assert ids[i] != ids[k]; } else { assert all[i] == ids[i] && all[k] == last; }
      }
    }
  }

  lemma {:induction false} SelectNone(listing: seq<JobId>, rows: map<JobId, Row>, p: Status -> bool)
    requires forall i :: 0 <= i < |listing| ==> listing[i] in rows && !p(rows[listing[i]].status)
    ensures Select(listing, rows, p) == []
    decreases |listing|
  {
    if listing != [] { SelectNone(listing[..|listing|-1], rows, p); }
  }

  /** Every PRINTING row marked as failed, every other row as it was. */
  function AllRestarted(rows: map<JobId, Row>): (r: map<JobId, Row>) {
    map id | id in rows :: Restarted(rows[id])
  }

  predicate IsPrinting(s: Status) { s.Printing? }

  predicate IsOpen(s: Status) { !IsTerminal(s) }

  class QueueStore {
    var rows: map<JobId, Row>
    var listing: seq<JobId>

    ghost predicate Valid()
      reads this
    {
      Lists(listing, rows)
    }

    constructor ()
      ensures Valid() && rows == map[]
    {
      rows, listing := map[], [];
    }

    method Get(id: JobId) returns (row: Option<Row>)
      ensures row == if id in rows then Some(rows[id]) else None
    {
      if id in rows { return Some(rows[id]); }
      return None;
    }

    /** INSERT OR IGNORE: a job id is inserted once, and a second insert changes nothing. */
    method InsertReceived(id: JobId, order: Order) returns (inserted: bool)
      requires Valid()
      modifies this
      ensures Valid()
      ensures inserted <==> id !in old(rows)
      ensures rows == if inserted then old(rows)[id := Row(order, Received, None, None, false, 0)] else old(rows)
      ensures listing == if inserted then old(listing) + [id] else old(listing)
    {
      inserted := id !in rows;
      if inserted {
        rows := rows[id := NewRow(order)];
        listing := listing + [id];
      }
    }

    /** UPDATE of a missing row changes nothing. */
    method UpdateStatus(id: JobId, status: Status, code: Option<string>, text: Option<string>)
      requires Valid()
      modifies this
      ensures Valid() && listing == old(listing)
      ensures rows == if id in old(rows) then old(rows)[id := Updated(old(rows)[id], status, code, text)] else old(rows)
      ensures id in old(rows) ==>
        var was, now := old(rows)[id], rows[id];
        && now.status == status && now.attempts == was.attempts + 1
        && now.order == was.order && now.hasFile == was.hasFile
        && now.errorCode == (if code.Some? then code else was.errorCode)
        && now.errorMessage == (if text.Some? then text else was.errorMessage)
    {
      if id in rows {
        rows := rows[id := Updated(rows[id], status, code, text)];
      }
    }

    method SetLocalFilePath(id: JobId)
      requires Valid()
      modifies this
      ensures Valid() && listing == old(listing)
      ensures rows == if id in old(rows) then old(rows)[id := old(rows)[id].(hasFile := true)] else old(rows)
    {
      if id in rows {
        rows := rows[id := rows[id].(hasFile := true)];
      }
    }

    /** SELECT ... WHERE: one pass over the listing. */
    method ListWhere(p: Status -> bool) returns (ids: seq<JobId>)
      requires Valid()
      ensures ids == Select(listing, rows, p)
    {
      ids := [];
      var i := 0;
      while i < |listing|
        invariant 0 <= i <= |listing| && ids == Select(listing[..i], rows, p)
      {
        assert listing[..i + 1][..i] == listing[..i];
        if p(rows[listing[i]].status) { ids := ids + [listing[i]]; }
        i := i + 1;
      }
      assert listing[..i] == listing;
    }

    method ListNonTerminal() returns (ids: seq<JobId>)
      requires Valid()
      ensures ids == Select(listing, rows, IsOpen)
      ensures forall id :: id in ids <==> id in rows && rows[id].status !in {Completed, Failed, Cancelled}
      ensures NoRepeats(ids) && InListingOrder(ids, listing)
    {
      ids := ListWhere(IsOpen);
      SelectIs(listing, rows, IsOpen);
    }

    /** Selects the PRINTING rows, then updates them one by one in one transaction. */
    method MarkStuckPrintingAsFailed() returns (ids: seq<JobId>)
      requires Valid()
      modifies this
      ensures Valid() && listing == old(listing)
      ensures ids == Select(old(listing), old(rows), IsPrinting)
      ensures rows == AllRestarted(old(rows))
      ensures forall id :: id in ids <==> id in old(rows) && old(rows)[id].status == Printing
      ensures NoRepeats(ids) && InListingOrder(ids, listing)
      ensures rows.Keys == old(rows).Keys
      ensures forall id :: id in rows ==>
        var was, now := old(rows)[id], rows[id];
        if was.status != Printing then now == was
        else
          && now.status == Failed && now.attempts == was.attempts + 1 && now.order == was.order && now.hasFile == was.hasFile
          && now.errorCode == Some("AGENT_RESTARTED_DURING_PRINT")
          && now.errorMessage == Some("The agent restarted while this job was printing.")
    {
      hide InListingOrder;
      ids := ListWhere(IsPrinting);
      SelectIs(listing, rows, IsPrinting);
      assert forall id :: id in ids <==> id in rows && rows[id].status.Printing?;
      MarkEach(ids);
    }

    /** The executemany of the UPDATE. */
    method MarkEach(ids: seq<JobId>)
      requires forall i :: 0 <= i < |ids| ==> ids[i] in rows && rows[ids[i]].status.Printing?
      requires NoRepeats(ids)
      modifies `rows
      ensures rows.Keys == old(rows).Keys
      ensures forall id :: id in rows ==> rows[id] == if id in ids then Restarted(old(rows)[id]) else old(rows)[id]
    {
      var k := 0;
      while k < |ids|
        invariant 0 <= k <= |ids| && rows.Keys == old(rows).Keys
        invariant forall i :: k <= i < |ids| ==> rows[ids[i]] == old(rows)[ids[i]]
        invariant forall id :: id in rows ==> rows[id] == if id in ids[..k] then Restarted(old(rows)[id]) else old(rows)[id]
      {
        var id := ids[k];
        assert ids[..k + 1] == ids[..k] + [id];
        assert id in old(rows);
        rows := rows[id := Updated(rows[id], Failed, Some(RESTARTED_CODE), Some(RESTARTED_TEXT))];
        k := k + 1;
      }
      assert ids[..k] == ids;
    }
  }

  /** A further marking finds nothing to do. */
  lemma MarkingTwiceChangesNothing(rows: map<JobId, Row>, listing: seq<JobId>)
    requires Lists(listing, rows)
    ensures AllRestarted(AllRestarted(rows)) == AllRestarted(rows)
    ensures Select(listing, AllRestarted(rows), IsPrinting) == []
  {
    SelectNone(listing, AllRestarted(rows), IsPrinting);
  }
}
