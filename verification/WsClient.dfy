/** The connection to the hub: `send`, the flush of the durable queue, and the loop that
    connects, authenticates, flushes and drops. */
module WsClient {
  import opened Options
  import opened Outbox

  /** Messages submitted one after the other, with the socket breaking, if it still works, in
      front of message `breaksAt`. */
  datatype Part<M> = Part(messages: seq<M>, breaksAt: nat)

  /** What one turn of the connection loop meets: whether the hub can be reached and accepts the
      agent; what is submitted during authentication, in front of each flushed message, while the
      connection is up, and after it is gone; and where the socket breaks, if it does. */
  datatype Session<M> = Session(
    reachable: bool, early: Part<M>, accepted: bool,
    between: seq<seq<M>>, breaksAfter: nat, during: Part<M>, after: seq<M>)

  function Flat<M>(parts: seq<seq<M>>): seq<M> {
    if parts == [] then [] else parts[0] + Flat(parts[1..])
  }

  lemma FlatFrom<M>(parts: seq<seq<M>>, j: nat)
    requires j < |parts|
    ensures Flat(parts[j..]) == parts[j] + Flat(parts[j + 1..])
  {
    assert parts[j..][1..] == parts[j + 1..];
  }

  function SubmittedUp<M>(s: Session<M>): seq<M> {
    if s.accepted then s.early.messages + (Flat(s.between) + s.during.messages) else s.early.messages
  }

  function SubmittedIn<M>(s: Session<M>): seq<M> {
    (if s.reachable then SubmittedUp(s) else []) + s.after
  }

  function Submissions<M>(sessions: seq<Session<M>>): seq<M> {
    if sessions == [] then []
    else Submissions(sessions[..|sessions|-1]) + SubmittedIn(sessions[|sessions|-1])
  }

  lemma SubmissionsPush<M>(sessions: seq<Session<M>>, i: nat)
    requires i < |sessions|
    ensures Submissions(sessions[..i + 1]) == Submissions(sessions[..i]) + SubmittedIn(sessions[i])
  {
    assert sessions[..i + 1][..i] == sessions[..i];
  }

  lemma NoSubmissions<M>(sessions: seq<Session<M>>)
    ensures Submissions(sessions[..0]) == []
  {
  }

  /** Nothing is submitted during authentication or between the messages of a flush. */
  predicate Quiet<M>(s: Session<M>) {
    s.early.messages == [] && Flat(s.between) == []
  }

  lemma QuietIs<M>(s: Session<M>)
    requires Quiet(s)
    ensures s.early.messages == [] && Flat(s.between) == []
  {
  }

  class WsClient<M> {
    /** `_socket is not None`, and whether that socket still takes messages. */
    var hasSocket: bool
    var socketOpen: bool
    var durableQueue: seq<M>
    var connected: bool

    /** The life of the client so far, as a run of `Outbox`, and where that has led. */
    ghost var trace: seq<Action<M>>
    ghost var state: Outbox<M>

    ghost predicate Valid()
      reads this
    {
      && state == Exec(trace)
      && Settled(state)
      && (hasSocket <==> !state.phase.Disconnected?)
      && socketOpen == state.open
      && durableQueue == state.queue
    }

    constructor ()
      ensures Valid() && state == Empty() && !connected
    {
      hasSocket, socketOpen, durableQueue, connected := false, false, [], false;
      trace, state := [], Empty();
    }

    /** Records a step. */
    ghost method Did(a: Action<M>)
      requires state == Exec(trace)
      modifies `trace, `state
      ensures state == Exec(trace) && trace == old(trace) + [a] && state == Step(old(state), a)
    {
      ExecPush(trace, a);
      trace := trace + [a];
      state := Step(state, a);
    }

    /** `send`. A durable message is a new one unless the flush is handing it on. */
    method Send(message: M, durable: bool, ghost flushed: bool)
      requires Valid()
      requires flushed ==> durable && state.phase.Flushing? && state.pending != [] && state.pending[0] == message
      modifies this
      ensures Valid() && connected == old(connected) && hasSocket == old(hasSocket) && socketOpen == old(socketOpen)
      ensures state == if !durable then old(state)
                       else Step(old(state), if flushed then FlushOne else Submit(message))
    {
      hide Exec;
      ghost var i := LineStep(state, if flushed then FlushOne else Submit(message));
      if durable {
        Did(if flushed then FlushOne else Submit(message));
      }
      if hasSocket && socketOpen {
        return;
      }
      if durable {
        durableQueue := durableQueue + [message];
      }
    }

    /** The socket breaks; nobody has noticed yet. */
    method Break()
      requires Valid()
      modifies this
      ensures Valid() && connected == old(connected) && hasSocket == old(hasSocket)
      ensures state == Step(old(state), Close)
    {
      hide Exec;
      ghost var i := LineStep(state, Close);
      Did(Close);
      socketOpen := false;
    }

    /** A durable message submitted, with the socket breaking in front of it or not. It joins the
        line, at its end if none waits behind the socket. */
    method SendOne(message: M, breaks: bool)
      requires Valid()
      modifies this
      ensures Valid() && connected == old(connected) && hasSocket == old(hasSocket)
      ensures state.phase == old(state.phase) && state.pending == old(state.pending)
      ensures state.submitted == old(state.submitted) + [message]
      ensures !old(Overtakes(state)) ==> !Overtakes(state) && Line(state) == old(Line(state)) + [message]
    {
      hide Exec;
      if breaks {
        ghost var c := LineStep(state, Close);
        Break();
      }
      ghost var k := LineStep(state, Submit(message));
      Send(message, true, false);
    }

    /** Messages submitted one after the other. */
    method SendAll(part: Part<M>)
      requires Valid()
      modifies this
      ensures Valid() && connected == old(connected) && hasSocket == old(hasSocket)
      ensures state.phase == old(state.phase) && state.pending == old(state.pending)
      ensures state.submitted == old(state.submitted) + part.messages
      ensures !old(Overtakes(state)) ==> !Overtakes(state) && Line(state) == old(Line(state)) + part.messages
      ensures part.messages == [] ==> state == old(state)
    {
      hide Valid, Line, Overtakes;
      var messages := part.messages;
      var i := 0;
      while i < |messages|
        invariant 0 <= i <= |messages|
        invariant Valid() && connected == old(connected) && hasSocket == old(hasSocket)
        invariant state.phase == old(state.phase) && state.pending == old(state.pending)
        invariant state.submitted == old(state.submitted) + messages[..i]
        invariant !old(Overtakes(state)) ==> !Overtakes(state) && Line(state) == old(Line(state)) + messages[..i]
        invariant i == 0 ==> state == old(state)
      {
        SendOne(messages[i], i == part.breaksAt);
        assert messages[..i + 1] == messages[..i] + [messages[i]];
        i := i + 1;
      }
      assert messages[..i] == messages;
    }

    /** One message of a flush, with the socket breaking in front of it or not. */
    method FlushNext(message: M, breaks: bool)
      requires Valid() && state.phase.Flushing? && state.pending != [] && state.pending[0] == message
      modifies this
      ensures Valid() && connected == old(connected) && state.phase.Flushing?
      ensures state.pending == old(state.pending)[1..] && state.submitted == old(state.submitted)
      ensures Line(state) == old(Line(state))
    {
      hide Exec;
      if breaks {
        ghost var c := LineStep(state, Close);
        Break();
      }
      ghost var k := LineStep(state, FlushOne);
      Send(message, true, true);
    }

    /** `_flush_durable_queue`, with the socket breaking after `breaksAfter` messages and other
        messages submitted between. Every message goes on to the socket or back to the queue, and
        if there was nothing to flush or nothing comes between, the line keeps its order. */
    method FlushDurableQueue(between: seq<seq<M>>, breaksAfter: nat)
      requires Valid() && state.phase.Connecting?
      modifies this
      ensures Valid() && connected == old(connected) && state.phase.Connected? && !Overtakes(state)
      ensures state.submitted == old(state.submitted) + Flat(between)
      ensures old(durableQueue) == [] || Flat(between) == [] ==> Line(state) == old(Line(state)) + Flat(between)
      ensures state.open ==> durableQueue == []
    {
      var pending := BeginFlushing();
      hide Valid, Line, Flat, Overtakes;
      var i, j := 0, 0;
      ghost var sent: seq<M> := [];
      assert between[0..] == between;
      while i < |pending|
        invariant 0 <= i <= |pending| && 0 <= j <= |between| && (pending == [] ==> j == 0)
        invariant Valid() && connected == old(connected) && state.phase.Flushing?
        invariant state.pending == pending[i..]
        invariant state.submitted == old(state.submitted) + sent && sent + Flat(between[j..]) == Flat(between)
        invariant pending == [] || Flat(between) == [] ==> Line(state) == old(Line(state))
      {
        if j < |between| {
          FlatFrom(between, j);
          SendAll(Part(between[j], |between[j]|));
          ConcatAssociates(old(state.submitted), sent, between[j]);
          ConcatAssociates(sent, between[j], Flat(between[j + 1..]));
          sent := sent + between[j];
          j := j + 1;
        }
        FlushNext(pending[i], i == breaksAfter);
        i := i + 1;
      }
      EndFlushing();
      SendAll(Part(Flat(between[j..]), |Flat(between[j..])|));
      ConcatAssociates(old(state.submitted), sent, Flat(between[j..]));
      NothingWaits();
    }

    lemma NothingWaits()
      requires Valid() && state.phase.Connected?
      ensures state.open ==> durableQueue == []
    {
      hide Exec;
    }

    method BeginFlushing() returns (pending: seq<M>)
      requires Valid() && state.phase.Connecting?
      modifies this
      ensures Valid() && connected == old(connected) && state.phase.Flushing? && state.pending == pending == old(durableQueue)
      ensures Line(state) == old(Line(state)) && state.submitted == old(state.submitted)
    {
      hide Exec;
      ghost var k := LineStep(state, BeginFlush);
      pending := durableQueue;
      durableQueue := [];
      Did(BeginFlush);
    }

    ghost method EndFlushing()
      requires Valid() && state.phase.Flushing? && state.pending == []
      modifies `trace, `state
      ensures Valid() && state.phase.Connected? && !Overtakes(state)
      ensures Line(state) == old(Line(state)) && state.submitted == old(state.submitted)
    {
      hide Exec;
      var k := LineStep(state, EndFlush);
      Did(EndFlush);
    }

    /** The socket is assigned. */
    method Open()
      requires Valid() && state.phase.Disconnected?
      modifies this
      ensures Valid() && state.phase.Connecting? && durableQueue == old(durableQueue)
      ensures Line(state) == old(Line(state)) && state.submitted == old(state.submitted)
      ensures durableQueue == [] ==> !Overtakes(state)
    {
      hide Exec;
      ghost var k := LineStep(state, Connect);
      hasSocket, socketOpen := true, true;
      Did(Connect);
    }

    method SetConnected()
      requires Valid()
      modifies `connected
      ensures Valid() && connected
    {
      connected := true;
    }

    /** The `finally` block of the connection loop. */
    method Drop()
      requires Valid() && !state.phase.Flushing?
      modifies this
      ensures Valid() && state.phase.Disconnected? && !connected && !Overtakes(state)
      ensures Line(state) == old(Line(state)) && state.submitted == old(state.submitted)
    {
      hide Exec;
      if hasSocket {
        ghost var a := if state.phase.Connecting? then Reject else Disconnect;
        ghost var k := LineStep(state, a);
        Did(a);
      } else {
        ghost var k := LineStep(state, Close);
        Did(Close);
      }
      hasSocket, socketOpen := false, false;
      connected := false;
    }

    /** The part of a turn after authentication. */
    method Serve(session: Session<M>)
      requires Valid() && state.phase.Connecting?
      modifies this
      ensures Valid() && state.phase.Connected?
      ensures state.submitted == old(state.submitted) + (Flat(session.between) + session.during.messages)
      ensures Flat(session.between) == [] ==>
        Line(state) == old(Line(state)) + (Flat(session.between) + session.during.messages)
    {
      hide Valid, Line, Flat, Overtakes;
      SetConnected();
      FlushDurableQueue(session.between, session.breaksAfter);
      SendAll(session.during);
      ConcatAssociates(old(state.submitted), Flat(session.between), session.during.messages);
      ConcatAssociates(old(Line(state)), Flat(session.between), session.during.messages);
    }

    /** The part of a turn that has a socket. */
    method Meet(session: Session<M>)
      requires Valid() && state.phase.Disconnected?
      modifies this
      ensures Valid() && !state.phase.Flushing?
      ensures state.submitted == old(state.submitted) + SubmittedUp(session)
      ensures (session.early.messages == [] || old(durableQueue) == []) && Flat(session.between) == [] ==>
        Line(state) == old(Line(state)) + SubmittedUp(session)
    {
      hide Valid, Line, Flat, Overtakes;
      Open();
      SendAll(session.early);
      if session.accepted {
        Serve(session);
        ConcatAssociates(old(state.submitted), session.early.messages, Flat(session.between) + session.during.messages);
        ConcatAssociates(old(Line(state)), session.early.messages, Flat(session.between) + session.during.messages);
      }
    }

    /** One turn of the connection loop. What is submitted in it joins the line, and in order
        unless it is submitted in front of messages that wait. */
    method RunSession(session: Session<M>)
      requires Valid() && state.phase.Disconnected?
      modifies this
      ensures Valid() && state.phase.Disconnected? && !connected
      ensures state.submitted == old(state.submitted) + SubmittedIn(session)
      ensures (session.early.messages == [] || old(durableQueue) == []) && Flat(session.between) == [] ==>
        Line(state) == old(Line(state)) + SubmittedIn(session)
    {
      hide Valid, Line, Flat, Overtakes, SubmittedUp;
      ghost var up := if session.reachable then SubmittedUp(session) else [];
      if session.reachable {
        Meet(session);
      }
      Drop();
      SendAll(Part(session.after, |session.after|));
      ConcatAssociates(old(state.submitted), up, session.after);
      ConcatAssociates(old(Line(state)), up, session.after);
    }

    /** Whenever there is no socket: no message is lost or doubled, and the order of submission is
        kept if no `send` ever found messages waiting behind its socket, and only then if the
        messages can be told apart. */
    lemma AllAccountedFor()
      requires Valid() && state.phase.Disconnected?
      ensures Line(state) == state.handed + durableQueue
      ensures multiset(state.handed + durableQueue) == multiset(state.submitted)
      ensures NeverOvertakes(trace) ==> state.handed + durableQueue == state.submitted
      ensures Distinct(state.submitted) && state.handed + durableQueue == state.submitted ==> NeverOvertakes(trace)
    {
      assert Line(state) == state.handed + durableQueue;
      MessagesAreConserved(trace);
      if NeverOvertakes(trace) { NothingOvertakesNothing(trace); }
      if Distinct(state.submitted) { FifoExactlyWithoutOvertaking(trace); }
    }

    /** `run_forever`: after any number of turns, whatever they met, what was handed over and the
        queue are all messages submitted, each once. They are in order if the turns were quiet,
        and, for messages that can be told apart, exactly if none ever overtook another. */
    method RunForever(sessions: seq<Session<M>>)
      requires Valid() && state.phase.Disconnected?
      modifies this
      ensures Valid() && state.phase.Disconnected?
      ensures state.submitted == old(state.submitted) + Submissions(sessions)
      ensures multiset(state.handed + durableQueue) == multiset(state.submitted)
      ensures (forall i :: 0 <= i < |sessions| ==> Quiet(sessions[i])) ==>
        state.handed + durableQueue == old(state.handed + durableQueue) + Submissions(sessions)
      ensures NeverOvertakes(trace) ==> state.handed + durableQueue == state.submitted
      ensures Distinct(state.submitted) && state.handed + durableQueue == state.submitted ==> NeverOvertakes(trace)
    {
      AllAccountedFor();
      NoSubmissions(sessions);
      hide Valid, Line, SubmittedIn, Submissions, Quiet, Flat, NeverOvertakes, Distinct;
      var i := 0;
      while i < |sessions|
        invariant 0 <= i <= |sessions|
        invariant Valid() && state.phase.Disconnected?
        invariant state.submitted == old(state.submitted) + Submissions(sessions[..i])
        invariant (forall k :: 0 <= k < i ==> Quiet(sessions[k])) ==>
          Line(state) == old(state.handed + durableQueue) + Submissions(sessions[..i])
      {
        if Quiet(sessions[i]) { QuietIs(sessions[i]); }
        RunSession(sessions[i]);
        SubmissionsPush(sessions, i);
        ConcatAssociates(old(state.submitted), Submissions(sessions[..i]), SubmittedIn(sessions[i]));
        ConcatAssociates(old(state.handed + durableQueue), Submissions(sessions[..i]), SubmittedIn(sessions[i]));
        i := i + 1;
      }
      assert sessions[..i] == sessions;
      AllAccountedFor();
    }
  }
}
