/** Durable messages between submission and the socket, over the life of one process: each
    `send` is one step and can fail only by ConnectionClosed, and a socket that has raised
    that once stays closed. */
module Outbox {

  /** `Connecting` is the time between the assignment of the socket and the end of
      authentication; a flush then takes the queue and sends it on, one message per step. */
  datatype Phase = Disconnected | Connecting | Flushing | Connected

  datatype Outbox<M> = Outbox(
    phase: Phase, open: bool,
    handed: seq<M>, queue: seq<M>, pending: seq<M>,
    submitted: seq<M>)

  function Empty<M>(): Outbox<M> { Outbox(Disconnected, false, [], [], [], []) }

  datatype Action<M> =
    | Submit(message: M)  // `send` of a new durable message
    | Connect             // a socket is assigned
    | Reject              // authentication failed or timed out
    | BeginFlush          // authenticated: the queue becomes the pending messages
    | FlushOne            // `send` of the next pending message
    | EndFlush
    | Close               // the socket breaks; nobody has noticed yet
    | Disconnect          // the connection loop drops the socket

  predicate Works<M>(s: Outbox<M>) { !s.phase.Disconnected? && s.open }

  /** `send(message, durable=True)`: to the socket if that works, else to the queue. */
  function Sent<M>(s: Outbox<M>, m: M): Outbox<M> {
    if Works(s) then s.(handed := s.handed + [m]) else s.(queue := s.queue + [m])
  }

  function Step<M>(s: Outbox<M>, a: Action<M>): Outbox<M> {
    match a
    case Submit(m) => Sent(s, m).(submitted := s.submitted + [m])
    case Connect => if s.phase.Disconnected? then s.(phase := Connecting, open := true) else s
    case Reject => if s.phase.Connecting? then s.(phase := Disconnected, open := false) else s
    case BeginFlush =>
      if s.phase.Connecting? then s.(phase := Flushing, pending := s.queue, queue := []) else s
    case FlushOne =>
      if s.phase.Flushing? && s.pending != [] then Sent(s, s.pending[0]).(pending := s.pending[1..]) else s
    case EndFlush => if s.phase.Flushing? && s.pending == [] then s.(phase := Connected) else s
    case Close => s.(open := false)
    case Disconnect => if s.phase.Connected? then s.(phase := Disconnected, open := false) else s
  }

  function Exec<M>(run: seq<Action<M>>): Outbox<M> {
    if run == [] then Empty() else Step(Exec(run[..|run|-1]), run[|run|-1])
  }

  lemma ExecPush<M>(run: seq<Action<M>>, a: Action<M>)
    ensures Exec(run + [a]) == Step(Exec(run), a)
  {
    assert (run + [a])[..|run|] == run;
  }

  /** Every durable message there is, in the order the hub has got it or will get it. */
  function Line<M>(s: Outbox<M>): seq<M> {
    s.handed + s.queue + s.pending
  }

  /** The states in which a `send` overtakes messages that wait. */
  predicate Overtakes<M>(s: Outbox<M>) {
    (s.phase.Connecting? && s.open && s.queue != []) || (s.phase.Flushing? && s.pending != [])
  }

  predicate NeverOvertakes<M>(run: seq<Action<M>>) {
    run == [] ||
    (NeverOvertakes(run[..|run|-1]) && !(run[|run|-1].Submit? && Overtakes(Exec(run[..|run|-1]))))
  }

  /** Nothing waits behind a socket that works, and nothing is pending outside a flush. */
  predicate Settled<M>(s: Outbox<M>) {
    && (!s.phase.Flushing? ==> s.pending == [])
    && ((s.phase.Flushing? || s.phase.Connected?) && s.open ==> s.queue == [])
  }

  /** What a step does to the line: nothing, or a new message joins it, at the end unless it
      overtakes. */
  lemma LineStep<M>(s: Outbox<M>, a: Action<M>) returns (i: nat)
    requires Settled(s)
    ensures Settled(Step(s, a)) && i <= |Line(s)|
    ensures !a.Submit? ==> Line(Step(s, a)) == Line(s) && Step(s, a).submitted == s.submitted
    ensures a.Submit? ==>
      Step(s, a).submitted == s.submitted + [a.message] && Line(Step(s, a)) == Line(s)[..i] + [a.message] + Line(s)[i..]
    ensures Overtakes(s) <==> i < |Line(s)|
  {
    i := if Works(s) then |s.handed| else |s.handed| + |s.queue|;
    if a.FlushOne? && s.phase.Flushing? && s.pending != [] {
      FrontMoves(s.handed, s.queue, s.pending);
    } else if a.Submit? {
      Joins(s.handed, s.queue, s.pending, a.message);
    }
  }

  lemma FrontMoves<M>(h: seq<M>, q: seq<M>, p: seq<M>)
    requires p != []
    ensures h + (q + [p[0]]) + p[1..] == h + q + p
    ensures q == [] ==> (h + [p[0]]) + q + p[1..] == h + q + p
  {
    assert p == [p[0]] + p[1..];
  }

  lemma Joins<M>(h: seq<M>, q: seq<M>, p: seq<M>, m: M)
    ensures var line := h + q + p;
      && (h + [m]) + q + p == line[..|h|] + [m] + line[|h|..]
      && h + (q + [m]) + p == line[..|h| + |q|] + [m] + line[|h| + |q|..]
  {
    var line := h + q + p;
    assert line[..|h|] == h && line[|h|..] == q + p;
    assert line[..|h| + |q|] == h + q && line[|h| + |q|..] == p;
  }

  lemma {:induction false} AlwaysSettled<M>(run: seq<Action<M>>)
    ensures Settled(Exec(run))
  {
    if run != [] {
      AlwaysSettled(run[..|run|-1]);
      var i := LineStep(Exec(run[..|run|-1]), run[|run|-1]);
    }
  }

  /** In every run, each durable message submitted is in exactly one place: handed to a socket,
      queued, or in the unflushed rest. None is lost, none is doubled. */
  lemma {:induction false} MessagesAreConserved<M>(run: seq<Action<M>>)
    ensures multiset(Line(Exec(run))) == multiset(Exec(run).submitted)
  {
    if run != [] {
      var s, a := Exec(run[..|run|-1]), run[|run|-1];
      MessagesAreConserved(run[..|run|-1]);
      AlwaysSettled(run[..|run|-1]);
      hide Step, Line;
      var i := LineStep(s, a);
      if a.Submit? { JoinedBag(Line(s), a.message, i); }
    }
  }

  lemma JoinedBag<M>(line: seq<M>, m: M, i: nat)
    requires i <= |line|
    ensures multiset(line[..i] + [m] + line[i..]) == multiset(line) + multiset{m}
  {
    assert line == line[..i] + line[i..];
  }

  /** If nothing overtakes, what was handed over, then the queue, then the unflushed rest are the
      messages in the order of submission, across any number of drops, rejected authentications
      and partial flushes. */
  lemma {:induction false} NothingOvertakesNothing<M>(run: seq<Action<M>>)
    requires NeverOvertakes(run)
    ensures Line(Exec(run)) == Exec(run).submitted
    ensures !Exec(run).phase.Flushing? ==> Exec(run).handed + Exec(run).queue == Exec(run).submitted
  {
    AlwaysSettled(run);
    if run != [] {
      var s, a := Exec(run[..|run|-1]), run[|run|-1];
      NothingOvertakesNothing(run[..|run|-1]);
      AlwaysSettled(run[..|run|-1]);
      var i := LineStep(s, a);
    }
    assert Exec(run).handed + Exec(run).queue + [] == Exec(run).handed + Exec(run).queue;
  }

  predicate Distinct<M(==)>(messages: seq<M>) {
    forall i, k :: 0 <= i < k < |messages| ==> messages[i] != messages[k]
  }

  /** For messages that can be told apart the condition is exact: the order of submission is
      kept if and only if no `send` ever found messages waiting behind its socket. */
  lemma {:induction false} FifoExactlyWithoutOvertaking<M>(run: seq<Action<M>>)
    requires Distinct(Exec(run).submitted)
    ensures NeverOvertakes(run) <==> Line(Exec(run)) == Exec(run).submitted
  {
    if run != [] {
      var front, a := run[..|run|-1], run[|run|-1];
      var s := Exec(front);
      AlwaysSettled(front);
      MessagesAreConserved(front);
      hide Step, Line, Overtakes;
      var i := LineStep(s, a);
      if a.Submit? {
        DistinctFront(s.submitted, a.message);
        FifoExactlyWithoutOvertaking(front);
        Reordered(Line(s), s.submitted, a.message, i);
      } else {
        FifoExactlyWithoutOvertaking(front);
      }
    }
  }

  lemma DistinctFront<M>(messages: seq<M>, m: M)
    requires Distinct(messages + [m])
    ensures Distinct(messages) && m !in messages
  {
    var all := messages + [m];
    forall i, k | 0 <= i < k < |messages| ensures messages[i] != messages[k] { assert all[i] != all[k]; }
    forall i | 0 <= i < |messages| ensures messages[i] != m { assert all[i] != all[|messages|]; }
  }

  lemma Reordered<M>(line: seq<M>, submitted: seq<M>, m: M, i: nat)
    requires multiset(line) == multiset(submitted) && m !in submitted && i <= |line|
    ensures line[..i] + [m] + line[i..] == submitted + [m] <==> line == submitted && i == |line|
  {
    var line' := line[..i] + [m] + line[i..];
    assert |line| == |multiset(line)| == |multiset(submitted)| == |submitted|;
    if i < |line| {
      assert line'[|line|] == line[|line|-1];
      assert line[|line|-1] in multiset(line);
    } else {
      assert line' == line + [m];
      if line' == submitted + [m] { assert line == line'[..|line|] == submitted; }
    }
  }

  /** Overtaking does happen: one message queued while disconnected, one sent during
      authentication. */
  lemma OvertakingExists<M>(first: M, second: M)
    ensures exists run: seq<Action<M>> :: Exec(run).submitted == [first, second] && Exec(run).handed == [second, first]
  {
    var run: seq<Action<M>> := [];
    assert Exec(run) == Empty();
    hide Exec;
    run := OneMore(run, Empty(), Submit(first), Outbox(Disconnected, false, [], [first], [], [first]));
    run := OneMore(run, Exec(run), Connect, Outbox(Connecting, true, [], [first], [], [first]));
    run := OneMore(run, Exec(run), Submit(second), Outbox(Connecting, true, [second], [first], [], [first, second]));
    run := OneMore(run, Exec(run), BeginFlush, Outbox(Flushing, true, [second], [], [first], [first, second]));
    run := OneMore(run, Exec(run), FlushOne, Outbox(Flushing, true, [second, first], [], [], [first, second]));
  }

  lemma OneMore<M>(run: seq<Action<M>>, s: Outbox<M>, a: Action<M>, s': Outbox<M>) returns (run': seq<Action<M>>)
    requires Exec(run) == s && Same(Step(s, a), s')
    ensures Exec(run') == s'
  {
    ExecPush(run, a);
    run' := run + [a];
  }

  /** Equality, field by field. */
  ghost predicate Same<M>(s: Outbox<M>, s': Outbox<M>) {
    && s.phase == s'.phase && s.open == s'.open && s.handed == s'.handed && s.queue == s'.queue
    && s.pending == s'.pending && s.submitted == s'.submitted
  }
}
