/** The pipeline and the durable queue together: what the hub gets to see. */
module Delivery {
  import opened Options
  import opened JobStatus
  import opened JobRow
  import opened Pipeline
  import opened PipelineSafety
  import opened PipelineHistory
  import opened PipelineCoarse
  import opened PipelineTheorems
  import Net = Outbox

  /** A step of the agent, which may submit a message, or of the connection. */
  datatype Action = Does(action: AgentAction) | Moves(step: Net.Action<Envelope>)

  /** The message an agent step submits. There is never more than one. */
  function Sends(s: Agent, a: AgentAction): Option<Envelope> {
    if !Enabled(s, a) || !(a.OnJob? || a.ReportStuck?) then None
    else
      var e := News(At(s, a.id), a.id, a);
      if e.Some? && e.value.Submit? then Some(Envelope(a.id, e.value.message)) else None
  }

  function AgentRun(run: seq<Action>): seq<AgentAction> {
    if run == [] then []
    else
      var front, a := AgentRun(run[..|run|-1]), run[|run|-1];
      if a.Does? then front + [a.action] else front
  }

  /** What the durable queue and the socket go through in the present lifetime of the process. All
      submissions of all jobs are in it, in one order; a crash forgets the queue. */
  function NetRun(run: seq<Action>): seq<Net.Action<Envelope>> {
    if run == [] then []
    else
      var front, a := NetRun(run[..|run|-1]), run[|run|-1];
      match a
      case Moves(step) => if step.Submit? then front else front + [step]
      case Does(b) =>
        var m := Sends(Exec(AgentRun(run[..|run|-1])), b);
        if b.Crash? then [] else if m.Some? then front + [Net.Submit(m.value)] else front
  }

  /** Agent and connection take turns as they like: a run goes on with any step of either. */
  lemma RunsInterleave(run: seq<Action>, a: AgentAction, step: Net.Action<Envelope>)
    ensures AgentRun(run + [Does(a)]) == AgentRun(run) + [a]
    ensures AgentRun(run + [Moves(step)]) == AgentRun(run)
    ensures !step.Submit? ==> NetRun(run + [Moves(step)]) == NetRun(run) + [step]
  {
    assert (run + [Does(a)])[..|run|] == run && (run + [Moves(step)])[..|run|] == run;
  }

  function JobIn(run: seq<Action>, id: JobId): Job { At(Exec(AgentRun(run)), id) }

  /** The messages about one job. */
  function About(id: JobId, envelopes: seq<Envelope>): seq<Message> {
    if envelopes == [] then []
    else
      var front, e := About(id, envelopes[..|envelopes|-1]), envelopes[|envelopes|-1];
      if e.id == id then front + [e.message] else front
  }

  lemma AboutPush(id: JobId, envelopes: seq<Envelope>, e: Envelope)
    ensures About(id, envelopes + [e]) == if e.id == id then About(id, envelopes) + [e.message] else About(id, envelopes)
  {
    assert (envelopes + [e])[..|envelopes|] == envelopes;
  }

  lemma {:induction false} AboutConcat(id: JobId, a: seq<Envelope>, b: seq<Envelope>)
    ensures About(id, a + b) == About(id, a) + About(id, b)
    decreases |b|
  {
    if b == [] {
      assert a + b == a;
    } else {
      var front, e := b[..|b|-1], b[|b|-1];
      hide About;
      AboutConcat(id, a, front);
      assert b == front + [e];
      ConcatAssociates(a, front, [e]);
      AboutPush(id, a + front, e);
      AboutPush(id, front, e);
      if e.id == id { ConcatAssociates(About(id, a), About(id, front), [e.message]); }
    }
  }

  lemma {:induction false} AboutHolds(id: JobId, envelopes: seq<Envelope>, m: Message)
    ensures m in About(id, envelopes) <==> Envelope(id, m) in envelopes
  {
    if envelopes != [] {
      var front, e := envelopes[..|envelopes|-1], envelopes[|envelopes|-1];
      assert envelopes == front + [e];
      AboutHolds(id, front, m);
    }
  }

  // ---- submissions --------------------------------------------------------------------------------

  /** A step's submission for a job is the message it sends about it. */
  lemma NewsIsSent(s: Agent, a: AgentAction, id: JobId)
    requires Enabled(s, a)
    ensures
      var e, m := News(At(s, id), id, a), Sends(s, a);
      && (e.Some? && e.value.Submit? <==> m.Some? && m.value.id == id)
      && (m.Some? && m.value.id == id ==> e.value.message == m.value.message)
  {
    hide Emits;
  }

  function ToldInLife(v: Job): seq<Message>
    requires v.since <= |v.log|
  {
    Messages(v.log[v.since..])
  }

  lemma NextTold(s: Agent, a: AgentAction, id: JobId)
    requires At(s, id).since <= |At(s, id).log| && Enabled(s, a)
    ensures
      var v, v', m := At(s, id), At(AgentStep(s, a), id), Sends(s, a);
      && v'.since <= |v'.log|
      && ToldInLife(v') == if a.Crash? then [] else if m.Some? && m.value.id == id then ToldInLife(v) + [m.value.message]
                           else ToldInLife(v)
  {
    var v, e := At(s, id), News(At(s, id), id, a);
    AtNext(s, a, id);
    TouchedKeepsPast(v, id, a);
    NewsIsSent(s, a, id);
    if a.Crash? {
      assert v.log[|v.log|..] == [];
    } else if e.Some? {
      hide Messages, Touched, News, Sends;
      assert (v.log + [e.value])[v.since..] == v.log[v.since..] + [e.value];
      LogPush(v.log[v.since..], e.value);
    }
  }

  lemma SubmittedPush(run: seq<Net.Action<Envelope>>, a: Net.Action<Envelope>)
    ensures Net.Exec(run + [a]).submitted ==
      if a.Submit? then Net.Exec(run).submitted + [a.message] else Net.Exec(run).submitted
  {
    Net.ExecPush(run, a);
  }

  /** Restricted to one job, the one order of submissions is the job's own history. */
  lemma {:induction false} SubmittedIsTold(run: seq<Action>, id: JobId)
    ensures
      var v := JobIn(run, id);
      v.since <= |v.log| && About(id, Net.Exec(NetRun(run)).submitted) == ToldInLife(v)
  {
    if run != [] {
      var front, a := run[..|run|-1], run[|run|-1];
      SubmittedIsTold(front, id);
      var agent, net := AgentRun(front), NetRun(front);
      var s, sent := Exec(agent), Net.Exec(net).submitted;
      match a
      case Moves(step) =>
        SubmittedPush(net, step);
      case Does(b) =>
        assert (agent + [b])[..|agent|] == agent;
        assert Exec(AgentRun(run)) == AgentStep(s, b);
        var m := Sends(s, b);
        hide Sends, AgentStep, ToldInLife, Enabled;
        SendsWhenEnabled(s, b);
        if Enabled(s, b) { NextTold(s, b, id); }
        if m.Some? && !b.Crash? {
          SubmittedPush(net, Net.Submit(m.value));
          AboutPush(id, sent, m.value);
        }
    }
  }

  lemma SendsWhenEnabled(s: Agent, a: AgentAction)
    ensures !Enabled(s, a) ==> Sends(s, a).None? && AgentStep(s, a) == s && !a.Crash?
  {
  }

  // ---- what the hub sees ------------------------------------------------------------------------

  /** Nothing reaches the hub about a job that was not submitted for it, over every run and any
      interleaving: so it was committed first, and a completed job was printed. */
  lemma HubSeesWhatWasSubmitted(run: seq<Action>, id: JobId, m: Message)
    requires Envelope(id, m) in Net.Exec(NetRun(run)).handed
    ensures
      var log := JobIn(run, id).log;
      && Submit(m) in log && (exists k :: 0 <= k < |log| && Reports(m, log[k]))
      && (m.CompletedMsg? ==> HasPrintCall(log) && PrintReturned in log)
  {
    var v, net := JobIn(run, id), Net.Exec(NetRun(run));
    Net.MessagesAreConserved(NetRun(run));
    assert Envelope(id, m) in multiset(Net.Line(net));
    assert Envelope(id, m) in net.submitted;
    SubmittedIsTold(run, id);
    AboutHolds(id, net.submitted, m);
    MessageIsLogged(v.log[v.since..], m);
    var i :| 0 <= i < |v.log| && v.log[i] == Submit(m);
    MessagesFollowCommits(AgentRun(run), id, i);
    if m.CompletedMsg? {
      CompletedMeansPrinted(AgentRun(run), id, i);
    }
  }

  /** Without overtaking, what the hub has been handed about a job in this lifetime is a beginning
      of what was submitted for it, and all of it once nothing waits. Under the coarse schedule the
      hub so sees a legal path from the status stored when the lifetime began, in which only a
      terminal status is repeated. */
  lemma HubSeesALegalPath(run: seq<Action>, id: JobId)
    requires Net.NeverOvertakes(NetRun(run))
    ensures
      var v, net := JobIn(run, id), Net.Exec(NetRun(run));
      var seen := About(id, net.handed);
      && v.since <= |v.log|
      && seen <= ToldInLife(v)
      && (net.queue == [] && net.pending == [] ==> seen == ToldInLife(v))
      && (CoarseRun(AgentRun(run)) ==> TellingPath([v.base] + StatusesTold(seen)))
  {
    hide NetRun, AgentRun, Exec, Net.Exec, About, StatusesTold, TellingPath;
    var v, net := JobIn(run, id), Net.Exec(NetRun(run));
    SubmittedIsTold(run, id);
    HandedIsFirst(NetRun(run), id);
    if CoarseRun(AgentRun(run)) {
      hide CoarseRun;
      TellsALegalPath(AgentRun(run), id);
      PathPrefix(v.base, About(id, net.handed), ToldInLife(v));
    }
  }

  lemma HandedIsFirst(run: seq<Net.Action<Envelope>>, id: JobId)
    requires Net.NeverOvertakes(run)
    ensures
      var net := Net.Exec(run);
      && About(id, net.handed) <= About(id, net.submitted)
      && (net.queue == [] && net.pending == [] ==> net.handed == net.submitted)
  {
    Net.NothingOvertakesNothing(run);
    hide Net.Exec, About, Net.NeverOvertakes;
    var net := Net.Exec(run);
    ConcatAssociates(net.handed, net.queue, net.pending);
    AboutConcat(id, net.handed, net.queue + net.pending);
  }

  lemma PathPrefix(base: Status, seen: seq<Message>, told: seq<Message>)
    requires seen <= told && TellingPath([base] + StatusesTold(told))
    ensures TellingPath([base] + StatusesTold(seen))
  {
    var some, all := [base] + StatusesTold(seen), [base] + StatusesTold(told);
    forall i | 0 < i < |some|
      ensures IsLegal(some[i-1], some[i]) && (some[i-1] == some[i] ==> IsTerminal(some[i]))
    {
      assert some[i] == all[i] && some[i-1] == all[i-1];
    }
  }

  lemma {:induction false} AgentRunGrows(run: seq<Action>, more: seq<Action>) returns (rest: seq<AgentAction>)
    ensures AgentRun(run + more) == AgentRun(run) + rest
    decreases |more|
  {
    if more == [] {
      assert run + more == run;
      rest := [];
    } else {
      var a := more[|more|-1];
      rest := AgentRunGrows(run, more[..|more|-1]);
      assert (run + more)[..|run + more|-1] == run + more[..|more|-1];
      if a.Does? { rest := rest + [a.action]; }
    }
  }

  /** Under the coarse schedule, whatever outcome the hub was ever handed for a job, in this
      lifetime or, as `run` is any beginning of the whole, in one before, is what the row says at
      any later time. */
  lemma HubNeverHasToUnlearn(run: seq<Action>, more: seq<Action>, id: JobId, m: Message)
    requires Envelope(id, m) in Net.Exec(NetRun(run)).handed && IsTerminal(StatusOf(m))
    requires CoarseRun(AgentRun(run + more))
    ensures
      var row := JobIn(run + more, id).row;
      row.Some? && IsTerminal(row.value.status) && m == Report(row.value)
  {
    HubSeesWhatWasSubmitted(run, id, m);
    var rest := AgentRunGrows(run, more);
    HistoryGrows(AgentRun(run), rest, id);
    var log := JobIn(run + more, id).log;
    assert Submit(m) in log;
    MessageIsLogged(log, m);
    TerminalReportsAgree(AgentRun(run + more), id);
  }
}
