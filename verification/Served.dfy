/** Runs in which nothing fails: every request's callback is served in the end. */
module Served {
  import opened Prelude
  import opened Naming
  import opened Messages
  import opened Streams
  import opened Redis
  import opened Subscriptions
  import opened Pipeline
  import P = AgentSide
  import D = Dispatch
  import Outcomes
  import CleanRuns
  import opened Orphans

  // ---- Nothing fails: every callback is served ----

  /** Stopping or killing a worker, or losing one of its acknowledgements. */
  predicate FaultOf(step: Step, w: string) {
    step.Worker? && step.y.worker == w && (step.y.Stop? || step.y.Crash? || (step.y.Ack? && !step.y.ok))
  }

  /** No worker and no agent fails, and the dispatcher never falls further behind than the global stream keeps. */
  predicate Faultless(step: Step) {
    match step
    case Agent(x) => CleanRuns.Clean(x)
    case Worker(y) => !FaultOf(step, y.worker)
  }

  predicate KeepsUp(s: State) {
    |After(s.a.bus.GlobalLog(), s.d.lastDelivered)| <= 10000
  }

  /** Every state of the run, seen through its prefixes. */
  ghost predicate Smooth(maxRetries: nat, trace: seq<Step>) {
    && (forall i :: 0 <= i < |trace| ==> Faultless(trace[i]))
    && (forall k :: 0 <= k <= |trace| && Run(Start(maxRetries), trace[..k]).Some? ==>
       KeepsUp(Run(Start(maxRetries), trace[..k]).value))
  }

  predicate Covers(log: seq<Entry>, cursor: nat, known: set<nat>) {
    forall i :: 0 <= i < |log| && log[i].id <= cursor ==> log[i].id in known
  }

  /** Everything the group has passed was delivered, and nothing unread was trimmed. */
  predicate AllRead(g: Stream, d: D.Group) {
    && After(g.trimmed, d.lastDelivered) == []
    && Covers(g.Log(), d.lastDelivered, d.pending + d.acked)
  }

  lemma AppendAllRead(g: Stream, d: D.Group, ev: Event, gap: nat, cut: nat, g': Stream)
    requires g.Valid() && AllRead(g, d) && d.lastDelivered <= LastId(g.Log())
    requires g' == Append(g, ev, gap, cut, GLOBAL_MAXLEN) && |After(g'.Log(), d.lastDelivered)| <= GLOBAL_MAXLEN
    ensures AllRead(g', d)
  {
    AppendLog(g, ev, gap, cut, GLOBAL_MAXLEN);
    AppendTrimsUnread(g, ev, gap, cut, GLOBAL_MAXLEN, d.lastDelivered);
    CoversMore(g.Log(), NewEntry(g, ev, gap), d.lastDelivered, d.pending + d.acked);
  }

  lemma CoversMore(log: seq<Entry>, e: Entry, cursor: nat, known: set<nat>)
    requires Covers(log, cursor, known) && e.id > cursor
    ensures Covers(log + [e], cursor, known)
  {
  }

  /** Reading the first unread entry covers the log up to it. */
  lemma ReadCovers(log: seq<Entry>, cursor: nat, e: Entry, known: set<nat>)
    requires Increasing(log) && Covers(log, cursor, known) && After(log, cursor) != [] && e == After(log, cursor)[0]
    ensures Covers(log, e.id, known + {e.id})
  {
    var k := Passed(log, cursor);
    forall i | 0 <= i < |log| && log[i].id <= e.id
      ensures log[i].id in known + {e.id}
    {
      Ordered(log, k, i);
      AfterIsFilter(log, cursor, i);
    }
  }

  lemma ReadAllRead(g: Stream, d: D.Group, w: string)
    requires g.Valid() && AllRead(g, d) && D.Enabled(g, d, D.Read(w))
    ensures AllRead(g, D.Next(g, d, D.Read(w)))
  {
    var d', e := D.Next(g, d, D.Read(w)), D.Unread(g, d)[0];
    AfterAppend(g.trimmed, g.live, d.lastDelivered);
    ReadCovers(g.Log(), d.lastDelivered, e, d.pending + d.acked);
    assert d'.pending + d'.acked == d.pending + d.acked + {e.id};
    TrimmedPassed(g, d.lastDelivered, d'.lastDelivered);
  }

  lemma TrimmedPassed(g: Stream, c: nat, c': nat)
    requires g.Valid() && After(g.trimmed, c) == [] && c <= c'
    ensures After(g.trimmed, c') == []
  {
    IncreasingParts(g.trimmed, g.live);
    PassedIs(g.trimmed, c', |g.trimmed|);
  }

  lemma SmoothBefore(maxRetries: nat, trace: seq<Step>)
    requires Smooth(maxRetries, trace) && trace != []
    ensures Smooth(maxRetries, trace[..|trace| - 1])
  {
    var before := trace[..|trace| - 1];
    assert forall k :: 0 <= k <= |before| ==> before[..k] == trace[..k];
  }

  lemma AllReadAgent(s: State, x: P.Action, g: Stream, g': Stream)
    requires Inv(s) && AllRead(GlobalStream(s), s.d) && P.Enabled(s.a, x) && KeepsUp(Next(s, Agent(x)))
    requires g == GlobalStream(s) && g' == GlobalStream(Next(s, Agent(x)))
    ensures AllRead(g', s.d)
  {
    AgentStepOnStream(s.a, x);
    if g' != g {
      var ev :| g' == Append(g, ev, x.fate.gap, x.fate.cut, GLOBAL_MAXLEN);
      AppendAllRead(g, s.d, ev, x.fate.gap, x.fate.cut, g');
    }
  }

  lemma AllReadWorker(g: Stream, d: D.Group, y: D.Action)
    requires g.Valid() && AllRead(g, d) && D.Enabled(g, d, y) && D.WorkerOk(g, d, y.worker, d.PhaseOf(y.worker))
    ensures AllRead(g, D.Next(g, d, y))
  {
    if y.Read? {
      ReadAllRead(g, d, y.worker);
    }
  }

  lemma AllReadStep(s: State, step: Step)
    requires Inv(s) && AllRead(GlobalStream(s), s.d) && Enabled(s, step) && KeepsUp(Next(s, step))
    ensures AllRead(GlobalStream(Next(s, step)), Next(s, step).d)
  {
    match step
    case Agent(x) => AllReadAgent(s, x, GlobalStream(s), GlobalStream(Next(s, step)));
    case Worker(y) => AllReadWorker(GlobalStream(s), s.d, y);
  }

  lemma {:induction false} SmoothReadsAll(maxRetries: nat, trace: seq<Step>)
    requires Run(Start(maxRetries), trace).Some? && Smooth(maxRetries, trace)
    ensures var s := Run(Start(maxRetries), trace).value; AllRead(GlobalStream(s), s.d)
    decreases |trace|
  {
    if trace == [] {
    } else {
      var before := trace[..|trace| - 1];
      SmoothBefore(maxRetries, trace);
      SmoothReadsAll(maxRetries, before);
      RunInv(maxRetries, before);
      assert trace[..|trace|] == trace;
      AllReadStep(Run(Start(maxRetries), before).value, Last(trace));
    }
  }

  // ---- The agents' share of a run ----

  function AgentPart(trace: seq<Step>): seq<P.Action> {
    if trace == [] then []
    else
      var rest := AgentPart(trace[..|trace| - 1]);
      if Last(trace).Agent? then rest + [Last(trace).x] else rest
  }

  lemma AgentStepAlone(part: seq<P.Action>, a: P.Agents, x: P.Action)
    requires P.Run(P.START, part) == Some(a) && P.Enabled(a, x)
    ensures P.Run(P.START, part + [x]) == Some(P.Next(a, x))
  {
    assert (part + [x])[..|part|] == part;
  }

  lemma {:induction false} AgentsRunAlone(maxRetries: nat, trace: seq<Step>)
    requires Run(Start(maxRetries), trace).Some?
    ensures Outcomes.Reached(AgentPart(trace), Run(Start(maxRetries), trace).value.a)
    decreases |trace|
  {
    if trace == [] {
    } else {
      var before, step := trace[..|trace| - 1], Last(trace);
      AgentsRunAlone(maxRetries, before);
      if step.Agent? {
        AgentStepAlone(AgentPart(before), Run(Start(maxRetries), before).value.a, step.x);
      }
    }
  }

  lemma {:induction false} FaultlessAgentsAreClean(trace: seq<Step>)
    requires forall i :: 0 <= i < |trace| ==> Faultless(trace[i])
    ensures CleanRuns.AllClean(AgentPart(trace))
    decreases |trace|
  {
    if trace == [] {
    } else {
      FaultlessAgentsAreClean(trace[..|trace| - 1]);
      assert Faultless(trace[|trace| - 1]);
    }
  }

  // ---- At rest ----

  ghost predicate AtRest(s: State) {
    && (forall t :: s.a.PhaseOf(t).Idle? && s.a.bus.Queue(t) == [])
    && (forall w :: s.d.PhaseOf(w).Waiting? || s.d.PhaseOf(w).Away?)
    && D.Unread(GlobalStream(s), s.d) == []
  }

  lemma {:induction false} NobodyStops(maxRetries: nat, trace: seq<Step>)
    requires Run(Start(maxRetries), trace).Some? && forall i :: 0 <= i < |trace| ==> Faultless(trace[i])
    ensures Run(Start(maxRetries), trace).value.d.stopping == {}
    decreases |trace|
  {
    if trace == [] {
    } else {
      NobodyStops(maxRetries, trace[..|trace| - 1]);
      assert Faultless(trace[|trace| - 1]);
    }
  }

  lemma DropsAreFaults(d: D.Group, step: Step, id: nat)
    requires step.Worker? && Drops(d, step.y, id) && d.stopping == {}
    ensures !Faultless(step)
  {
  }

  /** Without faults no entry is dropped. */
  lemma NothingDropped(maxRetries: nat, trace: seq<Step>, k: nat, id: nat)
    requires forall i :: 0 <= i < |trace| ==> Faultless(trace[i])
    ensures !DropsAt(maxRetries, trace, k, id)
  {
    if DropsAt(maxRetries, trace, k, id) {
      assert forall i :: 0 <= i < k ==> trace[..k][i] == trace[i];
      NobodyStops(maxRetries, trace[..k]);
      DropsAreFaults(Run(Start(maxRetries), trace[..k]).value.d, trace[k], id);
    }
  }

  /** With no fault nothing stays pending once the workers rest. */
  lemma NothingPending(maxRetries: nat, trace: seq<Step>, s: State, id: nat)
    requires Reached(maxRetries, trace, s) && Smooth(maxRetries, trace)
    requires forall w :: s.d.PhaseOf(w).Waiting? || s.d.PhaseOf(w).Away?
    ensures id !in s.d.pending
  {
    if id in s.d.pending {
      assert Orphan(s.d, id);
      OrphanedExactlyByDrops(maxRetries, trace, s, id);
      var k: nat :| DropsAt(maxRetries, trace, k, id);
      NothingDropped(maxRetries, trace, k, id);
    }
  }

  lemma {:induction false} NoAckErrors(maxRetries: nat, trace: seq<Step>)
    requires Run(Start(maxRetries), trace).Some? && forall i :: 0 <= i < |trace| ==> Faultless(trace[i])
    ensures Run(Start(maxRetries), trace).value.d.ackErrors == []
    decreases |trace|
  {
    if trace == [] {
    } else {
      NoAckErrors(maxRetries, trace[..|trace| - 1]);
      assert Faultless(trace[|trace| - 1]);
    }
  }

  /** Nothing is left to read, so every entry was delivered and, with nothing pending, acknowledged. */
  lemma AllAcked(maxRetries: nat, trace: seq<Step>, s: State, i: nat)
    requires Reached(maxRetries, trace, s) && Smooth(maxRetries, trace) && i < |s.a.bus.GlobalLog()|
    requires forall w :: s.d.PhaseOf(w).Waiting? || s.d.PhaseOf(w).Away?
    requires D.Unread(GlobalStream(s), s.d) == []
    ensures s.a.bus.GlobalLog()[i].id in s.d.acked
  {
    RunInv(maxRetries, trace);
    SmoothReadsAll(maxRetries, trace);
    AllDelivered(GlobalStream(s), s.d, i);
    NothingPending(maxRetries, trace, s, s.a.bus.GlobalLog()[i].id);
  }

  lemma AllDelivered(g: Stream, d: D.Group, i: nat)
    requires g.Valid() && AllRead(g, d) && D.Unread(g, d) == [] && i < |g.Log()|
    ensures g.Log()[i].id in d.pending + d.acked
  {
    AfterAppend(g.trimmed, g.live, d.lastDelivered);
    AfterIsFilter(g.Log(), d.lastDelivered, i);
  }

  /** The entry that reports on a request, once everything rests. */
  lemma ReportedAndAcked(maxRetries: nat, trace: seq<Step>, s: State, u: nat) returns (e: Entry)
    requires Reached(maxRetries, trace, s) && Smooth(maxRetries, trace) && AtRest(s)
    requires u < |s.a.published| && Given(s.a.published[u].payload, "message")
    ensures e in s.a.bus.GlobalLog() && e.event.Uid() == u && e.id in s.d.acked
    ensures e.event.Ends? && u in s.a.runs && e.event.outcome.result == s.a.runs[u]
  {
    AgentsRunAlone(maxRetries, trace);
    FaultlessAgentsAreClean(trace);
    CleanRuns.NoRequestIsLost(AgentPart(trace), s.a, u);
    assert s.a.PhaseOf(s.a.published[u].tenant).Idle?;
    var log := s.a.bus.GlobalLog();
    var i :| 0 <= i < |log| && log[i].event.Uid() == u;
    e := log[i];
    CleanRuns.CleanOutcomesAreTrue(AgentPart(trace), s.a, i);
    AllAcked(maxRetries, trace, s, i);
  }

  /** The dispatcher's answer to a request: its true outcome is acknowledged on the global stream. */
  predicate Answered(s: State, u: nat, e: Entry) {
    && e in s.a.bus.GlobalLog() && e.event.Ends? && e.event.outcome.uid == u && e.id in s.d.acked
    && u in s.a.runs && e.event.outcome.result == s.a.runs[u]
  }

  /** When nothing fails and everything has come to rest, every request with a message has its true outcome on the
      global stream, and its callback, if it has one, has answered 2xx exactly once or refused all `maxRetries`
      attempts. */
  lemma EveryRequestIsServed(maxRetries: nat, trace: seq<Step>, s: State, u: nat)
    requires Reached(maxRetries, trace, s) && Smooth(maxRetries, trace) && AtRest(s)
    requires u < |s.a.published| && Given(s.a.published[u].payload, "message")
    ensures exists e :: Answered(s, u, e)
    ensures Given(s.a.published[u].payload, "callbackUrl") || Given(s.a.published[u].payload, "callback_url") ==>
              || SuccessesFor(s.d.posts, u) == 1
              || (SuccessesFor(s.d.posts, u) == 0 && AttemptsFor(s.d.posts, u) == maxRetries)
  {
    var e := ReportedAndAcked(maxRetries, trace, s, u);
    CallbackIsGiven(s.a.published[u].payload);
    assert Answered(s, u, e);
    RunInv(maxRetries, trace);
    MaxRetriesFixed(maxRetries, trace);
    NoAckErrors(maxRetries, trace);
    var log := s.a.bus.GlobalLog();
    var i :| 0 <= i < |log| && log[i] == e;
    assert P.GlobalEntryOk(s.a, log[i].event);
    CountForEntry(s, e);
    assert D.CountsOk(s.d, e.id) && D.AckedOk(s.d, e);
  }
}
