/** What holds of the two kinds of stream after any run of the agents, and what more holds after a run without
    crashes and without lost outcomes. */
module Outcomes {
  import opened Prelude
  import opened Naming
  import opened Messages
  import opened Streams
  import opened Redis
  import opened AgentSide
  import opened Subscriptions

  ghost predicate Reached(trace: seq<Action>, a: Agents) {
    Run(START, trace) == Some(a)
  }

  lemma ReachedInv(trace: seq<Action>, a: Agents)
    requires Reached(trace, a)
    ensures Inv(a)
  {
    StartInv();
    RunKeeps(START, trace);
  }

  // ---- Any run ----

  /** Whatever fails, every entry of the global stream is the true outcome of a published request, under its session. */
  lemma GlobalStreamIsTruthful(trace: seq<Action>, a: Agents, i: nat)
    requires Reached(trace, a) && i < |a.bus.GlobalLog()|
    ensures var e := a.bus.GlobalLog()[i].event;
            && e.Ends? && OutcomeFits(a, e.outcome)
            && e.outcome.session == Some(SessionOf(a.published[e.Uid()].payload))
            && e.outcome.request == a.published[e.Uid()].payload && Given(e.outcome.request, "message")
  {
    ReachedInv(trace, a);
    assert GlobalEntryOk(a, a.bus.GlobalLog()[i].event);
  }

  /** Restricted to a tenant the global stream follows the order of publication, and it reports on no request twice. */
  lemma GlobalStreamFollowsRequests(trace: seq<Action>, a: Agents, i: nat, j: nat)
    requires Reached(trace, a) && i < j < |a.bus.GlobalLog()|
    ensures var e, e' := a.bus.GlobalLog()[i].event, a.bus.GlobalLog()[j].event;
            && e.Ends? && OutcomeFits(a, e.outcome) && e'.Ends? && OutcomeFits(a, e'.outcome)
            && e.Uid() != e'.Uid()
            && (a.published[e.Uid()].tenant == a.published[e'.Uid()].tenant ==> e.Uid() < e'.Uid())
  {
    ReachedInv(trace, a);
    var e, e' := a.bus.GlobalLog()[i].event, a.bus.GlobalLog()[j].event;
    assert GlobalEntryOk(a, e) && GlobalEntryOk(a, e') && GlobalOrder(a, e, e');
  }

  /** On its session's stream a request has at most two final events: a done that could not be passed on, then an
      error. No progress follows either. */
  lemma SessionStreamOrder(trace: seq<Action>, a: Agents, s: string, i: nat, j: nat)
    requires Reached(trace, a) && i < j < |a.bus.SessionLog(s)|
    requires a.bus.SessionLog(s)[i].event.Uid() == a.bus.SessionLog(s)[j].event.Uid()
    ensures var e, e' := a.bus.SessionLog(s)[i].event, a.bus.SessionLog(s)[j].event;
            e.Ends? ==> e.outcome.Done() && e'.Ends? && !e'.outcome.Done()
  {
    ReachedInv(trace, a);
    assert SessionOk(a, s, a.bus.SessionLog(s));
    assert SessionOrder(a, a.bus.SessionLog(s)[i].event, a.bus.SessionLog(s)[j].event);
  }

  // ---- Every outcome a webhook can report was put on the session's stream first ----

  ghost predicate OnStream(log: seq<Entry>, ev: Event) {
    exists i :: 0 <= i < |log| && log[i].event == ev
  }

  ghost predicate Mirrored(a: Agents, o: Outcome) {
    OnStream(a.bus.SessionLog(SessionOf(o.request)), Ends(o.(session := None)))
  }

  ghost predicate Mirror(a: Agents) {
    && (forall i :: 0 <= i < |a.bus.GlobalLog()| && a.bus.GlobalLog()[i].event.Ends? ==>
       Mirrored(a, a.bus.GlobalLog()[i].event.outcome))
    && (forall t :: a.PhaseOf(t).ToGlobal? ==> Mirrored(a, a.PhaseOf(t).o))
  }

  lemma MirroredStays(a: Agents, a': Agents, o: Outcome)
    requires Mirrored(a, o)
    requires forall s :: a.bus.SessionLog(s) <= a'.bus.SessionLog(s)
    ensures Mirrored(a', o)
  {
    var s := SessionOf(o.request);
    var i :| 0 <= i < |a.bus.SessionLog(s)| && a.bus.SessionLog(s)[i].event == Ends(o.(session := None));
    assert a'.bus.SessionLog(s)[i] == a.bus.SessionLog(s)[i];
  }

  /** Logs only grow, and only by the entry the step adds. */
  lemma LogsGrow(a: Agents, x: Action)
    requires Enabled(a, x)
    ensures var a' := Next(a, x);
            && (forall s :: a.bus.SessionLog(s) <= a'.bus.SessionLog(s))
            && a.bus.GlobalLog() <= a'.bus.GlobalLog()
            && (!(x.AddGlobal? && x.fate.Adds?) ==> a'.bus.GlobalLog() == a.bus.GlobalLog())
            && (!((x.AddSession? || x.Say?) && x.fate.Adds?) ==>
               forall s :: a'.bus.SessionLog(s) == a.bus.SessionLog(s))
  {
    match x
    case Say(t, text, hint, f) =>
      if f.Adds? {
        SessionAddFrame(a.bus, SessionOf(a.PhaseOf(t).m.payload), Progress(a.PhaseOf(t).m.uid, text, hint), f);
      }
    case AddSession(t, f) =>
      if f.Adds? {
        SessionAddFrame(a.bus, SessionOf(a.PhaseOf(t).m.payload), Ends(a.PhaseOf(t).o), f);
      }
    case AddGlobal(t, f) =>
      if f.Adds? {
        GlobalAddFrame(a.bus, Ends(a.PhaseOf(t).o.(session := Some(SessionOf(a.PhaseOf(t).m.payload)))), f);
      }
    case _ =>
  }

  /** An outcome about to go to the global stream was already there or has just been put on the session's. */
  lemma EntersToGlobal(a: Agents, x: Action, t: string)
    requires Enabled(a, x) && Next(a, x).PhaseOf(t).ToGlobal?
    ensures a.PhaseOf(t) == Next(a, x).PhaseOf(t) ||
            (x.AddSession? && x.tenant == t && x.fate.Adds? && Next(a, x).PhaseOf(t).o == a.PhaseOf(t).o)
  {
  }

  lemma MirrorStep(a: Agents, x: Action)
    requires Inv(a) && Mirror(a) && Enabled(a, x)
    ensures Mirror(Next(a, x))
  {
    LogsGrow(a, x);
    forall t | Next(a, x).PhaseOf(t).ToGlobal?
      ensures Mirrored(Next(a, x), Next(a, x).PhaseOf(t).o)
    {
      assert TenantOk(a, t);
      EntersToGlobal(a, x, t);
      if a.PhaseOf(t).ToGlobal? {
        MirroredStays(a, Next(a, x), a.PhaseOf(t).o);
      } else {
        AddedIsMirrored(a, Next(a, x), t, x.fate);
      }
    }
    MirrorGlobal(a, x, Next(a, x));
  }

  lemma MirrorGlobal(a: Agents, x: Action, a': Agents)
    requires TenantOk(a, x.tenant) && Mirror(a) && Enabled(a, x) && a' == Next(a, x)
    requires forall s :: a.bus.SessionLog(s) <= a'.bus.SessionLog(s)
    requires a.bus.GlobalLog() <= a'.bus.GlobalLog()
    requires !(x.AddGlobal? && x.fate.Adds?) ==> a'.bus.GlobalLog() == a.bus.GlobalLog()
    ensures forall i :: 0 <= i < |a'.bus.GlobalLog()| && a'.bus.GlobalLog()[i].event.Ends? ==>
                        Mirrored(a', a'.bus.GlobalLog()[i].event.outcome)
  {
    forall i | 0 <= i < |a'.bus.GlobalLog()| && a'.bus.GlobalLog()[i].event.Ends?
      ensures Mirrored(a', a'.bus.GlobalLog()[i].event.outcome)
    {
      if i < |a.bus.GlobalLog()| {
        assert a'.bus.GlobalLog()[i] == a.bus.GlobalLog()[i];
        MirroredStays(a, a', a.bus.GlobalLog()[i].event.outcome);
      } else {
        PassedOnIsMirrored(a, a', x.tenant, x.fate, i);
      }
    }
  }

  lemma AddedIsMirrored(a: Agents, a': Agents, t: string, f: Fate)
    requires TenantOk(a, t) && Enabled(a, AddSession(t, f)) && f.Adds? && a' == Next(a, AddSession(t, f))
    ensures Mirrored(a', a.PhaseOf(t).o)
  {
    var p := a.PhaseOf(t);
    var s := SessionOf(p.m.payload);
    SessionAddFrame(a.bus, s, Ends(p.o), f);
    assert p.o.request == p.m.payload && p.o.(session := None) == p.o;
    assert a'.bus.SessionLog(s)[|a.bus.SessionLog(s)|].event == Ends(p.o);
  }

  lemma PassedOnIsMirrored(a: Agents, a': Agents, t: string, f: Fate, i: nat)
    requires TenantOk(a, t) && Mirror(a) && Enabled(a, AddGlobal(t, f)) && f.Adds? && a' == Next(a, AddGlobal(t, f))
    requires |a.bus.GlobalLog()| <= i < |a'.bus.GlobalLog()|
    requires forall s :: a.bus.SessionLog(s) <= a'.bus.SessionLog(s)
    ensures a'.bus.GlobalLog()[i].event.Ends? && Mirrored(a', a'.bus.GlobalLog()[i].event.outcome)
  {
    var p := a.PhaseOf(t);
    var o := p.o.(session := Some(SessionOf(p.m.payload)));
    GlobalAddFrame(a.bus, Ends(o), f);
    MirroredStays(a, a', p.o);
    assert o.(session := None) == p.o;
  }

  lemma {:induction false} MirrorAlways(trace: seq<Action>, a: Agents)
    requires Reached(trace, a)
    ensures Mirror(a)
    decreases |trace|
  {
    if trace == [] {
    } else {
      var before := trace[..|trace| - 1];
      var b := Run(START, before).value;
      MirrorAlways(before, b);
      ReachedInv(before, b);
      MirrorStep(b, Last(trace));
    }
  }
}
