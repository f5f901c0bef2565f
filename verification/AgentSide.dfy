/** The producing half of the pipeline as a state machine: the gateway publishes requests, one agent per tenant pops
    them one at a time, streams progress, and publishes the outcome to the session's stream and to the global one.
    Every Redis call is a step of its own, so that steps of all tenants interleave between any two of them. */
module AgentSide {
  import opened Prelude
  import opened Naming
  import opened Messages
  import opened Streams
  import opened Redis

  datatype Published = Published(tenant: string, payload: Payload)

  /** Where a tenant's listener stands. A final event goes to the session's stream first, then to the global one. */
  datatype Phase =
    | Idle
    | Running(m: Message)
    | ToSession(m: Message, o: Outcome)
    | ToGlobal(m: Message, o: Outcome)

  /** `published` and `runs` remember every published request and the outcome of every finished turn. */
  datatype Agents = Agents(bus: Bus, published: seq<Published>, phases: map<string, Phase>, runs: map<nat, RunResult>) {
    function PhaseOf(t: string): Phase {
      if t in phases then phases[t] else Idle
    }
  }

  const START := Agents(Bus(map[], map[]), [], map[], map[])

  datatype Action =
    | Publish(tenant: string, payload: Payload)
    | Pop(tenant: string)
    | Say(tenant: string, text: string, toolHint: bool, fate: Fate)
    | Finish(tenant: string, result: RunResult)
    | AddSession(tenant: string, fate: Fate)
    | AddGlobal(tenant: string, fate: Fate)
    | Crash(tenant: string)

  predicate Enabled(a: Agents, x: Action) {
    match x
    case Publish(_, _) => true
    case Pop(t) => a.PhaseOf(t).Idle? && a.bus.Queue(t) != []
    case Say(t, _, _, _) => a.PhaseOf(t).Running?
    case Finish(t, _) => a.PhaseOf(t).Running?
    case AddSession(t, _) => a.PhaseOf(t).ToSession?
    case AddGlobal(t, _) => a.PhaseOf(t).ToGlobal?
    case Crash(t) => !a.PhaseOf(t).Idle?
  }

  /** A failed XADD of a done event turns into an error event; one of an error event ends the iteration. */
  function OnFailure(m: Message, o: Outcome, reason: string): Phase {
    if o.Done() then ToSession(m, OutcomeOf(m, Raised(reason))) else Idle
  }

  /** The listener answers requests with a non-empty message and drops the others. */
  predicate Answerable(p: Payload) {
    Truthy(Get(p, "message"))
  }

  function OnPop(m: Message): Phase {
    if Answerable(m.payload) then Running(m) else Idle
  }

  function Next(a: Agents, x: Action): Agents
    requires Enabled(a, x)
  {
    var t := x.tenant;
    match x
    case Publish(_, payload) =>
      a.(bus := a.bus.LPush(InboundKey(t), Message(|a.published|, payload)),
         published := a.published + [Published(t, payload)])
    case Pop(_) =>
      a.(bus := a.bus.RPop(InboundKey(t)), phases := a.phases[t := OnPop(Last(a.bus.Queue(t)))])
    case Say(_, text, toolHint, f) =>
      var m := a.PhaseOf(t).m;
      var key := SessionStreamKey(SessionOf(m.payload));
      a.(bus := a.bus.XAddTo(key, Progress(m.uid, text, toolHint), f, SESSION_MAXLEN))
    case Finish(_, r) =>
      var m := a.PhaseOf(t).m;
      a.(phases := a.phases[t := ToSession(m, OutcomeOf(m, r))], runs := a.runs[m.uid := r])
    case AddSession(_, f) =>
      var p := a.PhaseOf(t);
      if f.Fails? then a.(phases := a.phases[t := OnFailure(p.m, p.o, f.reason)])
      else
        a.(bus := a.bus.XAddTo(SessionStreamKey(SessionOf(p.m.payload)), Ends(p.o), f, SESSION_MAXLEN),
           phases := a.phases[t := ToGlobal(p.m, p.o)])
    case AddGlobal(_, f) =>
      var p := a.PhaseOf(t);
      if f.Fails? then a.(phases := a.phases[t := OnFailure(p.m, p.o, f.reason)])
      else
        a.(bus := a.bus.XAddTo(GLOBAL_STREAM, Ends(p.o.(session := Some(SessionOf(p.m.payload)))), f, GLOBAL_MAXLEN),
           phases := a.phases[t := Idle])
    case Crash(_) =>
      a.(phases := a.phases[t := Idle])
  }

  /** The state after a sequence of steps, if each is possible where it is taken. */
  function Run(a: Agents, trace: seq<Action>): Option<Agents> {
    if trace == [] then Some(a)
    else
      match Run(a, trace[..|trace| - 1])
      case None => None
      case Some(b) => if Enabled(b, Last(trace)) then Some(Next(b, Last(trace))) else None
  }

  // ---- What every step keeps ----

  predicate Known(a: Agents, t: string, m: Message) {
    m.uid < |a.published| && a.published[m.uid] == Published(t, m.payload)
  }

  /** The outcome belongs to a published request and says how its turn really ended; an error may also stand
      for a done event that could not be published. */
  predicate OutcomeFits(a: Agents, o: Outcome) {
    && o.uid < |a.published| && o.request == a.published[o.uid].payload && Answerable(o.request)
    && o.uid in a.runs
    && (o.Done() || a.runs[o.uid].Raised? ==> o.result == a.runs[o.uid])
  }

  predicate Fits(a: Agents, ev: Event) {
    ev.Uid() < |a.published| && (ev.Ends? ==> OutcomeFits(a, ev.outcome))
  }

  /** The first request of the tenant that is not finished with. */
  function NextUid(a: Agents, t: string): nat {
    if !a.PhaseOf(t).Idle? then a.PhaseOf(t).m.uid
    else if a.bus.Queue(t) != [] then Last(a.bus.Queue(t)).uid
    else |a.published|
  }

  function Stage(p: Phase): nat {
    match p
    case Idle => 0
    case Running(_) => 1
    case ToSession(_, o) => if o.Done() then 2 else 4
    case ToGlobal(_, o) => if o.Done() then 3 else 5
  }

  /** How far a tenant has come: a number that no step of any tenant lowers. */
  function Mark(a: Agents, t: string): nat {
    8 * NextUid(a, t) + Stage(a.PhaseOf(t))
  }

  /** How far a tenant must have come for the event to be on its session's stream. */
  function Need(ev: Event): nat {
    8 * ev.Uid() + 2 * ev.Rank() + 1
  }

  predicate QueueOk(a: Agents, t: string, q: seq<Message>) {
    && (forall m :: m in q ==> Known(a, t, m))
    && (forall i, j :: 0 <= i < j < |q| ==> q[i].uid > q[j].uid)
  }

  predicate PhaseOk(a: Agents, t: string, p: Phase, q: seq<Message>) {
    && (!p.Idle? ==> Known(a, t, p.m) && Answerable(p.m.payload) && forall m :: m in q ==> m.uid > p.m.uid)
    && (p.ToSession? || p.ToGlobal? ==> OutcomeFits(a, p.o) && p.o.uid == p.m.uid && p.o.session == None)
  }

  predicate TenantOk(a: Agents, t: string) {
    QueueOk(a, t, a.bus.Queue(t)) && PhaseOk(a, t, a.PhaseOf(t), a.bus.Queue(t))
  }

  ghost predicate TenantsOk(a: Agents) {
    forall t :: TenantOk(a, t)
  }

  predicate RunsOk(a: Agents) {
    forall u :: u in a.runs ==> u < |a.published| && 8 * u + 2 <= Mark(a, a.published[u].tenant)
  }

  predicate GlobalEntryOk(a: Agents, ev: Event) {
    && ev.Ends? && OutcomeFits(a, ev.outcome)
    && ev.outcome.session == Some(SessionOf(ev.outcome.request))
    && 8 * ev.Uid() + 8 <= Mark(a, a.published[ev.Uid()].tenant)
  }

  predicate SameTenant(a: Agents, e: Event, e': Event) {
    e.Uid() < |a.published| && e'.Uid() < |a.published| && a.published[e.Uid()].tenant == a.published[e'.Uid()].tenant
  }

  predicate GlobalOrder(a: Agents, e: Event, e': Event) {
    SameTenant(a, e, e') ==> e.Uid() < e'.Uid()
  }

  predicate GlobalOk(a: Agents, log: seq<Entry>) {
    && (forall i :: 0 <= i < |log| ==> GlobalEntryOk(a, log[i].event))
    && (forall i, j :: 0 <= i < j < |log| ==> GlobalOrder(a, log[i].event, log[j].event))
  }

  predicate SessionEntryOk(a: Agents, s: string, ev: Event) {
    && Fits(a, ev)
    && SessionOf(a.published[ev.Uid()].payload) == s
    && Need(ev) <= Mark(a, a.published[ev.Uid()].tenant)
  }

  /** `e` may precede `e'` on a session's stream. */
  predicate SessionOrder(a: Agents, e: Event, e': Event) {
    && (SameTenant(a, e, e') ==> e.Uid() <= e'.Uid())
    && (e.Uid() == e'.Uid() ==> e.Rank() < e'.Rank() || e.Rank() == e'.Rank() == 0)
  }

  predicate SessionOk(a: Agents, s: string, log: seq<Entry>) {
    && (forall i :: 0 <= i < |log| ==> SessionEntryOk(a, s, log[i].event))
    && (forall i, j :: 0 <= i < j < |log| ==> SessionOrder(a, log[i].event, log[j].event))
  }

  ghost predicate Inv(a: Agents) {
    && StreamsValid(a.bus)
    && TenantsOk(a)
    && RunsOk(a)
    && GlobalOk(a, a.bus.GlobalLog())
    && forall s :: SessionOk(a, s, a.bus.SessionLog(s))
  }

  // ---- Every step moves forward ----

  /** Requests and outcomes are never forgotten or changed, and every tenant only advances. */
  ghost predicate Forward(a: Agents, a': Agents) {
    Remembers(a, a') && forall t :: Mark(a, t) <= Mark(a', t)
  }

  predicate Remembers(a: Agents, a': Agents) {
    && a.published <= a'.published
    && forall u :: u in a.runs ==> u in a'.runs && a'.runs[u] == a.runs[u]
  }

  lemma FitsStays(a: Agents, a': Agents, ev: Event)
    requires Remembers(a, a') && Fits(a, ev)
    ensures Fits(a', ev) && a'.published[ev.Uid()] == a.published[ev.Uid()]
  {
  }

  lemma QueueStays(a: Agents, a': Agents, t: string, q: seq<Message>)
    requires Remembers(a, a') && QueueOk(a, t, q)
    ensures QueueOk(a', t, q)
  {
    forall m | m in q
      ensures Known(a', t, m)
    {
      assert Known(a, t, m);
    }
  }

  /** A tenant whose queue and phase a step leaves alone. */
  lemma TenantStays(a: Agents, a': Agents, t: string)
    requires Remembers(a, a') && TenantOk(a, t)
    requires a'.bus.Queue(t) == a.bus.Queue(t) && a'.PhaseOf(t) == a.PhaseOf(t)
    ensures TenantOk(a', t) && Mark(a, t) <= Mark(a', t)
  {
    QueueStays(a, a', t, a.bus.Queue(t));
    var p := a.PhaseOf(t);
    if p.ToSession? || p.ToGlobal? {
      FitsStays(a, a', Ends(p.o));
    }
  }

  lemma GlobalStays(a: Agents, a': Agents, log: seq<Entry>)
    requires Forward(a, a') && GlobalOk(a, log)
    ensures GlobalOk(a', log)
  {
    forall i | 0 <= i < |log|
      ensures GlobalEntryOk(a', log[i].event)
    {
      FitsStays(a, a', log[i].event);
    }
    forall i, j | 0 <= i < j < |log|
      ensures GlobalOrder(a', log[i].event, log[j].event)
    {
      assert GlobalEntryOk(a, log[i].event) && GlobalEntryOk(a, log[j].event)
             && GlobalOrder(a, log[i].event, log[j].event);
    }
  }

  lemma SessionStays(a: Agents, a': Agents, s: string, log: seq<Entry>)
    requires Forward(a, a') && SessionOk(a, s, log)
    ensures SessionOk(a', s, log)
  {
    forall i | 0 <= i < |log|
      ensures SessionEntryOk(a', s, log[i].event)
    {
      FitsStays(a, a', log[i].event);
    }
    forall i, j | 0 <= i < j < |log|
      ensures SessionOrder(a', log[i].event, log[j].event)
    {
      assert SessionEntryOk(a, s, log[i].event) && SessionEntryOk(a, s, log[j].event)
             && SessionOrder(a, log[i].event, log[j].event);
    }
  }

  /** A step that leaves the logs alone keeps what is known about them. */
  lemma LogsStay(a: Agents, a': Agents)
    requires Inv(a) && Forward(a, a') && StreamsValid(a'.bus)
    requires a'.bus.GlobalLog() == a.bus.GlobalLog() && forall s :: a'.bus.SessionLog(s) == a.bus.SessionLog(s)
    ensures GlobalOk(a', a'.bus.GlobalLog()) && forall s :: SessionOk(a', s, a'.bus.SessionLog(s))
  {
    GlobalStays(a, a', a.bus.GlobalLog());
    forall s
      ensures SessionOk(a', s, a'.bus.SessionLog(s))
    {
      SessionStays(a, a', s, a.bus.SessionLog(s));
    }
  }

  lemma RunsStay(a: Agents, a': Agents)
    requires RunsOk(a) && Forward(a, a') && a'.runs == a.runs
    ensures RunsOk(a')
  {
  }

  // ---- Publish ----

  lemma PublishTenant(a: Agents, a': Agents, t: string, m: Message)
    requires TenantOk(a, t) && m.uid == |a.published| && a'.runs == a.runs
    requires a'.published == a.published + [Published(t, m.payload)]
    requires a'.bus.Queue(t) == [m] + a.bus.Queue(t) && a'.PhaseOf(t) == a.PhaseOf(t)
    ensures TenantOk(a', t) && Mark(a, t) <= Mark(a', t)
  {
    var q, p := a.bus.Queue(t), a.PhaseOf(t);
    QueueStays(a, a', t, q);
    forall x | x in [m] + q
      ensures Known(a', t, x)
    {
    }
    forall x | x in q
      ensures x.uid < m.uid
    {
      assert Known(a, t, x);
    }
    assert q != [] ==> Last([m] + q) == Last(q);
    if p.ToSession? || p.ToGlobal? {
      FitsStays(a, a', Ends(p.o));
    }
  }

  lemma PublishKeeps(a: Agents, t: string, payload: Payload)
    requires Inv(a)
    ensures var a' := Next(a, Publish(t, payload)); Inv(a') && Forward(a, a')
  {
    var a' := Next(a, Publish(t, payload));
    var m := Message(|a.published|, payload);
    PushFrame(a.bus, t, m);
    forall t'
      ensures TenantOk(a', t') && Mark(a, t') <= Mark(a', t')
    {
      assert TenantOk(a, t');
      if t' == t {
        PublishTenant(a, a', t, m);
      } else {
        TenantStays(a, a', t');
      }
    }
    LogsStay(a, a');
    RunsStay(a, a');
  }

  // ---- Pop ----

  lemma PopTenant(a: Agents, a': Agents, t: string)
    requires TenantOk(a, t) && a.PhaseOf(t).Idle? && a.bus.Queue(t) != []
    requires a'.published == a.published && a'.runs == a.runs
    requires var q := a.bus.Queue(t); a'.bus.Queue(t) == q[..|q| - 1] && a'.PhaseOf(t) == OnPop(Last(q))
    ensures TenantOk(a', t) && Mark(a, t) <= Mark(a', t)
  {
    var q := a.bus.Queue(t);
    var m, q' := Last(q), q[..|q| - 1];
    forall x | x in q'
      ensures Known(a', t, x) && x.uid > m.uid
    {
      var i :| 0 <= i < |q'| && q'[i] == x;
      assert q[i] in q && q[i].uid > q[|q| - 1].uid;
    }
    assert Known(a, t, m);
  }

  lemma PopKeeps(a: Agents, t: string)
    requires Inv(a) && Enabled(a, Pop(t))
    ensures var a' := Next(a, Pop(t)); Inv(a') && Forward(a, a')
  {
    var a' := Next(a, Pop(t));
    PopFrame(a.bus, t);
    forall t'
      ensures TenantOk(a', t') && Mark(a, t') <= Mark(a', t')
    {
      assert TenantOk(a, t');
      if t' == t {
        PopTenant(a, a', t);
      } else {
        TenantStays(a, a', t');
      }
    }
    LogsStay(a, a');
    RunsStay(a, a');
  }

  // ---- Steps that change one tenant's phase ----

  /** Setting the phase of one tenant to a later one. */
  lemma PhaseForward(a: Agents, t: string, p: Phase, a': Agents)
    requires TenantsOk(a) && a'.bus.lists == a.bus.lists && Remembers(a, a') && a'.published == a.published
    requires a'.phases == a.phases[t := p]
    requires PhaseOk(a', t, p, a.bus.Queue(t)) && !a.PhaseOf(t).Idle?
    requires p.Idle? || (p.m == a.PhaseOf(t).m && Stage(a.PhaseOf(t)) <= Stage(p))
    ensures Forward(a, a') && TenantsOk(a')
  {
    forall t'
      ensures TenantOk(a', t') && Mark(a, t') <= Mark(a', t')
    {
      assert TenantOk(a, t') && a'.bus.Queue(t') == a.bus.Queue(t');
      if t' == t {
        QueueStays(a, a', t, a.bus.Queue(t));
        PhaseTenant(a, a', t, p);
      } else {
        TenantStays(a, a', t');
      }
    }
  }

  lemma PhaseTenant(a: Agents, a': Agents, t: string, p: Phase)
    requires TenantOk(a, t) && a'.PhaseOf(t) == p && !a.PhaseOf(t).Idle?
    requires a'.bus.Queue(t) == a.bus.Queue(t) && a'.published == a.published
    requires p.Idle? || (p.m == a.PhaseOf(t).m && Stage(a.PhaseOf(t)) <= Stage(p))
    ensures Mark(a, t) <= Mark(a', t)
  {
    var q := a.bus.Queue(t);
    assert q != [] ==> Last(q) in q;
  }

  lemma SayKeeps(a: Agents, x: Action)
    requires Inv(a) && x.Say? && Enabled(a, x)
    ensures var a' := Next(a, x); Inv(a') && Forward(a, a')
  {
    var a', t, m := Next(a, x), x.tenant, a.PhaseOf(x.tenant).m;
    var ev := Progress(m.uid, x.text, x.toolHint);
    assert TenantOk(a, t);
    AddKeepsStreamsValid(a.bus, SessionStreamKey(SessionOf(m.payload)), ev, x.fate, SESSION_MAXLEN);
    forall t'
      ensures TenantOk(a', t') && Mark(a, t') <= Mark(a', t')
    {
      assert TenantOk(a, t') && a'.bus.Queue(t') == a.bus.Queue(t');
      TenantStays(a, a', t');
    }
    if x.fate.Adds? {
      AppendSession(a, a', t, m, ev, x.fate);
    } else {
      LogsStay(a, a');
    }
    RunsStay(a, a');
  }

  /** The event is one the tenant is about to put on its session's stream. */
  predicate Due(a: Agents, t: string, m: Message, ev: Event) {
    && Known(a, t, m) && Fits(a, ev) && ev.Uid() == m.uid
    && Mark(a, t) == if ev.Progress? then Need(ev) else Need(ev) - 1
  }

  /** An event of the tenant's current request goes to its session's stream, at the stage where it belongs. */
  lemma AppendSession(a: Agents, a': Agents, t: string, m: Message, ev: Event, f: Fate)
    requires Inv(a) && Forward(a, a') && f.Adds?
    requires Due(a, t, m, ev) && Need(ev) <= Mark(a', t)
    requires a'.bus == a.bus.XAddTo(SessionStreamKey(SessionOf(m.payload)), ev, f, SESSION_MAXLEN)
    ensures GlobalOk(a', a'.bus.GlobalLog()) && forall s :: SessionOk(a', s, a'.bus.SessionLog(s))
  {
    var session := SessionOf(m.payload);
    SessionAddFrame(a.bus, session, ev, f);
    GlobalStays(a, a', a.bus.GlobalLog());
    forall s
      ensures SessionOk(a', s, a'.bus.SessionLog(s))
    {
      SessionStays(a, a', s, a.bus.SessionLog(s));
      if s == session {
        FitsStays(a, a', ev);
        AppendOrdered(a, a', t, m, s, a.bus.SessionLog(s), NewEntry(a.bus.StreamAt(SessionStreamKey(s)), ev, f.gap));
      }
    }
  }

  lemma AppendOrdered(a: Agents, a': Agents, t: string, m: Message, s: string, log: seq<Entry>, e: Entry)
    requires SessionOk(a, s, log) && SessionOk(a', s, log) && SessionEntryOk(a', s, e.event)
             && a.published <= a'.published
    requires Due(a, t, m, e.event)
    ensures SessionOk(a', s, log + [e])
  {
    forall i | 0 <= i < |log|
      ensures SessionOrder(a', log[i].event, e.event)
    {
      assert SessionEntryOk(a, s, log[i].event);
    }
    var log' := log + [e];
    forall i, j | 0 <= i < j < |log'|
      ensures SessionOrder(a', log'[i].event, log'[j].event)
    {
      if j < |log| {
        assert SessionOrder(a', log[i].event, log[j].event);
      }
    }
  }

  lemma FinishKeeps(a: Agents, t: string, r: RunResult)
    requires Inv(a) && Enabled(a, Finish(t, r))
    ensures var a' := Next(a, Finish(t, r)); Inv(a') && Forward(a, a')
  {
    var a', m := Next(a, Finish(t, r)), a.PhaseOf(t).m;
    assert TenantOk(a, t);
    assert m.uid !in a.runs;
    PhaseForward(a, t, ToSession(m, OutcomeOf(m, r)), a');
    LogsStay(a, a');
  }

  /** The failed call of a done event has a run that returned, so the error event that replaces it still fits. */
  lemma FailureKeeps(a: Agents, t: string, reason: string, a': Agents)
    requires Inv(a) && (a.PhaseOf(t).ToSession? || a.PhaseOf(t).ToGlobal?)
    requires a' == a.(phases := a.phases[t := OnFailure(a.PhaseOf(t).m, a.PhaseOf(t).o, reason)])
    ensures Inv(a') && Forward(a, a')
  {
    var p := a.PhaseOf(t);
    assert TenantOk(a, t);
    PhaseForward(a, t, OnFailure(p.m, p.o, reason), a');
    LogsStay(a, a');
    RunsStay(a, a');
  }

  lemma DueToSession(a: Agents, a': Agents, t: string, p: Phase)
    requires TenantOk(a, t) && p == a.PhaseOf(t) && p.ToSession? && a'.PhaseOf(t) == ToGlobal(p.m, p.o)
    ensures Due(a, t, p.m, Ends(p.o)) && Need(Ends(p.o)) <= Mark(a', t)
    ensures PhaseOk(a, t, ToGlobal(p.m, p.o), a.bus.Queue(t))
  {
  }

  lemma AddedToSession(a: Agents, a': Agents, t: string, p: Phase, f: Fate)
    requires Inv(a) && p == a.PhaseOf(t) && p.ToSession? && f.Adds?
    requires a' == a.(bus := a.bus.XAddTo(SessionStreamKey(SessionOf(p.m.payload)), Ends(p.o), f, SESSION_MAXLEN),
                      phases := a.phases[t := ToGlobal(p.m, p.o)])
    ensures Forward(a, a') && TenantsOk(a') && RunsOk(a')
    ensures GlobalOk(a', a'.bus.GlobalLog()) && forall s :: SessionOk(a', s, a'.bus.SessionLog(s))
  {
    assert TenantOk(a, t);
    assert a'.PhaseOf(t) == ToGlobal(p.m, p.o);
    DueToSession(a, a', t, p);
    PhaseForward(a, t, ToGlobal(p.m, p.o), a');
    AppendSession(a, a', t, p.m, Ends(p.o), f);
    RunsStay(a, a');
  }

  lemma AddSessionKeeps(a: Agents, t: string, f: Fate)
    requires Inv(a) && Enabled(a, AddSession(t, f))
    ensures var a' := Next(a, AddSession(t, f)); Inv(a') && Forward(a, a')
  {
    var a', p := Next(a, AddSession(t, f)), a.PhaseOf(t);
    if f.Fails? {
      FailureKeeps(a, t, f.reason, a');
    } else {
      AddedToSession(a, a', t, p, f);
      AddKeepsStreamsValid(a.bus, SessionStreamKey(SessionOf(p.m.payload)), Ends(p.o), f, SESSION_MAXLEN);
    }
  }

  lemma SessionsStay(a: Agents, a': Agents)
    requires Forward(a, a') && forall s :: SessionOk(a, s, a.bus.SessionLog(s))
    requires forall s :: a'.bus.SessionLog(s) == a.bus.SessionLog(s)
    ensures forall s :: SessionOk(a', s, a'.bus.SessionLog(s))
  {
    forall s
      ensures SessionOk(a', s, a'.bus.SessionLog(s))
    {
      SessionStays(a, a', s, a.bus.SessionLog(s));
    }
  }

  lemma PassedOnFits(a: Agents, a': Agents, t: string, p: Phase, ev: Event)
    requires TenantOk(a, t) && p == a.PhaseOf(t) && p.ToGlobal? && Remembers(a, a') && a'.published == a.published
    requires ev == Ends(p.o.(session := Some(SessionOf(p.m.payload)))) && 8 * p.m.uid + 8 <= Mark(a', t)
    ensures GlobalEntryOk(a', ev) && ev.Uid() == p.m.uid && Known(a, t, p.m)
  {
  }

  lemma AddedToGlobal(a: Agents, a': Agents, t: string, p: Phase, ev: Event, f: Fate)
    requires Inv(a) && p == a.PhaseOf(t) && p.ToGlobal? && f.Adds?
    requires ev == Ends(p.o.(session := Some(SessionOf(p.m.payload))))
    requires a' == a.(bus := a.bus.XAddTo(GLOBAL_STREAM, ev, f, GLOBAL_MAXLEN), phases := a.phases[t := Idle])
    ensures Forward(a, a') && TenantsOk(a') && RunsOk(a')
    ensures GlobalOk(a', a'.bus.GlobalLog()) && forall s :: SessionOk(a', s, a'.bus.SessionLog(s))
  {
    var log := a.bus.GlobalLog();
    assert TenantOk(a, t);
    GlobalAddFrame(a.bus, ev, f);
    PhaseForward(a, t, Idle, a');
    IdlePast(a, a', t);
    PassedOnFits(a, a', t, p, ev);
    GlobalStays(a, a', log);
    AppendGlobal(a, a', t, log, NewEntry(a.bus.StreamAt(GLOBAL_STREAM), ev, f.gap));
    SessionsStay(a, a');
    RunsStay(a, a');
  }

  lemma AddGlobalKeeps(a: Agents, t: string, f: Fate)
    requires Inv(a) && Enabled(a, AddGlobal(t, f))
    ensures var a' := Next(a, AddGlobal(t, f)); Inv(a') && Forward(a, a')
  {
    var a', p := Next(a, AddGlobal(t, f)), a.PhaseOf(t);
    if f.Fails? {
      FailureKeeps(a, t, f.reason, a');
    } else {
      var ev := Ends(p.o.(session := Some(SessionOf(p.m.payload))));
      AddKeepsStreamsValid(a.bus, GLOBAL_STREAM, ev, f, GLOBAL_MAXLEN);
      AddedToGlobal(a, a', t, p, ev, f);
    }
  }

  /** Once idle, the tenant is past the request it was busy with. */
  lemma IdlePast(a: Agents, a': Agents, t: string)
    requires TenantOk(a, t) && !a.PhaseOf(t).Idle? && a'.PhaseOf(t).Idle?
    requires a'.bus.Queue(t) == a.bus.Queue(t) && a'.published == a.published
    ensures 8 * a.PhaseOf(t).m.uid + 8 <= Mark(a', t)
  {
    var q := a.bus.Queue(t);
    assert q != [] ==> Last(q) in q;
  }

  lemma AppendGlobal(a: Agents, a': Agents, t: string, log: seq<Entry>, e: Entry)
    requires GlobalOk(a, log) && GlobalOk(a', log) && GlobalEntryOk(a', e.event) && a'.published == a.published
    requires !a.PhaseOf(t).Idle? && Known(a, t, a.PhaseOf(t).m) && e.event.Uid() == a.PhaseOf(t).m.uid
    ensures GlobalOk(a', log + [e])
  {
    forall i | 0 <= i < |log|
      ensures GlobalOrder(a', log[i].event, e.event)
    {
      assert GlobalEntryOk(a, log[i].event);
    }
    var log' := log + [e];
    forall i, j | 0 <= i < j < |log'|
      ensures GlobalOrder(a', log'[i].event, log'[j].event)
    {
      if j < |log| {
        assert GlobalOrder(a', log[i].event, log[j].event);
      }
    }
  }

  lemma CrashKeeps(a: Agents, t: string)
    requires Inv(a) && Enabled(a, Crash(t))
    ensures var a' := Next(a, Crash(t)); Inv(a') && Forward(a, a')
  {
    var a' := Next(a, Crash(t));
    PhaseForward(a, t, Idle, a');
    LogsStay(a, a');
    RunsStay(a, a');
  }

  /** Every step of every tenant keeps the invariant. */
  lemma StepKeeps(a: Agents, x: Action)
    requires Inv(a) && Enabled(a, x)
    ensures Inv(Next(a, x)) && Forward(a, Next(a, x))
  {
    match x
    case Publish(t, p) => PublishKeeps(a, t, p);
    case Pop(t) => PopKeeps(a, t);
    case Say(_, _, _, _) => SayKeeps(a, x);
    case Finish(t, r) => FinishKeeps(a, t, r);
    case AddSession(t, f) => AddSessionKeeps(a, t, f);
    case AddGlobal(t, f) => AddGlobalKeeps(a, t, f);
    case Crash(t) => CrashKeeps(a, t);
  }

  lemma StartInv()
    ensures Inv(START)
  {
  }

  lemma {:induction false} RunKeeps(a: Agents, trace: seq<Action>)
    requires Inv(a) && Run(a, trace).Some?
    ensures Inv(Run(a, trace).value) && Forward(a, Run(a, trace).value)
    decreases |trace|
  {
    if trace == [] {
    } else {
      RunKeeps(a, trace[..|trace| - 1]);
      StepKeeps(Run(a, trace[..|trace| - 1]).value, Last(trace));
    }
  }
}
