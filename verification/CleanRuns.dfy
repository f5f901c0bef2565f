/** Runs without crashes and without a failed XADD of an outcome: no request is lost, and a session used by one tenant
    reads as a sequence of complete turns. Progress events may still get lost. */
module CleanRuns {
  import opened Prelude
  import opened Naming
  import opened Messages
  import opened Streams
  import opened Redis
  import opened AgentSide
  import opened Subscriptions
  import opened Outcomes

  predicate Clean(x: Action) {
    !x.Crash? && (x.AddSession? || x.AddGlobal? ==> x.fate.Adds?)
  }

  predicate AllClean(trace: seq<Action>) {
    forall i :: 0 <= i < |trace| ==> Clean(trace[i])
  }

  /** Without faults an error is published only for a turn that raised one. */
  predicate Honest(a: Agents, p: Phase) {
    p.ToSession? || p.ToGlobal? ==> p.o.uid in a.runs && a.runs[p.o.uid] == p.o.result
  }

  ghost predicate AllHonest(a: Agents) {
    forall t :: Honest(a, a.PhaseOf(t))
  }

  lemma HonestStep(a: Agents, x: Action)
    requires Inv(a) && AllHonest(a) && Enabled(a, x) && Clean(x)
    ensures AllHonest(Next(a, x))
  {
    StepKeeps(a, x);
    forall t
      ensures Honest(Next(a, x), Next(a, x).PhaseOf(t))
    {
      assert Honest(a, a.PhaseOf(t));
    }
  }

  predicate Tells(a: Agents, ev: Event) {
    ev.Ends? && ev.outcome.uid in a.runs && a.runs[ev.outcome.uid] == ev.outcome.result
  }

  lemma TellsStays(a: Agents, a': Agents, ev: Event)
    requires Remembers(a, a') && Tells(a, ev)
    ensures Tells(a', ev)
  {
  }

  lemma PassedOnTells(a: Agents, t: string, f: Fate, a': Agents)
    requires Enabled(a, AddGlobal(t, f)) && f.Adds? && a' == Next(a, AddGlobal(t, f))
    requires TenantOk(a, t) && Honest(a, a.PhaseOf(t))
    ensures |a'.bus.GlobalLog()| == |a.bus.GlobalLog()| + 1 && Tells(a', Last(a'.bus.GlobalLog()).event)
  {
    var p := a.PhaseOf(t);
    var ev := Ends(p.o.(session := Some(SessionOf(p.m.payload))));
    GlobalAddFrame(a.bus, ev, f);
    assert Tells(a', ev);
    assert a'.bus.GlobalLog() == a.bus.GlobalLog() + [NewEntry(a.bus.StreamAt(GLOBAL_STREAM), ev, f.gap)];
  }

  ghost predicate TellsAll(a: Agents, log: seq<Entry>) {
    forall i :: 0 <= i < |log| ==> Tells(a, log[i].event)
  }

  lemma TellsMore(a: Agents, a': Agents, log: seq<Entry>, log': seq<Entry>)
    requires Remembers(a, a') && TellsAll(a, log) && log <= log'
    requires log' != log ==> |log'| == |log| + 1 && Tells(a', Last(log').event)
    ensures TellsAll(a', log')
  {
    forall i | 0 <= i < |log'|
      ensures Tells(a', log'[i].event)
    {
      if i < |log| {
        TellsStays(a, a', log[i].event);
      }
    }
  }

  lemma TrueLogStep(a: Agents, x: Action, a': Agents)
    requires Inv(a) && AllHonest(a) && TellsAll(a, a.bus.GlobalLog()) && Enabled(a, x) && Clean(x) && a' == Next(a, x)
    ensures TellsAll(a', a'.bus.GlobalLog())
  {
    StepKeeps(a, x);
    LogsGrow(a, x);
    assert Honest(a, a.PhaseOf(x.tenant)) && TenantOk(a, x.tenant);
    if x.AddGlobal? {
      PassedOnTells(a, x.tenant, x.fate, a');
    }
    TellsMore(a, a', a.bus.GlobalLog(), a'.bus.GlobalLog());
  }

  // ---- Conservation: every published request has exactly one place ----

  predicate Queued(a: Agents, u: nat)
    requires u < |a.published|
  {
    Message(u, a.published[u].payload) in a.bus.Queue(a.published[u].tenant)
  }

  predicate InFlight(a: Agents, u: nat)
    requires u < |a.published|
  {
    var p := a.PhaseOf(a.published[u].tenant);
    !p.Idle? && p.m.uid == u
  }

  /** The listener drops a request whose message is missing or empty. */
  predicate Dropped(a: Agents, u: nat)
    requires u < |a.published|
  {
    !Given(a.published[u].payload, "message") && !Queued(a, u)
  }

  ghost predicate Reported(a: Agents, u: nat) {
    exists i :: 0 <= i < |a.bus.GlobalLog()| && a.bus.GlobalLog()[i].event.Uid() == u
  }

  ghost predicate Placed(a: Agents, u: nat)
    requires u < |a.published|
  {
    Queued(a, u) || InFlight(a, u) || Dropped(a, u) || Reported(a, u)
  }

  ghost predicate AllPlaced(a: Agents) {
    forall u :: 0 <= u < |a.published| ==> Placed(a, u)
  }

  lemma ReportedStays(a: Agents, a': Agents, u: nat)
    requires Reported(a, u) && a.bus.GlobalLog() <= a'.bus.GlobalLog()
    ensures Reported(a', u)
  {
    var i :| 0 <= i < |a.bus.GlobalLog()| && a.bus.GlobalLog()[i].event.Uid() == u;
    assert a'.bus.GlobalLog()[i] == a.bus.GlobalLog()[i];
  }

  lemma PublishPlaces(a: Agents, x: Action, u: nat)
    requires x.Publish? && u < |Next(a, x).published| && (u < |a.published| ==> Placed(a, u))
    requires TenantOk(a, x.tenant)
    ensures Placed(Next(a, x), u)
  {
    var a' := Next(a, x);
    PushFrame(a.bus, x.tenant, Message(|a.published|, x.payload));
    if u < |a.published| {
      assert a'.published[u] == a.published[u];
      if Reported(a, u) {
        ReportedStays(a, a', u);
      }
    }
  }

  lemma PopPlaces(a: Agents, x: Action, u: nat)
    requires x.Pop? && Enabled(a, x) && u < |a.published| && Placed(a, u) && TenantOk(a, x.tenant)
    ensures Placed(Next(a, x), u)
  {
    var a', t := Next(a, x), x.tenant;
    var q, m := a.bus.Queue(t), Message(u, a.published[u].payload);
    PopFrame(a.bus, t);
    if Reported(a, u) {
      ReportedStays(a, a', u);
    } else if Queued(a, u) && a.published[u].tenant == t {
      var i :| 0 <= i < |q| && q[i] == m;
      if i < |q| - 1 {
        assert q[..|q| - 1][i] == m;
      } else {
        PoppedIsGone(a, t, u);
      }
    } else if Dropped(a, u) && a.published[u].tenant == t {
      assert forall i :: 0 <= i < |q| - 1 ==> q[..|q| - 1][i] == q[i];
    }
  }

  lemma PoppedIsGone(a: Agents, t: string, u: nat)
    requires TenantOk(a, t) && a.bus.Queue(t) != [] && Last(a.bus.Queue(t)).uid == u
    ensures forall m :: m in a.bus.Queue(t)[..|a.bus.Queue(t)| - 1] ==> m.uid != u
  {
    var q := a.bus.Queue(t);
    forall m | m in q[..|q| - 1]
      ensures m.uid != u
    {
      var i :| 0 <= i < |q| - 1 && q[i] == m;
      assert q[i].uid > q[|q| - 1].uid;
    }
  }

  /** The steps between pop and the last XADD. */
  lemma TurnPlaces(a: Agents, x: Action, u: nat)
    requires (x.Say? || x.Finish? || x.AddSession?) && Clean(x) && Enabled(a, x) && u < |a.published| && Placed(a, u)
    ensures Placed(Next(a, x), u)
  {
    var a', t := Next(a, x), a.published[u].tenant;
    LogsGrow(a, x);
    assert a'.bus.Queue(t) == a.bus.Queue(t);
    if Reported(a, u) {
      ReportedStays(a, a', u);
    }
  }

  lemma AddGlobalPlaces(a: Agents, x: Action, u: nat)
    requires x.AddGlobal? && Clean(x) && Enabled(a, x) && u < |a.published| && Placed(a, u) && TenantOk(a, x.tenant)
    ensures Placed(Next(a, x), u)
  {
    var a', t, p := Next(a, x), a.published[u].tenant, a.PhaseOf(x.tenant);
    LogsGrow(a, x);
    assert a'.bus.Queue(t) == a.bus.Queue(t);
    if Reported(a, u) {
      ReportedStays(a, a', u);
    } else if InFlight(a, u) && t == x.tenant {
      GlobalAddFrame(a.bus, Ends(p.o.(session := Some(SessionOf(p.m.payload)))), x.fate);
      assert a'.bus.GlobalLog()[|a.bus.GlobalLog()|].event.Uid() == u;
    }
  }

  lemma PlacedStep(a: Agents, x: Action)
    requires Inv(a) && AllPlaced(a) && Enabled(a, x) && Clean(x)
    ensures AllPlaced(Next(a, x))
  {
    assert TenantOk(a, x.tenant);
    forall u | 0 <= u < |Next(a, x).published|
      ensures Placed(Next(a, x), u)
    {
      match x
      case Publish(_, _) => PublishPlaces(a, x, u);
      case Pop(_) => PopPlaces(a, x, u);
      case AddGlobal(_, _) => AddGlobalPlaces(a, x, u);
      case _ => TurnPlaces(a, x, u);
    }
  }

  lemma {:induction false} CleanRunKeeps(trace: seq<Action>, a: Agents)
    requires Reached(trace, a) && AllClean(trace)
    ensures AllHonest(a) && TellsAll(a, a.bus.GlobalLog()) && AllPlaced(a)
    decreases |trace|
  {
    if trace == [] {
    } else {
      var before := trace[..|trace| - 1];
      var b := Run(START, before).value;
      CleanRunKeeps(before, b);
      ReachedInv(before, b);
      HonestStep(b, Last(trace));
      TrueLogStep(b, Last(trace), a);
      PlacedStep(b, Last(trace));
    }
  }

  /** In a clean run the global stream reports how each turn really ended. */
  lemma CleanOutcomesAreTrue(trace: seq<Action>, a: Agents, i: nat)
    requires Reached(trace, a) && AllClean(trace) && i < |a.bus.GlobalLog()|
    ensures var e := a.bus.GlobalLog()[i].event;
            e.Ends? && e.outcome.uid in a.runs && e.outcome.result == a.runs[e.outcome.uid]
  {
    CleanRunKeeps(trace, a);
    assert Tells(a, a.bus.GlobalLog()[i].event);
  }

  /** After a clean run no request is lost: each is waiting, being worked on, was dropped for its empty message, or has
      its outcome on the global stream. */
  lemma NoRequestIsLost(trace: seq<Action>, a: Agents, u: nat)
    requires Reached(trace, a) && AllClean(trace) && u < |a.published|
    ensures Queued(a, u) || InFlight(a, u) || Dropped(a, u) || Reported(a, u)
  {
    CleanRunKeeps(trace, a);
    assert Placed(a, u);
  }

  /** And after any run at all a request is in at most one of these places. */
  lemma OnePlaceOnly(trace: seq<Action>, a: Agents, u: nat)
    requires Reached(trace, a) && u < |a.published|
    ensures Queued(a, u) ==> !InFlight(a, u) && !Dropped(a, u) && !Reported(a, u)
    ensures InFlight(a, u) ==> !Dropped(a, u) && !Reported(a, u)
    ensures Dropped(a, u) ==> !Reported(a, u)
  {
    ReachedInv(trace, a);
    var t := a.published[u].tenant;
    assert TenantOk(a, t);
    if Reported(a, u) {
      var i :| 0 <= i < |a.bus.GlobalLog()| && a.bus.GlobalLog()[i].event.Uid() == u;
      assert GlobalEntryOk(a, a.bus.GlobalLog()[i].event);
      QueuedIsAhead(a, t, u);
    }
  }

  lemma QueuedIsAhead(a: Agents, t: string, u: nat)
    requires TenantOk(a, t) && u < |a.published| && a.published[u].tenant == t && 8 * u + 8 <= Mark(a, t)
    ensures !Queued(a, u) && !InFlight(a, u)
  {
    var q := a.bus.Queue(t);
    forall m | m in q
      ensures m.uid >= Last(q).uid
    {
      var i :| 0 <= i < |q| && q[i] == m;
      assert i < |q| - 1 ==> q[i].uid > q[|q| - 1].uid;
    }
  }

  // ---- Turns ----

  /** Requests for the session come from one tenant only. */
  predicate ForSession(a: Agents, u: int, s: string) {
    0 <= u < |a.published| && SessionOf(a.published[u].payload) == s
  }

  ghost predicate SingleTenant(a: Agents, s: string) {
    forall u, v :: ForSession(a, u, s) && ForSession(a, v, s) ==> a.published[u].tenant == a.published[v].tenant
  }

  /** A final event is followed by an event of a later request, a progress event by one of the same request. */
  ghost predicate TurnShape(log: seq<Entry>) {
    forall i, j :: 0 <= i < j < |log| && j == i + 1 ==> Follows(log[i].event, log[j].event)
  }

  lemma ShapeOfRest(log: seq<Entry>, n: nat)
    requires TurnShape(log) && n <= |log|
    ensures TurnShape(log[n..])
  {
    forall i, j | 0 <= i < j < |log[n..]| && j == i + 1
      ensures Follows(log[n..][i].event, log[n..][j].event)
    {
      assert Follows(log[n + i].event, log[n + j].event);
    }
  }

  lemma ShapeOfMore(log: seq<Entry>, e: Entry)
    requires TurnShape(log) && (log != [] ==> Follows(Last(log).event, e.event))
    ensures TurnShape(log + [e])
  {
    var more := log + [e];
    forall i, j | 0 <= i < j < |more| && j == i + 1
      ensures Follows(more[i].event, more[j].event)
    {
      if j < |log| {
        assert Follows(log[i].event, log[j].event);
      }
    }
  }

  predicate Follows(e: Event, e': Event) {
    if e.Ends? then e.Uid() < e'.Uid() else e.Uid() == e'.Uid()
  }

  /** An unfinished turn at the end of the stream is the one its tenant is running. */
  predicate OpenTurn(a: Agents, log: seq<Entry>) {
    log != [] && Last(log).event.Progress? ==>
      && Last(log).event.Uid() < |a.published|
      && var p := a.PhaseOf(a.published[Last(log).event.Uid()].tenant);
         (p.Running? || p.ToSession?) && p.m.uid == Last(log).event.Uid()
  }

  ghost predicate Shaped(a: Agents, s: string) {
    SingleTenant(a, s) ==> TurnShape(a.bus.SessionLog(s)) && OpenTurn(a, a.bus.SessionLog(s))
  }

  /** The event due next follows the last one on the stream. */
  lemma DueFollows(a: Agents, t: string, m: Message, ev: Event, s: string, log: seq<Entry>)
    requires TenantOk(a, t) && !a.PhaseOf(t).Idle? && a.PhaseOf(t).m == m && Due(a, t, m, ev)
             && SessionOf(m.payload) == s
    requires ev.Ends? && !ev.outcome.Done() ==> m.uid in a.runs && a.runs[m.uid].Raised?
    requires SessionOk(a, s, log) && SingleTenant(a, s) && OpenTurn(a, log) && log != []
    ensures Follows(Last(log).event, ev)
  {
    var e := Last(log).event;
    assert SessionEntryOk(a, s, e);
    assert ForSession(a, e.Uid(), s) && ForSession(a, m.uid, s);
  }

  lemma ShapeStep(a: Agents, x: Action, s: string)
    requires Inv(a) && AllHonest(a) && Shaped(a, s) && Enabled(a, x) && Clean(x)
    ensures Shaped(Next(a, x), s)
  {
    var a' := Next(a, x);
    StepKeeps(a, x);
    if SingleTenant(a', s) {
      SingleBefore(a, a', s);
      if (x.Say? || x.AddSession?) && x.fate.Adds? && SessionOf(a.PhaseOf(x.tenant).m.payload) == s {
        ShapeAppend(a, x, s, a');
      } else {
        LogUntouched(a, x, s);
        OpenStays(a, x, s, a');
      }
    }
  }

  lemma SingleBefore(a: Agents, a': Agents, s: string)
    requires SingleTenant(a', s) && a.published <= a'.published
    ensures SingleTenant(a, s)
  {
    forall u, v | ForSession(a, u, s) && ForSession(a, v, s)
      ensures a.published[u].tenant == a.published[v].tenant
    {
      assert ForSession(a', u, s) && ForSession(a', v, s);
    }
  }

  lemma LogUntouched(a: Agents, x: Action, s: string)
    requires Enabled(a, x)
    requires !((x.Say? || x.AddSession?) && x.fate.Adds? && SessionOf(a.PhaseOf(x.tenant).m.payload) == s)
    ensures Next(a, x).bus.SessionLog(s) == a.bus.SessionLog(s)
  {
    LogsGrow(a, x);
    if x.Say? && x.fate.Adds? {
      var m := a.PhaseOf(x.tenant).m;
      OtherSession(a.bus, SessionOf(m.payload), Progress(m.uid, x.text, x.toolHint), x.fate, s);
    } else if x.AddSession? && x.fate.Adds? {
      OtherSession(a.bus, SessionOf(a.PhaseOf(x.tenant).m.payload), Ends(a.PhaseOf(x.tenant).o), x.fate, s);
    }
  }

  predicate InTurn(p: Phase, u: nat) {
    (p.Running? || p.ToSession?) && p.m.uid == u
  }

  /** No clean step but the XADD of its outcome takes a tenant out of its turn. */
  lemma TurnStays(a: Agents, x: Action, t: string, u: nat)
    requires Enabled(a, x) && Clean(x) && InTurn(a.PhaseOf(t), u) && !(x.AddSession? && x.tenant == t)
    ensures InTurn(Next(a, x).PhaseOf(t), u)
  {
  }

  /** Nor does it close the turn on the session's stream. */
  lemma OpenStays(a: Agents, x: Action, s: string, a': Agents)
    requires Inv(a) && Enabled(a, x) && Clean(x) && a' == Next(a, x) && a.published <= a'.published
    requires OpenTurn(a, a.bus.SessionLog(s)) && a'.bus.SessionLog(s) == a.bus.SessionLog(s)
    requires !(x.AddSession? && SessionOf(a.PhaseOf(x.tenant).m.payload) == s)
    ensures OpenTurn(a', a'.bus.SessionLog(s))
  {
    var log := a.bus.SessionLog(s);
    if log != [] && Last(log).event.Progress? {
      var u := Last(log).event.Uid();
      assert SessionOk(a, s, log) && SessionEntryOk(a, s, Last(log).event);
      var t := a.published[u].tenant;
      assert TenantOk(a, t) && InTurn(a.PhaseOf(t), u);
      TurnStays(a, x, t, u);
      assert a'.published[u] == a.published[u];
    }
  }

  /** The event a step puts on the session's stream. */
  function AddedEvent(a: Agents, x: Action): Event
    requires Enabled(a, x) && (x.Say? || x.AddSession?)
  {
    var p := a.PhaseOf(x.tenant);
    if x.Say? then Progress(p.m.uid, x.text, x.toolHint) else Ends(p.o)
  }

  lemma AppendedLog(a: Agents, x: Action, s: string, a': Agents)
    requires Enabled(a, x) && a' == Next(a, x) && (x.Say? || x.AddSession?) && x.fate.Adds?
    requires SessionOf(a.PhaseOf(x.tenant).m.payload) == s
    ensures a'.bus.SessionLog(s) ==
            a.bus.SessionLog(s) + [NewEntry(a.bus.StreamAt(SessionStreamKey(s)), AddedEvent(a, x), x.fate.gap)]
  {
    SessionAddFrame(a.bus, s, AddedEvent(a, x), x.fate);
  }

  lemma ShapeAppend(a: Agents, x: Action, s: string, a': Agents)
    requires Inv(a) && AllHonest(a) && Enabled(a, x) && a' == Next(a, x) && (x.Say? || x.AddSession?) && x.fate.Adds?
    requires SessionOf(a.PhaseOf(x.tenant).m.payload) == s && SingleTenant(a, s) && Shaped(a, s)
    ensures TurnShape(a'.bus.SessionLog(s)) && OpenTurn(a', a'.bus.SessionLog(s))
  {
    var t, m, log, ev := x.tenant, a.PhaseOf(x.tenant).m, a.bus.SessionLog(s), AddedEvent(a, x);
    var e := NewEntry(a.bus.StreamAt(SessionStreamKey(s)), ev, x.fate.gap);
    assert TenantOk(a, t) && Honest(a, a.PhaseOf(t)) && SessionOk(a, s, log);
    AppendedLog(a, x, s, a');
    DueNow(a, x, ev);
    if log != [] {
      DueFollows(a, t, m, ev, s, log);
    }
    ShapeOfMore(log, e);
    OpenAfterAppend(a, x, a', log, e);
  }

  lemma OpenAfterAppend(a: Agents, x: Action, a': Agents, log: seq<Entry>, e: Entry)
    requires Enabled(a, x) && a' == Next(a, x) && (x.Say? || e.event.Ends?) && TenantOk(a, x.tenant)
    requires x.Say? ==> e.event.Uid() == a.PhaseOf(x.tenant).m.uid
    ensures OpenTurn(a', log + [e])
  {
    assert Last(log + [e]) == e;
  }

  lemma DueNow(a: Agents, x: Action, ev: Event)
    requires TenantOk(a, x.tenant) && Honest(a, a.PhaseOf(x.tenant)) && Enabled(a, x) && (x.Say? || x.AddSession?)
    requires ev == AddedEvent(a, x)
    ensures Due(a, x.tenant, a.PhaseOf(x.tenant).m, ev)
    ensures ev.Ends? && !ev.outcome.Done() ==> ev.Uid() in a.runs && a.runs[ev.Uid()].Raised?
  {
  }

  lemma {:induction false} ShapeAlways(trace: seq<Action>, a: Agents, s: string)
    requires Reached(trace, a) && AllClean(trace)
    ensures Shaped(a, s)
    decreases |trace|
  {
    if trace == [] {
    } else {
      var before := trace[..|trace| - 1];
      var b := Run(START, before).value;
      ShapeAlways(before, b, s);
      ReachedInv(before, b);
      CleanRunKeeps(before, b);
      ShapeStep(b, Last(trace), s);
    }
  }

  // ---- Cutting a shaped log into turns ----

  /** Progress of one request and then, if the turn is complete, its outcome. */
  predicate OneRequest(turn: seq<Entry>) {
    && turn != []
    && (forall i :: 0 <= i < |turn| ==> turn[i].event.Uid() == turn[0].event.Uid())
    && (forall i :: 0 <= i < |turn| - 1 ==> turn[i].event.Progress?)
  }

  lemma FirstTurnIsOneRequest(log: seq<Entry>)
    requires TurnShape(log) && log != []
    ensures OneRequest(Turn(log))
    ensures var n := |Turn(log)|; n < |log| ==> Last(Turn(log)).event.Ends?
  {
    if !log[0].event.Ends? && |log| > 1 {
      var rest := log[1..];
      ShapeOfRest(log, 1);
      FirstTurnIsOneRequest(rest);
      assert Follows(log[0].event, log[1].event);
      var t := Turn(rest);
      assert Turn(log) == [log[0]] + t;
      assert t[0] == rest[0];
    }
  }

  lemma {:induction false} ShapedTurns(log: seq<Entry>, k: nat)
    requires TurnShape(log) && k < |Turns(log)|
    ensures var turns := Turns(log);
            && OneRequest(turns[k])
            && (k + 1 < |turns| ==>
                  && Last(turns[k]).event.Ends? && turns[k + 1] != []
                  && turns[k][0].event.Uid() < turns[k + 1][0].event.Uid())
    decreases |log|
  {
    FirstTurnIsOneRequest(log);
    var n := |Turn(log)|;
    var rest := log[n..];
    ShapeOfRest(log, n);
    if k > 0 {
      ShapedTurns(rest, k - 1);
    } else if rest != [] {
      assert Follows(log[n - 1].event, log[n].event) && Last(Turn(log)) == log[n - 1];
      assert Turns(rest)[0] == Turn(rest) && Turn(rest)[0] == rest[0];
    }
  }

  /** After a clean run a single-tenant session's stream is a sequence of turns in the order of the requests, each the
      progress of one request closed by its outcome; only the last may still be open. */
  lemma SessionReadsAsTurns(trace: seq<Action>, a: Agents, s: string, k: nat)
    requires Reached(trace, a) && AllClean(trace) && SingleTenant(a, s) && k < |Turns(a.bus.SessionLog(s))|
    ensures var turns := Turns(a.bus.SessionLog(s));
            && Join(turns) == a.bus.SessionLog(s)
            && OneRequest(turns[k])
            && (k + 1 < |turns| ==>
                  && Last(turns[k]).event.Ends? && turns[k + 1] != []
                  && turns[k][0].event.Uid() < turns[k + 1][0].event.Uid())
  {
    ShapeAlways(trace, a, s);
    TurnsJoinToStream(a.bus.SessionLog(s));
    ShapedTurns(a.bus.SessionLog(s), k);
  }
}
