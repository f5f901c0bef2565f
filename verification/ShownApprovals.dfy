/** Agents and ledgers together: the listener of each tenant runs its turns as a task of that tenant's agent process,
    and the approval a done event shows is the one the turn reported. */
module ShownApprovals {
  import opened Prelude
  import opened Naming
  import opened Messages
  import opened Streams
  import opened Redis
  import P = AgentSide
  import L = Approvals
  import R = ApprovalRuns

  const LISTENER: nat := 0

  /** A finished turn with the requests issued in it; history only. */
  datatype Record = Record(turn: L.Turn, requests: map<string, L.Issue>)

  /** `shown` remembers the turn of every answered request. */
  datatype System = System(gated: bool, a: P.Agents, ledgers: map<string, L.Ledger>, shown: map<nat, Record>) {
    function LedgerOf(t: string): L.Ledger {
      if t in ledgers then ledgers[t] else NewProcess(gated)
    }
  }

  /** An agent process that has just started its listener. */
  function NewProcess(gated: bool): L.Ledger {
    L.Next(L.Fresh(gated), L.Spawn(LISTENER, L.Chatter))
  }

  function Start(gated: bool): System {
    System(gated, P.START, map[], map[])
  }

  /** Bus traffic outside the turns; a turn beginning, ending or breaking; any other step of a process, by the listener
      only tool calls; and the end of a process, which takes its ledger with it. */
  datatype Step =
    | Traffic(x: P.Action)
    | TurnBegins(tenant: string)
    | TurnEnds(tenant: string, response: string)
    | TurnBreaks(tenant: string, error: string)
    | Does(tenant: string, y: L.Action)
    | Dies(tenant: string)

  function Popped(a: P.Agents, t: string): Message
    requires P.Enabled(a, P.Pop(t))
  {
    Last(a.bus.Queue(t))
  }

  predicate IsTraffic(a: P.Agents, x: P.Action) {
    && P.Enabled(a, x)
    && (x.Publish? || x.Say? || x.AddSession? || x.AddGlobal?
        || (x.Pop? && !P.Answerable(Popped(a, x.tenant).payload)))
  }

  predicate Enabled(s: System, step: Step) {
    match step
    case Traffic(x) => IsTraffic(s.a, x)
    case TurnBegins(t) =>
      && P.Enabled(s.a, P.Pop(t)) && P.Answerable(Popped(s.a, t).payload)
      && L.Enabled(s.LedgerOf(t), L.Begin(LISTENER, SessionOf(Popped(s.a, t).payload)))
    case TurnEnds(t, _) => s.a.PhaseOf(t).Running? && L.Enabled(s.LedgerOf(t), L.End(LISTENER))
    case TurnBreaks(t, _) => s.a.PhaseOf(t).Running? && L.Enabled(s.LedgerOf(t), L.Leave(LISTENER))
    case Does(t, y) => L.Enabled(s.LedgerOf(t), y) && (y.task == LISTENER ==> y.Execute?)
    case Dies(_) => true
  }

  /** The requests issued in a turn. */
  function RequestsOf(l: L.Ledger, turn: L.Turn): map<string, L.Issue> {
    map id | id in l.issued && l.issued[id].turn == Some(turn) :: l.issued[id]
  }

  /** What the listener's turn returns: the response, and the approval its context holds. */
  function ResultOf(l: L.Ledger, response: string): RunResult
    requires LISTENER in l.tasks
  {
    Returned(response, l.tasks[LISTENER].vars.approval)
  }

  function Next(s: System, step: Step): System
    requires Enabled(s, step)
  {
    match step
    case Traffic(x) => s.(a := P.Next(s.a, x))
    case TurnBegins(t) =>
      s.(a := P.Next(s.a, P.Pop(t)),
         ledgers := s.ledgers[t := L.Next(s.LedgerOf(t), L.Begin(LISTENER, SessionOf(Popped(s.a, t).payload)))])
    case TurnEnds(t, response) =>
      var l := s.LedgerOf(t);
      var turn := l.tasks[LISTENER].phase.turn;
      s.(a := P.Next(s.a, P.Finish(t, ResultOf(l, response))),
         ledgers := s.ledgers[t := L.Next(l, L.End(LISTENER))],
         shown := s.shown[s.a.PhaseOf(t).m.uid := Record(turn, RequestsOf(l, turn))])
    case TurnBreaks(t, error) =>
      s.(a := P.Next(s.a, P.Finish(t, Raised(error))),
         ledgers := s.ledgers[t := L.Next(s.LedgerOf(t), L.Leave(LISTENER))])
    case Does(t, y) => s.(ledgers := s.ledgers[t := L.Next(s.LedgerOf(t), y)])
    case Dies(t) =>
      s.(a := if s.a.PhaseOf(t).Idle? then s.a else P.Next(s.a, P.Crash(t)),
         ledgers := s.ledgers[t := NewProcess(s.gated)])
  }

  function Run(gated: bool, trace: seq<Step>): Option<System> {
    if trace == [] then Some(Start(gated))
    else
      match Run(gated, trace[..|trace| - 1])
      case None => None
      case Some(s) => if Enabled(s, Last(trace)) then Some(Next(s, Last(trace))) else None
  }

  // ---- What every step keeps ----

  /** The listener's task is in the turn its tenant's listener runs. */
  predicate Coupled(p: P.Phase, l: L.Ledger) {
    && L.At(l, LISTENER, L.Chatter)
    && var q := l.tasks[LISTENER].phase;
       if p.Running? then q.Chatting? && q.turn.session == SessionOf(p.m.payload) else q.Free?
  }

  ghost predicate ProcessOk(p: P.Phase, l: L.Ledger) {
    L.Inv(l) && R.TurnsKnown(l) && Coupled(p, l)
  }

  /** The approval of a done result is that of a request of its own turn, if the turn issued any, and every request of
      the turn is recorded under the session of the request unless the call named another. */
  predicate OwnApproval(approval: Option<string>, session: string, rec: Record) {
    && rec.turn.session == session
    && (approval.None? <==> rec.requests == map[])
    && (approval.Some? ==> approval.value in rec.requests)
    && forall id :: id in rec.requests ==>
         && rec.requests[id].turn == Some(rec.turn)
         && rec.requests[id].entry.session ==
            if rec.requests[id].argument.Some? then rec.requests[id].argument.value else session
  }

  predicate RunShown(s: System, u: nat) {
    u in s.a.runs && s.a.runs[u].Returned? ==>
      && u < |s.a.published| && u in s.shown
      && OwnApproval(s.a.runs[u].approval, SessionOf(s.a.published[u].payload), s.shown[u])
  }

  ghost predicate ProcessesOk(s: System) {
    forall t :: ProcessOk(s.a.PhaseOf(t), s.LedgerOf(t))
  }

  ghost predicate AllShown(s: System) {
    forall u: nat :: RunShown(s, u)
  }

  ghost predicate Inv(s: System) {
    P.Inv(s.a) && ProcessesOk(s) && AllShown(s)
  }

  // ---- Processes ----

  lemma NewProcessOk(gated: bool, p: P.Phase)
    requires !p.Running?
    ensures ProcessOk(p, NewProcess(gated))
  {
    L.StepKeeps(L.Fresh(gated), L.Spawn(LISTENER, L.Chatter));
  }

  lemma KnownStep(l: L.Ledger, x: L.Action)
    requires R.TurnsKnown(l) && L.Enabled(l, x)
    ensures R.TurnsKnown(L.Next(l, x))
  {
  }

  lemma ProcessStep(p: P.Phase, l: L.Ledger, y: L.Action, p': P.Phase)
    requires ProcessOk(p, l) && L.Enabled(l, y) && Coupled(p', L.Next(l, y))
    ensures ProcessOk(p', L.Next(l, y))
  {
    L.StepKeeps(l, y);
    KnownStep(l, y);
  }

  /** What the listener's context holds at the end of its turn. */
  lemma ReportAtEnd(l: L.Ledger, turn: L.Turn)
    requires L.Inv(l) && R.TurnsKnown(l) && L.PhaseOf(l, LISTENER) == L.Chatting(turn)
    ensures OwnApproval(l.tasks[LISTENER].vars.approval, turn.session, Record(turn, RequestsOf(l, turn)))
  {
    var v, requests := l.tasks[LISTENER].vars, RequestsOf(l, turn);
    assert L.TaskOk(l, LISTENER);
    assert L.ShownOk(l, turn, v.approval, v.context);
    if v.approval.None? {
      assert requests == map[];
    } else {
      assert v.approval.value in requests;
    }
    forall id | id in requests
      ensures requests[id].entry.session ==
              if requests[id].argument.Some? then requests[id].argument.value else turn.session
    {
      assert L.IssueOk(l.issued[id]);
    }
  }

  // ---- Steps ----

  /** A step of one tenant. */
  lemma OthersStayOk(s: System, s': System, t: string)
    requires ProcessesOk(s) && s'.gated == s.gated && ProcessOk(s'.a.PhaseOf(t), s'.LedgerOf(t))
    requires forall v :: v != t ==> s'.a.PhaseOf(v) == s.a.PhaseOf(v) && s'.LedgerOf(v) == s.LedgerOf(v)
    ensures ProcessesOk(s')
  {
    forall v
      ensures ProcessOk(s'.a.PhaseOf(v), s'.LedgerOf(v))
    {
      assert ProcessOk(s.a.PhaseOf(v), s.LedgerOf(v));
    }
  }

  /** A step that finishes no turn with a result. */
  lemma RunsStayShown(s: System, s': System)
    requires AllShown(s) && P.Remembers(s.a, s'.a) && s'.shown == s.shown
    requires forall u :: u in s'.a.runs && s'.a.runs[u].Returned? ==> u in s.a.runs && s.a.runs[u] == s'.a.runs[u]
    ensures AllShown(s')
  {
    forall u: nat
      ensures RunShown(s', u)
    {
      assert RunShown(s, u);
    }
  }

  /** Bus traffic starts and ends no turn. */
  lemma TrafficKeepsTurns(a: P.Agents, x: P.Action, t: string)
    requires IsTraffic(a, x)
    ensures var a' := P.Next(a, x);
            && a'.runs == a.runs
            && (a'.PhaseOf(t).Running? <==> a.PhaseOf(t).Running?)
            && (a.PhaseOf(t).Running? ==> a'.PhaseOf(t) == a.PhaseOf(t))
            && (t != x.tenant ==> a'.PhaseOf(t) == a.PhaseOf(t))
  {
  }

  lemma TrafficKeeps(s: System, x: P.Action, s': System)
    requires Inv(s) && Enabled(s, Traffic(x)) && s' == Next(s, Traffic(x))
    ensures Inv(s')
  {
    var t := x.tenant;
    P.StepKeeps(s.a, x);
    assert ProcessOk(s.a.PhaseOf(t), s.LedgerOf(t));
    forall v
      ensures v != t ==> s'.a.PhaseOf(v) == s.a.PhaseOf(v)
    {
      TrafficKeepsTurns(s.a, x, v);
    }
    TrafficKeepsTurns(s.a, x, t);
    OthersStayOk(s, s', t);
    RunsStayShown(s, s');
  }

  lemma PopsOnly(a: P.Agents, t: string)
    requires P.Enabled(a, P.Pop(t)) && P.Answerable(Popped(a, t).payload)
    ensures var a' := P.Next(a, P.Pop(t));
            && a'.PhaseOf(t) == P.Running(Popped(a, t)) && a'.runs == a.runs
            && forall v :: v != t ==> a'.PhaseOf(v) == a.PhaseOf(v)
  {
  }

  lemma BeginCouples(l: L.Ledger, m: Message)
    requires L.Enabled(l, L.Begin(LISTENER, SessionOf(m.payload)))
    ensures Coupled(P.Running(m), L.Next(l, L.Begin(LISTENER, SessionOf(m.payload))))
  {
  }

  lemma BeginKeepsProcesses(s: System, t: string, s': System)
    requires ProcessesOk(s) && Enabled(s, TurnBegins(t)) && s' == Next(s, TurnBegins(t))
    ensures ProcessesOk(s')
  {
    var p, l, m := s.a.PhaseOf(t), s.LedgerOf(t), Popped(s.a, t);
    PopsOnly(s.a, t);
    assert ProcessOk(p, l);
    BeginCouples(l, m);
    ProcessStep(p, l, L.Begin(LISTENER, SessionOf(m.payload)), P.Running(m));
    OthersStayOk(s, s', t);
  }

  lemma BeginsKeeps(s: System, t: string, s': System)
    requires Inv(s) && Enabled(s, TurnBegins(t)) && s' == Next(s, TurnBegins(t))
    ensures Inv(s')
  {
    P.StepKeeps(s.a, P.Pop(t));
    PopsOnly(s.a, t);
    BeginKeepsProcesses(s, t, s');
    RunsStayShown(s, s');
  }

  lemma FinishesOnly(a: P.Agents, t: string, r: RunResult)
    requires P.Enabled(a, P.Finish(t, r))
    ensures var a', m := P.Next(a, P.Finish(t, r)), a.PhaseOf(t).m;
            && !a'.PhaseOf(t).Running? && a'.runs == a.runs[m.uid := r]
            && forall v :: v != t ==> a'.PhaseOf(v) == a.PhaseOf(v)
  {
  }

  /** The listener's turn is over, one way or the other. */
  lemma TurnOverKeepsProcesses(s: System, t: string, r: RunResult, y: L.Action, s': System)
    requires Inv(s) && P.Enabled(s.a, P.Finish(t, r)) && (y == L.End(LISTENER) || y == L.Leave(LISTENER))
    requires L.Enabled(s.LedgerOf(t), y) && s'.a == P.Next(s.a, P.Finish(t, r)) && s'.gated == s.gated
    requires s'.ledgers == s.ledgers[t := L.Next(s.LedgerOf(t), y)]
    ensures P.Inv(s'.a) && P.Remembers(s.a, s'.a) && ProcessesOk(s')
  {
    P.StepKeeps(s.a, P.Finish(t, r));
    FinishesOnly(s.a, t, r);
    assert ProcessOk(s.a.PhaseOf(t), s.LedgerOf(t));
    ProcessStep(s.a.PhaseOf(t), s.LedgerOf(t), y, s'.a.PhaseOf(t));
    OthersStayOk(s, s', t);
  }

  /** The result of a turn comes with its record. */
  lemma RunIsShown(s: System, s': System, m: Message, r: RunResult, rec: Record)
    requires AllShown(s) && P.Remembers(s.a, s'.a) && s'.a.runs == s.a.runs[m.uid := r]
             && s'.shown == s.shown[m.uid := rec]
    requires m.uid < |s'.a.published| && s'.a.published[m.uid].payload == m.payload
    requires r.Returned? && OwnApproval(r.approval, SessionOf(m.payload), rec)
    ensures AllShown(s')
  {
    forall u: nat
      ensures RunShown(s', u)
    {
      assert RunShown(s, u);
    }
  }

  /** The record made at the end of a turn. */
  lemma RecordIsOwn(p: P.Phase, l: L.Ledger)
    requires ProcessOk(p, l) && p.Running?
    ensures L.PhaseOf(l, LISTENER).Chatting?
    ensures var turn := l.tasks[LISTENER].phase.turn;
            OwnApproval(l.tasks[LISTENER].vars.approval, SessionOf(p.m.payload), Record(turn, RequestsOf(l, turn)))
  {
    ReportAtEnd(l, l.tasks[LISTENER].phase.turn);
  }

  lemma RunningIsKnown(a: P.Agents, t: string)
    requires P.Inv(a) && a.PhaseOf(t).Running?
    ensures var m := a.PhaseOf(t).m; m.uid < |a.published| && a.published[m.uid].payload == m.payload
  {
    assert P.TenantOk(a, t);
  }

  lemma EndsKeeps(s: System, t: string, response: string, s': System)
    requires Inv(s) && Enabled(s, TurnEnds(t, response)) && s' == Next(s, TurnEnds(t, response))
    ensures Inv(s')
  {
    var l, m := s.LedgerOf(t), s.a.PhaseOf(t).m;
    var turn, r := l.tasks[LISTENER].phase.turn, ResultOf(l, response);
    assert ProcessOk(s.a.PhaseOf(t), l);
    RecordIsOwn(s.a.PhaseOf(t), l);
    RunningIsKnown(s.a, t);
    TurnOverKeepsProcesses(s, t, r, L.End(LISTENER), s');
    FinishesOnly(s.a, t, r);
    RunIsShown(s, s', m, r, Record(turn, RequestsOf(l, turn)));
  }

  lemma BreaksKeeps(s: System, t: string, error: string, s': System)
    requires Inv(s) && Enabled(s, TurnBreaks(t, error)) && s' == Next(s, TurnBreaks(t, error))
    ensures Inv(s')
  {
    assert ProcessOk(s.a.PhaseOf(t), s.LedgerOf(t));
    TurnOverKeepsProcesses(s, t, Raised(error), L.Leave(LISTENER), s');
    FinishesOnly(s.a, t, Raised(error));
    RunsStayShown(s, s');
  }

  /** No other task and no tool call moves the listener's task. */
  lemma DoesStaysCoupled(p: P.Phase, l: L.Ledger, y: L.Action)
    requires Coupled(p, l) && L.Enabled(l, y) && (y.task == LISTENER ==> y.Execute?)
    ensures Coupled(p, L.Next(l, y))
  {
  }

  lemma DoesKeeps(s: System, t: string, y: L.Action, s': System)
    requires Inv(s) && Enabled(s, Does(t, y)) && s' == Next(s, Does(t, y))
    ensures Inv(s')
  {
    assert ProcessOk(s.a.PhaseOf(t), s.LedgerOf(t));
    DoesStaysCoupled(s.a.PhaseOf(t), s.LedgerOf(t), y);
    ProcessStep(s.a.PhaseOf(t), s.LedgerOf(t), y, s.a.PhaseOf(t));
    OthersStayOk(s, s', t);
    RunsStayShown(s, s');
  }

  lemma CrashesOnly(a: P.Agents, t: string)
    requires P.Enabled(a, P.Crash(t))
    ensures var a' := P.Next(a, P.Crash(t));
            a'.PhaseOf(t).Idle? && a'.runs == a.runs && forall v :: v != t ==> a'.PhaseOf(v) == a.PhaseOf(v)
  {
  }

  lemma DiesKeeps(s: System, t: string, s': System)
    requires Inv(s) && Enabled(s, Dies(t)) && s' == Next(s, Dies(t))
    ensures Inv(s')
  {
    if !s.a.PhaseOf(t).Idle? {
      P.StepKeeps(s.a, P.Crash(t));
      CrashesOnly(s.a, t);
    }
    NewProcessOk(s.gated, s'.a.PhaseOf(t));
    OthersStayOk(s, s', t);
    RunsStayShown(s, s');
  }

  lemma StepKeeps(s: System, step: Step)
    requires Inv(s) && Enabled(s, step)
    ensures Inv(Next(s, step))
  {
    var s' := Next(s, step);
    match step
    case Traffic(x) => TrafficKeeps(s, x, s');
    case TurnBegins(t) => BeginsKeeps(s, t, s');
    case TurnEnds(t, response) => EndsKeeps(s, t, response, s');
    case TurnBreaks(t, error) => BreaksKeeps(s, t, error, s');
    case Does(t, y) => DoesKeeps(s, t, y, s');
    case Dies(t) => DiesKeeps(s, t, s');
  }

  lemma ListenerIsReady(p: P.Phase, l: L.Ledger, session: string)
    requires Coupled(p, l)
    ensures if p.Running? then L.Enabled(l, L.End(LISTENER)) && L.Enabled(l, L.Leave(LISTENER))
            else L.Enabled(l, L.Begin(LISTENER, session))
  {
  }

  /** Tying the two machines together holds neither up: a listener can always begin a turn it has a request for... */
  lemma TurnsCanBegin(s: System, t: string)
    requires Inv(s) && P.Enabled(s.a, P.Pop(t)) && P.Answerable(Popped(s.a, t).payload)
    ensures Enabled(s, TurnBegins(t))
  {
    assert ProcessOk(s.a.PhaseOf(t), s.LedgerOf(t));
    ListenerIsReady(s.a.PhaseOf(t), s.LedgerOf(t), SessionOf(Popped(s.a, t).payload));
  }

  /** ...and end or break the one it is in. */
  lemma TurnsCanEnd(s: System, t: string, text: string)
    requires Inv(s) && s.a.PhaseOf(t).Running?
    ensures Enabled(s, TurnEnds(t, text)) && Enabled(s, TurnBreaks(t, text))
  {
    assert ProcessOk(s.a.PhaseOf(t), s.LedgerOf(t));
    ListenerIsReady(s.a.PhaseOf(t), s.LedgerOf(t), text);
  }

  /** While it runs a turn it can call its tools. */
  lemma ToolsCanBeCalled(s: System, t: string, command: string, cwd: string, argument: Option<string>, id: string)
    requires Inv(s) && s.a.PhaseOf(t).Running? && id !in s.LedgerOf(t).issued
    ensures Enabled(s, Does(t, L.Execute(LISTENER, command, cwd, argument, id)))
  {
    assert ProcessOk(s.a.PhaseOf(t), s.LedgerOf(t));
  }

  ghost predicate Reached(gated: bool, trace: seq<Step>, s: System) {
    Run(gated, trace) == Some(s)
  }

  lemma StartKeeps(gated: bool)
    ensures Inv(Start(gated))
  {
    P.StartInv();
    forall t
      ensures ProcessOk(Start(gated).a.PhaseOf(t), Start(gated).LedgerOf(t))
    {
      NewProcessOk(gated, P.Idle);
    }
  }

  lemma {:induction false} ReachedInv(gated: bool, trace: seq<Step>, s: System)
    requires Reached(gated, trace, s)
    ensures Inv(s)
    decreases |trace|
  {
    if trace == [] {
      StartKeeps(gated);
    } else {
      var before := trace[..|trace| - 1];
      var b := Run(gated, before).value;
      ReachedInv(gated, before, b);
      StepKeeps(b, trace[|trace| - 1]);
    }
  }

  // ---- Results are those of the turns ----

  /** The step ends or breaks a turn of the tenant with this result. */
  predicate EndsWith(step: Step, t: string, r: RunResult) {
    match r
    case Returned(response, _) => step.TurnEnds? && step.tenant == t && step.response == response
    case Raised(error) => step.TurnBreaks? && step.tenant == t && step.error == error
  }

  /** A result comes from a finished turn of the request's tenant. */
  predicate RunsLike(a: P.Agents, a': P.Agents, u: nat) {
    u in a'.runs ==> u < |a'.published| && u in a.runs && a.runs[u] == a'.runs[u]
                     && u < |a.published| && a.published[u] == a'.published[u]
  }

  lemma AgentRuns(a: P.Agents, x: P.Action, u: nat)
    requires P.Inv(a) && P.Enabled(a, x) && u in P.Next(a, x).runs
    ensures var a' := P.Next(a, x);
            RunsLike(a, a', u) || (x.Finish? && a'.runs[u] == x.result && u < |a'.published|
                                   && a'.published[u].tenant == x.tenant)
  {
    assert P.TenantOk(a, x.tenant);
  }

  /** What a step is for the agents. */
  function AgentStep(s: System, step: Step): Option<P.Action>
    requires Enabled(s, step)
  {
    match step
    case Traffic(x) => Some(x)
    case TurnBegins(t) => Some(P.Pop(t))
    case TurnEnds(t, response) => Some(P.Finish(t, ResultOf(s.LedgerOf(t), response)))
    case TurnBreaks(t, error) => Some(P.Finish(t, Raised(error)))
    case Does(_, _) => None
    case Dies(t) => if s.a.PhaseOf(t).Idle? then None else Some(P.Crash(t))
  }

  lemma NextIsAgentStep(s: System, step: Step)
    requires Enabled(s, step)
    ensures var x := AgentStep(s, step);
            && (x.Some? ==> P.Enabled(s.a, x.value) && Next(s, step).a == P.Next(s.a, x.value))
            && (x.None? ==> Next(s, step).a == s.a)
            && (x.Some? && x.value.Finish? ==> EndsWith(step, x.value.tenant, x.value.result))
  {
  }

  lemma RunsOnlyEnd(s: System, step: Step, u: nat, a': P.Agents)
    requires P.Inv(s.a) && Enabled(s, step) && a' == Next(s, step).a && u in a'.runs
    ensures RunsLike(s.a, a', u) || (u < |a'.published| && EndsWith(step, a'.published[u].tenant, a'.runs[u]))
  {
    NextIsAgentStep(s, step);
    if AgentStep(s, step).Some? {
      AgentRuns(s.a, AgentStep(s, step).value, u);
    } else {
      assert u < |s.a.published|;
    }
  }

  /** Every outcome recorded for a request, and with it every outcome published, is what a turn of its tenant's listener
      ended with. */
  lemma {:induction false} ResultsAreOfTurns(gated: bool, trace: seq<Step>, s: System, u: nat)
    requires Reached(gated, trace, s) && u in s.a.runs
    ensures u < |s.a.published|
    ensures exists k :: 0 <= k < |trace| && EndsWith(trace[k], s.a.published[u].tenant, s.a.runs[u])
    decreases |trace|
  {
    var n := |trace| - 1;
    var b := Run(gated, trace[..n]).value;
    ReachedInv(gated, trace[..n], b);
    RunsOnlyEnd(b, trace[n], u, s.a);
    if RunsLike(b.a, s.a, u) {
      ResultsAreOfTurns(gated, trace[..n], b, u);
      var k :| 0 <= k < n && EndsWith(trace[..n][k], b.a.published[u].tenant, b.a.runs[u]);
      assert trace[k] == trace[..n][k];
    }
  }

  // ---- What clients are shown ----

  /** What a done event shows of approvals. */
  ghost predicate ShowsOwn(s: System, ev: Event) {
    ev.Ends? && ev.outcome.Done() ==>
      var u := ev.Uid();
      && u < |s.a.published| && u in s.shown
      && OwnApproval(ev.outcome.result.approval, SessionOf(s.a.published[u].payload), s.shown[u])
  }

  lemma FitsShows(s: System, ev: Event)
    requires AllShown(s) && P.Fits(s.a, ev)
    ensures ShowsOwn(s, ev)
  {
    assert ev.Ends? ==> RunShown(s, ev.outcome.uid);
  }

  lemma SessionShows(s: System, session: string, e: Entry)
    requires Inv(s) && e in s.a.bus.SessionLog(session)
    ensures ShowsOwn(s, e.event)
  {
    var log := s.a.bus.SessionLog(session);
    var i :| 0 <= i < |log| && log[i] == e;
    assert P.SessionOk(s.a, session, log) && P.SessionEntryOk(s.a, session, log[i].event);
    FitsShows(s, e.event);
  }

  lemma GlobalShows(s: System, e: Entry)
    requires Inv(s) && e in s.a.bus.GlobalLog()
    ensures ShowsOwn(s, e.event)
  {
    var log := s.a.bus.GlobalLog();
    var i :| 0 <= i < |log| && log[i] == e;
    assert P.GlobalEntryOk(s.a, log[i].event);
    FitsShows(s, e.event);
  }

  /** Every done event on a session's stream, and every one on the global stream, which is what webhooks carry, shows an
      approval if and only if the very turn of its request issued one, and then one of that turn, recorded under the
      request's session. */
  lemma DoneEventsShowTheirOwnApproval(gated: bool, trace: seq<Step>, s: System, session: string, e: Entry)
    requires Reached(gated, trace, s) && (e in s.a.bus.SessionLog(session) || e in s.a.bus.GlobalLog())
    ensures ShowsOwn(s, e.event)
  {
    ReachedInv(gated, trace, s);
    if e in s.a.bus.GlobalLog() {
      GlobalShows(s, e);
    } else {
      SessionShows(s, session, e);
    }
  }
}
