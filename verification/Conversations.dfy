/** What clients see of the agents' runs: subscriptions that read a session's stream while the machine appends to it. */
module Conversations {
  import opened Prelude
  import opened Naming
  import opened Messages
  import opened Streams
  import opened Redis
  import opened AgentSide
  import opened Subscriptions
  import opened Outcomes
  import opened CleanRuns

  // ---- The states of a run show one growing stream ----

  function SessionStream(a: Agents, s: string): Stream {
    a.bus.StreamAt(SessionStreamKey(s))
  }

  lemma AddGrows(b: Bus, key: string, ev: Event, f: Fate, maxlen: nat, k: string)
    ensures Grows(b.StreamAt(k), b.XAddTo(key, ev, f, maxlen).StreamAt(k))
  {
    if f.Adds? {
      AppendGrows(b.StreamAt(key), ev, f.gap, f.cut, maxlen);
    }
  }

  lemma StepGrows(a: Agents, x: Action, s: string)
    requires Enabled(a, x)
    ensures Grows(SessionStream(a, s), SessionStream(Next(a, x), s))
  {
    var k, p := SessionStreamKey(s), a.PhaseOf(x.tenant);
    match x
    case Say(_, text, hint, f) =>
      AddGrows(a.bus, SessionStreamKey(SessionOf(p.m.payload)), Progress(p.m.uid, text, hint), f, SESSION_MAXLEN, k);
    case AddSession(_, f) =>
      AddGrows(a.bus, SessionStreamKey(SessionOf(p.m.payload)), Ends(p.o), f, SESSION_MAXLEN, k);
    case AddGlobal(_, f) =>
      AddGrows(a.bus, GLOBAL_STREAM, Ends(p.o.(session := Some(SessionOf(p.m.payload)))), f, GLOBAL_MAXLEN, k);
    case _ =>
  }

  ghost predicate Runs(trace: seq<Action>) {
    forall k :: 0 <= k <= |trace| ==> Run(START, trace[..k]).Some?
  }

  lemma {:induction false} ReachedRuns(trace: seq<Action>, a: Agents)
    requires Reached(trace, a)
    ensures Runs(trace)
    decreases |trace|
  {
    if trace == [] {
    } else {
      var before := trace[..|trace| - 1];
      ReachedRuns(before, Run(START, before).value);
      forall k | 0 <= k <= |trace|
        ensures Run(START, trace[..k]).Some?
      {
        assert k <= |before| ==> trace[..k] == before[..k];
        assert k == |trace| ==> trace[..k] == trace;
      }
    }
  }

  /** What a read after `k` steps finds. */
  ghost function ViewAt(trace: seq<Action>, s: string, k: nat): Stream
    requires Runs(trace) && k <= |trace|
  {
    SessionStream(Run(START, trace[..k]).value, s)
  }

  lemma {:induction false} ViewsGrow(trace: seq<Action>, s: string, j: nat, k: nat)
    requires Runs(trace) && j <= k <= |trace|
    ensures Grows(ViewAt(trace, s, j), ViewAt(trace, s, k))
    decreases k
  {
    if j == k {
    } else {
      ViewsGrow(trace, s, j, k - 1);
      var b := Run(START, trace[..k - 1]).value;
      assert trace[..k][..k - 1] == trace[..k - 1] && Last(trace[..k]) == trace[k - 1];
      StepGrows(b, trace[k - 1], s);
    }
  }

  lemma ViewIsValid(trace: seq<Action>, s: string, k: nat)
    requires Runs(trace) && k <= |trace|
    ensures ViewAt(trace, s, k).Valid()
  {
    ReachedInv(trace[..k], Run(START, trace[..k]).value);
  }

  // ---- A session's stream holds the newest entries ----

  lemma AddKeeps(b: Bus, key: string, ev: Event, f: Fate, maxlen: nat, k: string)
    requires Keeps(b.StreamAt(k), SESSION_MAXLEN) && (key == k ==> maxlen == SESSION_MAXLEN)
    ensures Keeps(b.XAddTo(key, ev, f, maxlen).StreamAt(k), SESSION_MAXLEN)
  {
    if f.Adds? && key == k {
      AppendKeeps(b.StreamAt(key), ev, f.gap, f.cut, maxlen);
    }
  }

  lemma StepKeepsNewest(a: Agents, x: Action, s: string)
    requires Enabled(a, x) && Keeps(SessionStream(a, s), SESSION_MAXLEN)
    ensures Keeps(SessionStream(Next(a, x), s), SESSION_MAXLEN)
  {
    var k, p := SessionStreamKey(s), a.PhaseOf(x.tenant);
    match x
    case Say(_, text, hint, f) =>
      AddKeeps(a.bus, SessionStreamKey(SessionOf(p.m.payload)), Progress(p.m.uid, text, hint), f, SESSION_MAXLEN, k);
    case AddSession(_, f) =>
      AddKeeps(a.bus, SessionStreamKey(SessionOf(p.m.payload)), Ends(p.o), f, SESSION_MAXLEN, k);
    case AddGlobal(_, f) =>
      QueuesAndStreamsInjective(s, s);
      AddKeeps(a.bus, GLOBAL_STREAM, Ends(p.o.(session := Some(SessionOf(p.m.payload)))), f, GLOBAL_MAXLEN, k);
    case _ =>
  }

  lemma {:induction false} ViewKeepsNewest(trace: seq<Action>, s: string, k: nat)
    requires Runs(trace) && k <= |trace|
    ensures Keeps(ViewAt(trace, s, k), SESSION_MAXLEN)
    decreases k
  {
    if k == 0 {
    } else {
      ViewKeepsNewest(trace, s, k - 1);
      var b := Run(START, trace[..k - 1]).value;
      assert trace[..k][..k - 1] == trace[..k - 1] && Last(trace[..k]) == trace[k - 1];
      StepKeepsNewest(b, trace[k - 1], s);
    }
  }

  // ---- Connections of a client to the machine ----

  /** The points of the run at which a connection's reads look, and how many events reach the client. */
  datatype Connection = Connection(at: seq<nat>, want: nat)

  predicate Looks(trace: seq<Action>, c: Connection) {
    && c.at != []
    && (forall i :: 0 <= i < |c.at| ==> c.at[i] <= |trace|)
    && (forall i, j :: 0 <= i <= j < |c.at| ==> c.at[i] <= c.at[j])
  }

  ghost function Views(trace: seq<Action>, s: string, c: Connection): (views: seq<Stream>)
    requires Runs(trace) && Looks(trace, c)
    ensures |views| == |c.at| && forall i :: 0 <= i < |views| ==> views[i] == ViewAt(trace, s, c.at[i])
  {
    seq(|c.at|, i requires 0 <= i < |c.at| => ViewAt(trace, s, c.at[i]))
  }

  /** Whatever the agents do in between, the reads of a connection see one growing stream. */
  lemma ConnectionsSeeChains(trace: seq<Action>, a: Agents, s: string, c: Connection)
    requires Reached(trace, a) && Runs(trace) && Looks(trace, c)
    ensures Chain(Views(trace, s, c)) && Last(Views(trace, s, c)).Log() <= a.bus.SessionLog(s)
  {
    var views, n := Views(trace, s, c), |trace|;
    forall i | 0 <= i < |views|
      ensures views[i].Valid()
    {
      ViewIsValid(trace, s, c.at[i]);
    }
    forall i, j | 0 <= i <= j < |views|
      ensures Grows(views[i], views[j])
    {
      ViewsGrow(trace, s, c.at[i], c.at[j]);
    }
    ViewsGrow(trace, s, Last(c.at), n);
    assert trace[..n] == trace;
  }

  ghost function AttemptsOf(trace: seq<Action>, s: string, conns: seq<Connection>): seq<Attempt>
    requires Runs(trace) && forall c :: c in conns ==> Looks(trace, c)
  {
    if conns == [] then []
    else [Attempt(Views(trace, s, conns[0]), conns[0].want)] + AttemptsOf(trace, s, conns[1..])
  }

  /** No connection finds anything unread trimmed away. */
  ghost predicate NothingMissed(attempts: seq<Attempt>, cursor: nat) {
    attempts == [] ||
    (var out := Deliver(attempts[0].views, cursor, attempts[0].want);
     Retained(attempts[0].views, cursor) && NothingMissed(attempts[1..], CursorAfter(cursor, out)))
  }

  /** At none of its reads is the client more than 1000 entries behind. */
  ghost predicate KeepsUp(attempts: seq<Attempt>, cursor: nat) {
    attempts == [] ||
    (var out := Deliver(attempts[0].views, cursor, attempts[0].want);
     && ReadsKeepUp(attempts[0].views, cursor, 1000)
     && KeepsUp(attempts[1..], CursorAfter(cursor, out)))
  }

  /** A client of the machine that keeps up misses nothing, however its reads, its reconnecting and the agents' steps
      interleave, and however eagerly Redis trims. */
  lemma {:induction false} KeepingUpMissesNothing(trace: seq<Action>, s: string, conns: seq<Connection>, cursor: nat)
    requires Runs(trace) && forall c :: c in conns ==> Looks(trace, c)
    requires KeepsUp(AttemptsOf(trace, s, conns), cursor)
    ensures NothingMissed(AttemptsOf(trace, s, conns), cursor)
    decreases |conns|
  {
    if conns == [] {
    } else {
      var attempts, rest := AttemptsOf(trace, s, conns), AttemptsOf(trace, s, conns[1..]);
      assert attempts[1..] == rest;
      var views, c := Views(trace, s, conns[0]), conns[0];
      forall i | 0 <= i < |views|
        ensures views[i].Valid() && Keeps(views[i], SESSION_MAXLEN)
      {
        ViewIsValid(trace, s, c.at[i]);
        ViewKeepsNewest(trace, s, c.at[i]);
      }
      KeepingUpRetains(views, cursor, SESSION_MAXLEN);
      KeepingUpMissesNothing(trace, s, conns[1..], CursorAfter(cursor, Deliver(views, cursor, c.want)));
    }
  }

  /** The backlog of a client that does not read is largest when it reads next: keeping up at the reads is keeping up at
      every append in between. */
  lemma BacklogBetweenReads(trace: seq<Action>, s: string, cursor: nat, j: nat, k: nat)
    requires Runs(trace) && j <= k <= |trace| && |After(ViewAt(trace, s, k).Log(), cursor)| <= 1000
    ensures |After(ViewAt(trace, s, j).Log(), cursor)| <= 1000
  {
    ViewsGrow(trace, s, j, k);
    ViewIsValid(trace, s, k);
    BacklogGrows(ViewAt(trace, s, j), ViewAt(trace, s, k), cursor);
  }

  /** Connections to a run of this machine are healthy as long as they miss nothing. */
  lemma {:induction false} ConnectionsAreHealthy(trace: seq<Action>, a: Agents, s: string, conns: seq<Connection>,
                                                 cursor: nat)
    requires Reached(trace, a) && Runs(trace) && forall c :: c in conns ==> Looks(trace, c)
    requires NothingMissed(AttemptsOf(trace, s, conns), cursor)
    ensures Healthy(AttemptsOf(trace, s, conns), cursor, a.bus.SessionLog(s))
    decreases |conns|
  {
    if conns == [] {
    } else {
      var attempts, rest := AttemptsOf(trace, s, conns), AttemptsOf(trace, s, conns[1..]);
      assert attempts[1..] == rest;
      ConnectionsSeeChains(trace, a, s, conns[0]);
      var out := Deliver(attempts[0].views, cursor, attempts[0].want);
      ConnectionsAreHealthy(trace, a, s, conns[1..], CursorAfter(cursor, out));
    }
  }

  // ---- What they deliver ----

  ghost predicate Complete(outs: seq<seq<Entry>>) {
    forall out :: out in outs ==> out != [] && Last(out).event.Ends?
  }

  /** The slice of a connection: one request's progress, then its one final event; the next slice is a later
      request's. */
  predicate SliceOk(outs: seq<seq<Entry>>, k: nat)
    requires k < |outs|
  {
    && OneRequest(outs[k]) && Last(outs[k]).event.Ends?
    && (k + 1 < |outs| && outs[k + 1] != [] ==> outs[k][0].event.Uid() < outs[k + 1][0].event.Uid())
  }

  lemma WholeLog(log: seq<Entry>)
    requires Increasing(log)
    ensures After(log, 0) == log
  {
    PassedIs(log, 0, 0);
  }

  lemma SlicesOfLog(trace: seq<Action>, a: Agents, s: string, outs: seq<seq<Entry>>, k: nat)
    requires Reached(trace, a) && AllClean(trace) && SingleTenant(a, s)
    requires outs <= Turns(a.bus.SessionLog(s)) && Complete(outs) && k < |outs|
    ensures SliceOk(outs, k)
  {
    SessionReadsAsTurns(trace, a, s, k);
    assert outs[k] in outs;
  }

  /** After a clean run, a client of a single-tenant session that stays connected until each final event receives, with
      every connection, the progress of one request closed by its one final event, in the order of the requests. */
  lemma ClientsReadTurns(trace: seq<Action>, a: Agents, s: string, attempts: seq<Attempt>, k: nat)
    requires Reached(trace, a) && AllClean(trace) && SingleTenant(a, s)
    requires Healthy(attempts, 0, a.bus.SessionLog(s)) && Complete(Outs(attempts, 0)) && k < |Outs(attempts, 0)|
    ensures SliceOk(Outs(attempts, 0), k)
  {
    var log := a.bus.SessionLog(s);
    assert trace[..|trace|] == trace;
    ReachedRuns(trace, a);
    ViewIsValid(trace, s, |trace|);
    WholeLog(log);
    CompleteConnectionsAreTurns(attempts, 0, log);
    SlicesOfLog(trace, a, s, Outs(attempts, 0), k);
  }

  /** The same for connections to the machine itself, whose reads look at any points of the run. */
  lemma ClientsOfTheMachineReadTurns(trace: seq<Action>, a: Agents, s: string, conns: seq<Connection>, k: nat)
    requires Reached(trace, a) && AllClean(trace) && SingleTenant(a, s)
    requires Runs(trace) && forall c :: c in conns ==> Looks(trace, c)
    requires NothingMissed(AttemptsOf(trace, s, conns), 0)
    requires Complete(Outs(AttemptsOf(trace, s, conns), 0)) && k < |Outs(AttemptsOf(trace, s, conns), 0)|
    ensures SliceOk(Outs(AttemptsOf(trace, s, conns), 0), k)
  {
    ConnectionsAreHealthy(trace, a, s, conns, 0);
    ClientsReadTurns(trace, a, s, AttemptsOf(trace, s, conns), k);
  }

  /** In particular for clients that keep up, whatever Redis trims. */
  lemma ClientsThatKeepUpReadTurns(trace: seq<Action>, a: Agents, s: string, conns: seq<Connection>, k: nat)
    requires Reached(trace, a) && AllClean(trace) && SingleTenant(a, s)
    requires Runs(trace) && forall c :: c in conns ==> Looks(trace, c)
    requires KeepsUp(AttemptsOf(trace, s, conns), 0)
    requires Complete(Outs(AttemptsOf(trace, s, conns), 0)) && k < |Outs(AttemptsOf(trace, s, conns), 0)|
    ensures SliceOk(Outs(AttemptsOf(trace, s, conns), 0), k)
  {
    KeepingUpMissesNothing(trace, s, conns, 0);
    ClientsOfTheMachineReadTurns(trace, a, s, conns, k);
  }
}
