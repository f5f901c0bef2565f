/** The whole message pipeline: agents and dispatcher workers as one machine whose steps interleave freely, and what
    follows end to end for requests, webhooks and acknowledgements. */
module Pipeline {
  import opened Prelude
  import opened Naming
  import opened Messages
  import opened Streams
  import opened Redis
  import P = AgentSide
  import D = Dispatch

  datatype State = State(a: P.Agents, d: D.Group)

  datatype Step = Agent(x: P.Action) | Worker(y: D.Action)

  function GlobalStream(s: State): Stream {
    s.a.bus.StreamAt(GLOBAL_STREAM)
  }

  predicate Enabled(s: State, step: Step) {
    match step
    case Agent(x) => P.Enabled(s.a, x)
    case Worker(y) => D.Enabled(GlobalStream(s), s.d, y)
  }

  function Next(s: State, step: Step): State
    requires Enabled(s, step)
  {
    match step
    case Agent(x) => s.(a := P.Next(s.a, x))
    case Worker(y) => s.(d := D.Next(GlobalStream(s), s.d, y))
  }

  function Start(maxRetries: nat): State {
    State(P.START, D.Fresh(maxRetries))
  }

  function Run(s: State, trace: seq<Step>): Option<State> {
    if trace == [] then Some(s)
    else
      match Run(s, trace[..|trace| - 1])
      case None => None
      case Some(r) => if Enabled(r, Last(trace)) then Some(Next(r, Last(trace))) else None
  }

  ghost predicate Inv(s: State) {
    P.Inv(s.a) && D.Inv(GlobalStream(s), s.d)
  }

  /** An agent's step leaves the global stream alone or appends one entry to it. */
  lemma AgentStepOnStream(a: P.Agents, x: P.Action)
    requires P.Enabled(a, x)
    ensures var g, g' := a.bus.StreamAt(GLOBAL_STREAM), P.Next(a, x).bus.StreamAt(GLOBAL_STREAM);
            || g' == g
            || (x.AddGlobal? && x.fate.Adds?
                && exists ev :: g' == Append(g, ev, x.fate.gap, x.fate.cut, GLOBAL_MAXLEN))
  {
    var p := a.PhaseOf(x.tenant);
    match x
    case Say(_, text, hint, f) =>
      QueuesAndStreamsInjective(SessionOf(p.m.payload), "");
    case AddSession(_, f) =>
      QueuesAndStreamsInjective(SessionOf(p.m.payload), "");
    case AddGlobal(_, f) =>
      if f.Adds? {
        var ev := Ends(p.o.(session := Some(SessionOf(p.m.payload))));
        assert P.Next(a, x).bus.StreamAt(GLOBAL_STREAM) ==
               Append(a.bus.StreamAt(GLOBAL_STREAM), ev, f.gap, f.cut, GLOBAL_MAXLEN);
      }
    case _ =>
  }

  lemma AppendKeepsGroup(g: Stream, d: D.Group, ev: Event, gap: nat, cut: nat)
    requires D.Inv(g, d)
    ensures D.Inv(Append(g, ev, gap, cut, GLOBAL_MAXLEN), d)
  {
    AppendLog(g, ev, gap, cut, GLOBAL_MAXLEN);
    AppendGrows(g, ev, gap, cut, GLOBAL_MAXLEN);
    D.GrowthKeeps(g, d, Append(g, ev, gap, cut, GLOBAL_MAXLEN));
  }

  lemma AgentKeepsGroup(a: P.Agents, d: D.Group, x: P.Action, g: Stream, g': Stream)
    requires P.Enabled(a, x) && D.Inv(g, d)
    requires g == a.bus.StreamAt(GLOBAL_STREAM) && g' == P.Next(a, x).bus.StreamAt(GLOBAL_STREAM)
    ensures D.Inv(g', d)
  {
    AgentStepOnStream(a, x);
    if g' != g {
      var ev :| g' == Append(g, ev, x.fate.gap, x.fate.cut, GLOBAL_MAXLEN);
      AppendKeepsGroup(g, d, ev, x.fate.gap, x.fate.cut);
    }
  }

  lemma AgentKeeps(s: State, x: P.Action)
    requires Inv(s) && P.Enabled(s.a, x)
    ensures Inv(Next(s, Agent(x)))
  {
    P.StepKeeps(s.a, x);
    AgentKeepsGroup(s.a, s.d, x, GlobalStream(s), GlobalStream(Next(s, Agent(x))));
  }

  lemma StepKeeps(s: State, step: Step)
    requires Inv(s) && Enabled(s, step)
    ensures Inv(Next(s, step))
  {
    match step
    case Agent(x) => AgentKeeps(s, x);
    case Worker(y) => D.StepKeeps(GlobalStream(s), s.d, y);
  }

  lemma {:induction false} RunInv(maxRetries: nat, trace: seq<Step>)
    requires Run(Start(maxRetries), trace).Some?
    ensures Inv(Run(Start(maxRetries), trace).value)
    decreases |trace|
  {
    if trace == [] {
      P.StartInv();
      D.FreshInv(GlobalStream(Start(maxRetries)), maxRetries);
    } else {
      RunInv(maxRetries, trace[..|trace| - 1]);
      StepKeeps(Run(Start(maxRetries), trace[..|trace| - 1]).value, Last(trace));
    }
  }

  /** `s` can be reached by some interleaving of steps. */
  ghost predicate Reached(maxRetries: nat, trace: seq<Step>, s: State) {
    Run(Start(maxRetries), trace) == Some(s)
  }

  // ---- Webhooks tell the truth ----

  /** Every POST goes to the callback of a request really published, under that request's session, and reports the
      outcome its turn had; the same outcome is on the global stream. */
  lemma WebhooksAreTruthful(maxRetries: nat, trace: seq<Step>, s: State, post: D.Post)
    requires Reached(maxRetries, trace, s) && post in s.d.posts
    ensures post.entry in s.a.bus.GlobalLog() && post.entry.event.Ends?
    ensures var o := post.entry.event.outcome;
            && o.uid < |s.a.published| && o.uid in s.a.runs
            && CallbackOf(s.a.published[o.uid].payload) == Some(post.url)
            && var p := s.a.published[o.uid].payload;
            && post.url != ""
            && (if Given(p, "callbackUrl") then post.url == p["callbackUrl"]
                else "callback_url" in p && post.url == p["callback_url"])
            && post.body.session == Some(SessionOf(s.a.published[o.uid].payload))
            && post.body.result == o.result
            && (o.Done() || s.a.runs[o.uid].Raised? ==> post.body.result == s.a.runs[o.uid])
  {
    RunInv(maxRetries, trace);
    assert D.PostOk(GlobalStream(s), post);
    var i :| 0 <= i < |s.a.bus.GlobalLog()| && s.a.bus.GlobalLog()[i] == post.entry;
    assert P.GlobalEntryOk(s.a, s.a.bus.GlobalLog()[i].event);
    CallbackIsGiven(s.a.published[post.entry.event.outcome.uid].payload);
  }

  // ---- At most once ----

  /** A POST answered with a code from 200 to 299. */
  predicate Answered2xx(p: D.Post) {
    p.reply.Status? && 200 <= p.reply.code <= 299
  }

  /** POSTs answered 2xx, and all POSTs, for one request. */
  function SuccessesFor(posts: seq<D.Post>, u: nat): nat {
    if posts == [] then 0
    else
      var p := Last(posts);
      SuccessesFor(posts[..|posts| - 1], u) + if p.entry.event.Uid() == u && Answered2xx(p) then 1 else 0
  }

  function AttemptsFor(posts: seq<D.Post>, u: nat): nat {
    if posts == [] then 0
    else AttemptsFor(posts[..|posts| - 1], u) + if Last(posts).entry.event.Uid() == u then 1 else 0
  }

  /** If one entry reports on the request, counting by entry is counting by request. */
  lemma CountByEntry(posts: seq<D.Post>, u: nat, id: nat)
    requires forall p :: p in posts ==> (p.entry.event.Uid() == u <==> p.entry.id == id)
    ensures SuccessesFor(posts, u) == D.Successes(posts, id) && AttemptsFor(posts, u) == D.Attempts(posts, id)
  {
  }

  lemma LaterEntryOtherRequest(a: P.Agents, log: seq<Entry>, i: int, j: int)
    requires P.GlobalOk(a, log)
    ensures 0 <= i < j < |log| ==> log[i].event.Uid() != log[j].event.Uid()
  {
    if 0 <= i < j < |log| {
      assert P.GlobalEntryOk(a, log[i].event) && P.GlobalEntryOk(a, log[j].event)
             && P.GlobalOrder(a, log[i].event, log[j].event);
    }
  }

  lemma OneEntryPerRequest(a: P.Agents, log: seq<Entry>, e: Entry, e': Entry)
    requires P.GlobalOk(a, log) && Increasing(log) && e in log && e' in log
    ensures e.event.Uid() == e'.event.Uid() <==> e.id == e'.id
  {
    var i :| 0 <= i < |log| && log[i] == e;
    var j :| 0 <= j < |log| && log[j] == e';
    LaterEntryOtherRequest(a, log, i, j);
    LaterEntryOtherRequest(a, log, j, i);
    Ordered(log, i, j);
    Ordered(log, j, i);
  }

  /** The callback of a request is called at most `maxRetries` times, and it answers 2xx at most once more often than
      acknowledging the delivery failed: at most once as long as acknowledgements succeed. */
  lemma AtMostOneSuccess(maxRetries: nat, trace: seq<Step>, s: State, post: D.Post)
    requires Reached(maxRetries, trace, s) && post in s.d.posts
    ensures var u := post.entry.event.Uid();
            && AttemptsFor(s.d.posts, u) <= maxRetries
            && SuccessesFor(s.d.posts, u) <= 1 + D.Errors(s.d.ackErrors, post.entry.id)
            && (post.entry.id !in s.d.ackErrors ==> SuccessesFor(s.d.posts, u) <= 1)
  {
    RunInv(maxRetries, trace);
    MaxRetriesFixed(maxRetries, trace);
    var e := post.entry;
    assert D.PostOk(GlobalStream(s), post);
    forall p | p in s.d.posts
      ensures p.entry.event.Uid() == e.event.Uid() <==> p.entry.id == e.id
    {
      assert D.PostOk(GlobalStream(s), p);
      OneEntryPerRequest(s.a, s.a.bus.GlobalLog(), p.entry, e);
    }
    CountByEntry(s.d.posts, e.event.Uid(), e.id);
    assert D.CountsOk(s.d, e.id);
    NoErrors(s.d.ackErrors, e.id);
  }

  lemma NoErrors(ids: seq<nat>, id: nat)
    ensures id !in ids ==> D.Errors(ids, id) == 0
  {
  }

  lemma {:induction false} MaxRetriesFixed(maxRetries: nat, trace: seq<Step>)
    requires Run(Start(maxRetries), trace).Some?
    ensures Run(Start(maxRetries), trace).value.d.maxRetries == maxRetries
    decreases |trace|
  {
    if trace == [] {
    } else {
      MaxRetriesFixed(maxRetries, trace[..|trace| - 1]);
    }
  }

  // ---- Where an entry of the global stream can be ----

  predicate Undelivered(s: State, i: nat)
    requires i < |s.a.bus.GlobalLog()|
  {
    i >= |GlobalStream(s).trimmed| && s.a.bus.GlobalLog()[i].id > s.d.lastDelivered
  }

  /** Trimmed before any worker read it: lost to the dispatcher. */
  predicate TrimmedUnread(s: State, i: nat)
    requires i < |s.a.bus.GlobalLog()|
  {
    i < |GlobalStream(s).trimmed| && s.a.bus.GlobalLog()[i].id !in s.d.pending + s.d.acked
  }

  predicate Pending(s: State, i: nat)
    requires i < |s.a.bus.GlobalLog()|
  {
    s.a.bus.GlobalLog()[i].id in s.d.pending
  }

  predicate Acked(s: State, i: nat)
    requires i < |s.a.bus.GlobalLog()|
  {
    s.a.bus.GlobalLog()[i].id in s.d.acked
  }

  /** Why an entry was acknowledged: no callback, an answer 2xx to a POST for it, or no attempts left. */
  ghost predicate AckReason(d: D.Group, e: Entry) {
    || e.event.Progress?
    || (!Given(e.event.outcome.request, "callbackUrl") && !Given(e.event.outcome.request, "callback_url"))
    || (exists p :: p in d.posts && p.entry == e && Answered2xx(p))
    || D.Attempts(d.posts, e.id) == d.maxRetries
  }

  lemma AckedForAReason(g: Stream, d: D.Group, e: Entry)
    requires D.Inv(g, d) && e in g.Log() && e.id in d.acked
    ensures AckReason(d, e)
  {
    assert D.AckedOk(d, e);
    if e.event.Ends? {
      CallbackIsGiven(e.event.outcome.request);
    }
    if D.Successes(d.posts, e.id) > 0 {
      var p := D.PostedEntry(d.posts, e.id);
      assert D.PostOk(g, p);
      D.SameId(g.Log(), p.entry, e);
    }
  }

  lemma OneOfFourPlaces(s: State, i: nat)
    requires D.DeliveriesOk(s.d) && D.LiveOk(GlobalStream(s), s.d) && i < |s.a.bus.GlobalLog()|
    ensures Undelivered(s, i) || TrimmedUnread(s, i) || Pending(s, i) || Acked(s, i)
    ensures Undelivered(s, i) ==> !TrimmedUnread(s, i) && !Pending(s, i) && !Acked(s, i)
    ensures TrimmedUnread(s, i) ==> !Pending(s, i) && !Acked(s, i)
    ensures !(Pending(s, i) && Acked(s, i))
  {
  }

  /** Consumer-group accounting: every entry ever appended is in exactly one of four places, no entry is read twice, and
      an acknowledged one had no callback, got a 2xx, or used all its attempts. */
  lemma GroupAccounting(maxRetries: nat, trace: seq<Step>, s: State, i: nat)
    requires Reached(maxRetries, trace, s) && i < |s.a.bus.GlobalLog()|
    ensures Undelivered(s, i) || TrimmedUnread(s, i) || Pending(s, i) || Acked(s, i)
    ensures Undelivered(s, i) ==> !TrimmedUnread(s, i) && !Pending(s, i) && !Acked(s, i)
    ensures TrimmedUnread(s, i) ==> !Pending(s, i) && !Acked(s, i)
    ensures !(Pending(s, i) && Acked(s, i))
    ensures s.d.maxRetries == maxRetries && (Acked(s, i) ==> AckReason(s.d, s.a.bus.GlobalLog()[i]))
  {
    RunInv(maxRetries, trace);
    MaxRetriesFixed(maxRetries, trace);
    OneOfFourPlaces(s, i);
    if Acked(s, i) {
      AckedForAReason(GlobalStream(s), s.d, s.a.bus.GlobalLog()[i]);
    }
  }

  lemma NoEntryReadTwice(maxRetries: nat, trace: seq<Step>, s: State, i: nat, j: nat)
    requires Reached(maxRetries, trace, s) && i < j < |s.d.deliveries|
    ensures s.d.deliveries[i].id < s.d.deliveries[j].id
  {
    RunInv(maxRetries, trace);
  }
}
