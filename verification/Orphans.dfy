/** Entries the dispatcher leaves behind: pending, with no worker on them. How that happens, exactly, and that nothing
    ever changes it. */
module Orphans {
  import opened Prelude
  import opened Naming
  import opened Messages
  import opened Streams
  import opened Redis
  import opened Pipeline
  import P = AgentSide
  import D = Dispatch
  import Outcomes

  predicate WorkingOn(p: D.Phase, id: nat) {
    (p.Got? || p.Trying? || p.Acking?) && p.e.id == id
  }

  /** Pending, and nobody is working on it. */
  ghost predicate Orphan(d: D.Group, id: nat) {
    id in d.pending && forall w :: !WorkingOn(d.PhaseOf(w), id)
  }

  /** The steps that drop an entry: its worker is killed, leaves it because it was stopped, or fails to acknowledge it
      outside the retry loop's `try`. */
  predicate Drops(d: D.Group, y: D.Action, id: nat) {
    var p := d.PhaseOf(y.worker);
    && WorkingOn(p, id)
    && (y.Crash?
        || ((y.Take? || y.Abandon?) && y.worker in d.stopping)
        || (y.Ack? && !y.ok && p.Acking? && !p.why.Delivered?))
  }

  // ---- One step ----

  lemma PhaseAfter(g: Stream, d: D.Group, y: D.Action, v: string)
    requires D.Enabled(g, d, y) && v != y.worker
    ensures D.Next(g, d, y).PhaseOf(v) == d.PhaseOf(v)
  {
  }

  lemma WorkedIsPending(g: Stream, d: D.Group, w: string, id: nat)
    requires D.Inv(g, d) && WorkingOn(d.PhaseOf(w), id)
    ensures id in d.pending && D.Delivery(w, id) in d.deliveries
  {
    assert D.WorkerOk(g, d, w, d.PhaseOf(w));
  }

  lemma OneWorkerEach(g: Stream, d: D.Group, v: string, w: string, id: nat)
    requires D.Inv(g, d) && WorkingOn(d.PhaseOf(v), id) && WorkingOn(d.PhaseOf(w), id)
    ensures v == w
  {
    assert D.WorkerOk(g, d, v, d.PhaseOf(v)) && D.WorkerOk(g, d, w, d.PhaseOf(w));
    if v != w {
      D.HoldersDiffer(g, d, v, d.PhaseOf(v).e, w, d.PhaseOf(w).e);
    }
  }

  /** The entry handed out next was never pending before. */
  lemma ReadIsNew(g: Stream, d: D.Group)
    requires D.Inv(g, d) && D.Unread(g, d) != []
    ensures D.Unread(g, d)[0].id !in d.pending + d.acked
  {
    D.UnreadEntry(g, d);
  }

  /** What a step does to a worked-on entry: its worker keeps it, acknowledges it, or drops it. */
  lemma WorkerStep(g: Stream, d: D.Group, y: D.Action, id: nat)
    requires D.Inv(g, d) && D.Enabled(g, d, y) && WorkingOn(d.PhaseOf(y.worker), id)
    ensures var d' := D.Next(g, d, y);
            && WorkingOn(d'.PhaseOf(y.worker), id) == (!Drops(d, y, id) && !(y.Ack? && y.ok))
            && (id in d'.pending <==> !(y.Ack? && y.ok))
  {
    WorkedIsPending(g, d, y.worker, id);
  }

  lemma DropOrphans(g: Stream, d: D.Group, y: D.Action, id: nat)
    requires D.Inv(g, d) && D.Enabled(g, d, y) && Drops(d, y, id)
    ensures Orphan(D.Next(g, d, y), id)
  {
    var d' := D.Next(g, d, y);
    WorkerStep(g, d, y, id);
    forall v
      ensures !WorkingOn(d'.PhaseOf(v), id)
    {
      if v != y.worker {
        PhaseAfter(g, d, y, v);
        if WorkingOn(d.PhaseOf(v), id) {
          OneWorkerEach(g, d, v, y.worker, id);
        }
      }
    }
  }

  lemma OnlyDropOrphans(g: Stream, d: D.Group, y: D.Action, id: nat)
    requires D.Inv(g, d) && D.Enabled(g, d, y) && !Orphan(d, id) && Orphan(D.Next(g, d, y), id)
    ensures Drops(d, y, id)
  {
    var d' := D.Next(g, d, y);
    assert !WorkingOn(d'.PhaseOf(y.worker), id);
    if id in d.pending {
      var v :| WorkingOn(d.PhaseOf(v), id);
      if v != y.worker {
        PhaseAfter(g, d, y, v);
      } else {
        WorkerStep(g, d, y, id);
      }
    }
  }

  /** A step of a worker turns an entry into an orphan if and only if it drops the entry. */
  lemma OrphanedExactlyByDrop(g: Stream, d: D.Group, y: D.Action, id: nat)
    requires D.Inv(g, d) && D.Enabled(g, d, y) && !Orphan(d, id)
    ensures Orphan(D.Next(g, d, y), id) <==> Drops(d, y, id)
  {
    if Drops(d, y, id) {
      DropOrphans(g, d, y, id);
    } else if Orphan(D.Next(g, d, y), id) {
      OnlyDropOrphans(g, d, y, id);
    }
  }

  lemma OrphanNotPosted(g: Stream, d: D.Group, y: D.Action, id: nat)
    requires D.Enabled(g, d, y) && !WorkingOn(d.PhaseOf(y.worker), id)
    ensures var d' := D.Next(g, d, y);
            D.Attempts(d'.posts, id) == D.Attempts(d.posts, id) && D.Successes(d'.posts, id) == D.Successes(d.posts, id)
  {
    if y.Send? {
      D.CountPost(d.posts, Last(D.Next(g, d, y).posts), id);
    }
  }

  /** No step of any worker brings an orphan back, POSTs it, or acknowledges it. */
  lemma OrphanStays(g: Stream, d: D.Group, y: D.Action, id: nat)
    requires D.Inv(g, d) && D.Enabled(g, d, y) && Orphan(d, id)
    ensures var d' := D.Next(g, d, y);
            && Orphan(d', id)
            && D.Attempts(d'.posts, id) == D.Attempts(d.posts, id)
               && D.Successes(d'.posts, id) == D.Successes(d.posts, id)
  {
    var d', w := D.Next(g, d, y), y.worker;
    assert !WorkingOn(d.PhaseOf(w), id);
    if y.Read? {
      ReadIsNew(g, d);
    }
    OrphanNotPosted(g, d, y, id);
    forall v
      ensures !WorkingOn(d'.PhaseOf(v), id)
    {
      if v != w {
        PhaseAfter(g, d, y, v);
      }
    }
  }

  // ---- Whole runs ----

  /** Step number `k` of the run drops the entry. */
  ghost predicate DropsAt(maxRetries: nat, trace: seq<Step>, k: nat, id: nat) {
    && k < |trace| && trace[k].Worker? && Run(Start(maxRetries), trace[..k]).Some?
    && Drops(Run(Start(maxRetries), trace[..k]).value.d, trace[k].y, id)
  }

  ghost predicate Dropped(maxRetries: nat, trace: seq<Step>, id: nat) {
    exists k: nat :: DropsAt(maxRetries, trace, k, id)
  }

  lemma DropsAtPrefix(maxRetries: nat, trace: seq<Step>, k: nat, id: nat)
    requires trace != [] && k < |trace| - 1
    ensures DropsAt(maxRetries, trace[..|trace| - 1], k, id) <==> DropsAt(maxRetries, trace, k, id)
  {
    assert trace[..|trace| - 1][..k] == trace[..k];
  }

  /** A run dropped the entry if its last step did or the run before it. */
  lemma DroppedSplit(maxRetries: nat, trace: seq<Step>, id: nat)
    requires trace != []
    ensures var n := |trace| - 1;
            Dropped(maxRetries, trace, id) <==> Dropped(maxRetries, trace[..n], id) || DropsAt(maxRetries, trace, n, id)
  {
    var before := trace[..|trace| - 1];
    if Dropped(maxRetries, trace, id) {
      var k: nat :| DropsAt(maxRetries, trace, k, id);
      if k < |before| {
        DropsAtPrefix(maxRetries, trace, k, id);
      }
    }
    if Dropped(maxRetries, before, id) {
      var k: nat :| DropsAt(maxRetries, before, k, id);
      DropsAtPrefix(maxRetries, trace, k, id);
    }
  }

  lemma AgentsKeepOrphans(s: State, x: P.Action)
    requires P.Enabled(s.a, x)
    ensures Next(s, Agent(x)).d == s.d
  {
  }

  /** The last step of a run: an entry is an orphan after it if and only if it was one before or the step drops it. */
  lemma OrphanStep(s: State, step: Step, id: nat)
    requires Inv(s) && Enabled(s, step)
    ensures Orphan(Next(s, step).d, id) <==> Orphan(s.d, id) || (step.Worker? && Drops(s.d, step.y, id))
  {
    match step
    case Agent(x) => AgentsKeepOrphans(s, x);
    case Worker(y) =>
      if Orphan(s.d, id) {
        OrphanStays(GlobalStream(s), s.d, y, id);
      } else {
        OrphanedExactlyByDrop(GlobalStream(s), s.d, y, id);
      }
  }

  /** After any run an entry is an orphan if and only if some step of the run dropped it. */
  lemma {:induction false} OrphanedExactlyByDrops(maxRetries: nat, trace: seq<Step>, s: State, id: nat)
    requires Reached(maxRetries, trace, s)
    ensures Orphan(s.d, id) <==> Dropped(maxRetries, trace, id)
    decreases |trace|
  {
    if trace == [] {
      assert s == Start(maxRetries);
    } else {
      var n := |trace| - 1;
      var b := Run(Start(maxRetries), trace[..n]).value;
      OrphanedExactlyByDrops(maxRetries, trace[..n], b, id);
      RunInv(maxRetries, trace[..n]);
      OrphanStep(b, trace[n], id);
      DroppedSplit(maxRetries, trace, id);
    }
  }

  /** The worker that drops an entry is the one that read it. */
  lemma DropperIsReader(maxRetries: nat, trace: seq<Step>, s: State, k: nat, x: D.Delivery)
    requires Reached(maxRetries, trace, s) && x in s.d.deliveries && DropsAt(maxRetries, trace, k, x.id)
    ensures trace[k].y.worker == x.worker
  {
    var b := Run(Start(maxRetries), trace[..k]).value;
    var w := trace[k].y.worker;
    RunInv(maxRetries, trace[..k]);
    WorkedIsPending(GlobalStream(b), b.d, w, x.id);
    DeliveriesRemain(maxRetries, trace, s, k, b);
    RunInv(maxRetries, trace);
    SameDelivery(s.d, x, D.Delivery(w, x.id));
  }

  lemma SameDelivery(d: D.Group, x: D.Delivery, y: D.Delivery)
    requires D.DeliveriesOk(d) && x in d.deliveries && y in d.deliveries && x.id == y.id
    ensures x == y
  {
    var i :| 0 <= i < |d.deliveries| && d.deliveries[i] == x;
    var j :| 0 <= j < |d.deliveries| && d.deliveries[j] == y;
    assert i < j ==> d.deliveries[i].id < d.deliveries[j].id;
    assert j < i ==> d.deliveries[j].id < d.deliveries[i].id;
  }

  lemma {:induction false} DeliveriesRemain(maxRetries: nat, trace: seq<Step>, s: State, k: nat, b: State)
    requires Reached(maxRetries, trace, s) && k <= |trace| && Run(Start(maxRetries), trace[..k]) == Some(b)
    ensures forall x :: x in b.d.deliveries ==> x in s.d.deliveries
    decreases |trace|
  {
    if k == |trace| {
      assert trace[..k] == trace;
    } else {
      var before := trace[..|trace| - 1];
      assert before[..k] == trace[..k];
      DeliveriesRemain(maxRetries, before, Run(Start(maxRetries), before).value, k, b);
    }
  }

  /** An entry that was read and not acknowledged is still being worked on by its reader, or that reader dropped it, in
      a step of the run that was a crash, a stop taking effect on this very entry, or its failed acknowledgement:
      exactly one of the two. */
  lemma LeftBehindOnlyByFaults(maxRetries: nat, trace: seq<Step>, s: State, x: D.Delivery)
    requires Reached(maxRetries, trace, s) && x in s.d.deliveries && x.id in s.d.pending
    ensures WorkingOn(s.d.PhaseOf(x.worker), x.id) <==> !Dropped(maxRetries, trace, x.id)
    ensures forall k: nat :: DropsAt(maxRetries, trace, k, x.id) ==> trace[k].y.worker == x.worker
  {
    RunInv(maxRetries, trace);
    OrphanedExactlyByDrops(maxRetries, trace, s, x.id);
    if !Orphan(s.d, x.id) {
      var w :| WorkingOn(s.d.PhaseOf(w), x.id);
      WorkedIsPending(GlobalStream(s), s.d, w, x.id);
      SameDelivery(s.d, x, D.Delivery(w, x.id));
    }
    forall k: nat | DropsAt(maxRetries, trace, k, x.id)
      ensures trace[k].y.worker == x.worker
    {
      DropperIsReader(maxRetries, trace, s, k, x);
    }
  }

  // ---- For ever ----

  /** From any reached state on, whatever follows, an orphan stays one: it is never acknowledged and its callback is
      never called again. */
  lemma {:induction false} OrphansAreNeverServed(s: State, more: seq<Step>, id: nat)
    requires Inv(s) && Orphan(s.d, id) && Run(s, more).Some?
    ensures var s' := Run(s, more).value;
            && Inv(s') && Orphan(s'.d, id) && id !in s'.d.acked
            && D.Attempts(s'.d.posts, id) == D.Attempts(s.d.posts, id)
            && D.Successes(s'.d.posts, id) == D.Successes(s.d.posts, id)
    decreases |more|
  {
    if more == [] {
    } else {
      var n := |more| - 1;
      OrphansAreNeverServed(s, more[..n], id);
      var b := Run(s, more[..n]).value;
      StepKeeps(b, more[n]);
      match more[n]
      case Agent(x) => AgentsKeepOrphans(b, x);
      case Worker(y) => OrphanStays(GlobalStream(b), b.d, y, id);
    }
  }

  /** In terms of the request: once the entry reporting on it is an orphan, none of its webhooks is ever sent again. */
  lemma RequestsAreNeverServedAgain(maxRetries: nat, trace: seq<Step>, s: State, more: seq<Step>, s': State, e: Entry)
    requires Reached(maxRetries, trace, s) && e in s.a.bus.GlobalLog() && Orphan(s.d, e.id) && Run(s, more) == Some(s')
    ensures AttemptsFor(s'.d.posts, e.event.Uid()) == AttemptsFor(s.d.posts, e.event.Uid())
    ensures SuccessesFor(s'.d.posts, e.event.Uid()) == SuccessesFor(s.d.posts, e.event.Uid())
  {
    RunInv(maxRetries, trace);
    OrphansAreNeverServed(s, more, e.id);
    EntriesRemain(s, more, s', e);
    CountForEntry(s, e);
    CountForEntry(s', e);
  }

  lemma {:induction false} EntriesRemain(s: State, more: seq<Step>, s': State, e: Entry)
    requires Run(s, more) == Some(s') && e in s.a.bus.GlobalLog()
    ensures e in s'.a.bus.GlobalLog()
    decreases |more|
  {
    if more == [] {
    } else {
      var n := |more| - 1;
      var b := Run(s, more[..n]).value;
      EntriesRemain(s, more[..n], b, e);
      if more[n].Agent? {
        Outcomes.LogsGrow(b.a, more[n].x);
      }
    }
  }

  lemma CountForEntry(s: State, e: Entry)
    requires Inv(s) && e in s.a.bus.GlobalLog()
    ensures AttemptsFor(s.d.posts, e.event.Uid()) == D.Attempts(s.d.posts, e.id)
    ensures SuccessesFor(s.d.posts, e.event.Uid()) == D.Successes(s.d.posts, e.id)
  {
    forall p | p in s.d.posts
      ensures p.entry.event.Uid() == e.event.Uid() <==> p.entry.id == e.id
    {
      assert D.PostOk(GlobalStream(s), p);
      OneEntryPerRequest(s.a, s.a.bus.GlobalLog(), p.entry, e);
    }
    CountByEntry(s.d.posts, e.event.Uid(), e.id);
  }

  // ---- It happens ----

  /** A run and where it leads. */
  datatype History = History(trace: seq<Step>, s: State)

  ghost predicate Real(maxRetries: nat, h: History) {
    Reached(maxRetries, h.trace, h.s)
  }

  function Then(h: History, step: Step): History
    requires Enabled(h.s, step)
  {
    History(h.trace + [step], Next(h.s, step))
  }

  lemma ThenIsReal(maxRetries: nat, h: History, step: Step)
    requires Real(maxRetries, h) && Enabled(h.s, step)
    ensures Real(maxRetries, Then(h, step))
  {
    assert (h.trace + [step])[..|h.trace|] == h.trace;
  }

  /** The agent answers the one request... */
  function AnswerRun(t: string, p: Payload, r: RunResult): seq<Step> {
    [] + [Agent(P.Publish(t, p))] + [Agent(P.Pop(t))] + [Agent(P.Finish(t, r))] + [Agent(P.AddSession(t, Adds(0, 0)))]
    + [Agent(P.AddGlobal(t, Adds(0, 0)))]
  }

  /** ...then a worker reads the outcome and is killed. */
  function CrashRun(t: string, p: Payload, r: RunResult, w: string): seq<Step> {
    AnswerRun(t, p, r) + [Worker(D.Start(w))] + [Worker(D.Read(w))] + [Worker(D.Crash(w))]
  }

  /** A published request, waiting as the only one. */
  lemma OneRequest(maxRetries: nat, t: string, p: Payload) returns (h: History)
    ensures Real(maxRetries, h) && h.s.d == D.Fresh(maxRetries) && h.s.a.published == [P.Published(t, p)]
    ensures h.s.a.bus.Queue(t) == [Message(0, p)] && h.s.a.PhaseOf(t).Idle? && h.s.a.bus.streams == map[]
    ensures h.trace == [] + [Agent(P.Publish(t, p))]
  {
    var start := History([], Start(maxRetries));
    h := Then(start, Agent(P.Publish(t, p)));
    ThenIsReal(maxRetries, start, Agent(P.Publish(t, p)));
  }

  /** Its turn is over. */
  lemma OneTurn(maxRetries: nat, t: string, p: Payload, r: RunResult) returns (h: History)
    requires P.Answerable(p)
    ensures Real(maxRetries, h) && h.s.d == D.Fresh(maxRetries) && h.s.a.published == [P.Published(t, p)]
    ensures h.s.a.PhaseOf(t) == P.ToSession(Message(0, p), OutcomeOf(Message(0, p), r)) && h.s.a.bus.streams == map[]
    ensures h.trace == [] + [Agent(P.Publish(t, p))] + [Agent(P.Pop(t))] + [Agent(P.Finish(t, r))]
  {
    var h0 := OneRequest(maxRetries, t, p);
    var h1 := Then(h0, Agent(P.Pop(t)));
    ThenIsReal(maxRetries, h0, Agent(P.Pop(t)));
    h := Then(h1, Agent(P.Finish(t, r)));
    ThenIsReal(maxRetries, h1, Agent(P.Finish(t, r)));
  }

  /** Its outcome is on its session's stream. */
  lemma OneOutcome(maxRetries: nat, t: string, p: Payload, r: RunResult) returns (h: History)
    requires P.Answerable(p)
    ensures Real(maxRetries, h) && h.s.d == D.Fresh(maxRetries) && h.s.a.published == [P.Published(t, p)]
    ensures h.s.a.PhaseOf(t) == P.ToGlobal(Message(0, p), OutcomeOf(Message(0, p), r))
    ensures h.s.a.bus.StreamAt(GLOBAL_STREAM) == EMPTY
    ensures h.trace == [] + [Agent(P.Publish(t, p))] + [Agent(P.Pop(t))] + [Agent(P.Finish(t, r))]
                       + [Agent(P.AddSession(t, Adds(0, 0)))]
  {
    var h0 := OneTurn(maxRetries, t, p, r);
    h := Then(h0, Agent(P.AddSession(t, Adds(0, 0))));
    ThenIsReal(maxRetries, h0, Agent(P.AddSession(t, Adds(0, 0))));
    QueuesAndStreamsInjective(SessionOf(p), "");
  }

  /** And on the global one. */
  lemma OneEntry(maxRetries: nat, t: string, p: Payload, r: RunResult) returns (h: History, e: Entry)
    requires P.Answerable(p)
    ensures Real(maxRetries, h) && h.s.d == D.Fresh(maxRetries) && h.s.a.published == [P.Published(t, p)]
    ensures GlobalStream(h.s) == Stream([], [e]) && e.event.Uid() == 0 && e.id == 1
    ensures h.trace == AnswerRun(t, p, r)
  {
    var h0 := OneOutcome(maxRetries, t, p, r);
    h := Then(h0, Agent(P.AddGlobal(t, Adds(0, 0))));
    ThenIsReal(maxRetries, h0, Agent(P.AddGlobal(t, Adds(0, 0))));
    e := Entry(1, Ends(OutcomeOf(Message(0, p), r).(session := Some(SessionOf(p)))));
  }

  /** A worker that is killed right after reading leaves an orphan. */
  lemma OneCrash(maxRetries: nat, t: string, p: Payload, r: RunResult, w: string) returns (h: History, e: Entry)
    requires P.Answerable(p)
    ensures Real(maxRetries, h) && h.s.a.published == [P.Published(t, p)]
    ensures e in h.s.a.bus.GlobalLog() && e.event.Uid() == 0 && Orphan(h.s.d, e.id) && h.s.d.posts == []
    ensures h.trace == CrashRun(t, p, r, w)
  {
    var h0;
    h0, e := OneEntry(maxRetries, t, p, r);
    CrashAfterRead(GlobalStream(h0.s), h0.s.d, e, w);
    var h1 := Then(h0, Worker(D.Start(w)));
    ThenIsReal(maxRetries, h0, Worker(D.Start(w)));
    var h2 := Then(h1, Worker(D.Read(w)));
    ThenIsReal(maxRetries, h1, Worker(D.Read(w)));
    h := Then(h2, Worker(D.Crash(w)));
    ThenIsReal(maxRetries, h2, Worker(D.Crash(w)));
    assert h.s.a.bus.GlobalLog()[0] == e;
  }

  lemma CrashAfterRead(g: Stream, d: D.Group, e: Entry, w: string)
    requires g == Stream([], [e]) && e.id == 1 && d == D.Fresh(d.maxRetries)
    ensures D.Enabled(g, d, D.Start(w))
    ensures var d1 := D.Next(g, d, D.Start(w));
            D.Enabled(g, d1, D.Read(w)) && D.Enabled(g, D.Next(g, d1, D.Read(w)), D.Crash(w))
            && var d3 := D.Next(g, D.Next(g, d1, D.Read(w)), D.Crash(w));
            Orphan(d3, e.id) && d3.posts == []
  {
    PassedIs([e], 0, 0);
  }

  /** Delivery is not guaranteed: in this run of eight steps, whose one fault is a crash, the webhook of the one request
      is not sent and, whatever follows, never will be. */
  lemma DeliveryIsNotGuaranteed(maxRetries: nat, t: string, p: Payload, r: RunResult, w: string) returns (h: History)
    requires P.Answerable(p)
    ensures Real(maxRetries, h) && h.s.a.published == [P.Published(t, p)] && h.trace == CrashRun(t, p, r, w)
    ensures forall more :: Run(h.s, more).Some? ==> AttemptsFor(Run(h.s, more).value.d.posts, 0) == 0
  {
    var e;
    h, e := OneCrash(maxRetries, t, p, r, w);
    forall more | Run(h.s, more).Some?
      ensures AttemptsFor(Run(h.s, more).value.d.posts, 0) == 0
    {
      RequestsAreNeverServedAgain(maxRetries, h.trace, h.s, more, Run(h.s, more).value, e);
    }
  }
}
