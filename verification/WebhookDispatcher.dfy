/** The dispatcher's `_process_event` as the retry loop it is, run against the bus object, and proved to take only steps
    of the dispatch machine. */
module WebhookDispatcher {
  import opened Prelude
  import opened Naming
  import opened Messages
  import opened Streams
  import opened Redis
  import opened Dispatch
  import opened MessageBus

  /** What the world does during one attempt: whether `stop` has been called by the time the loop looks, how the POST is
      answered, and whether the acknowledgement after a success gets through. */
  datatype Attempt = Attempt(stopped: bool, reply: Reply, ackOk: bool)

  function Run(g: Stream, d: Group, trace: seq<Action>): Option<Group> {
    if trace == [] then Some(d)
    else
      match Run(g, d, trace[..|trace| - 1])
      case None => None
      case Some(r) => if Enabled(g, r, Last(trace)) then Some(Next(g, r, Last(trace))) else None
  }

  lemma RunSnoc(g: Stream, d: Group, trace: seq<Action>, r: Group, x: Action)
    requires Run(g, d, trace) == Some(r) && Enabled(g, r, x)
    ensures Run(g, d, trace + [x]) == Some(Next(g, r, x))
  {
    assert (trace + [x])[..|trace|] == trace;
  }

  lemma {:induction false} RunAppend(g: Stream, d: Group, trace: seq<Action>, r: Group, more: seq<Action>)
    requires Run(g, d, trace) == Some(r)
    ensures Run(g, d, trace + more) == Run(g, r, more)
    decreases |more|
  {
    if more == [] {
      assert trace + more == trace;
    } else {
      var init := more[..|more| - 1];
      RunAppend(g, d, trace, r, init);
      assert (trace + more)[..|trace + more| - 1] == trace + init;
    }
  }

  lemma RunOne(g: Stream, d: Group, x: Action)
    requires Enabled(g, d, x)
    ensures Run(g, d, [x]) == Some(Next(g, d, x))
  {
    RunSnoc(g, d, [], d, x);
    assert [] + [x] == [x];
  }

  lemma RunTwo(g: Stream, d: Group, x: Action, y: Action)
    requires Enabled(g, d, x) && Enabled(g, Next(g, d, x), y)
    ensures Run(g, d, [x, y]) == Some(Next(g, Next(g, d, x), y))
  {
    RunOne(g, d, x);
    RunSnoc(g, d, [x], Next(g, d, x), y);
    assert [x] + [y] == [x, y];
  }

  // ---- What one event leads to ----

  datatype Verdict = Stopped | Served | Failed

  /** Whether the loop goes on after an attempt: a success that cannot be acknowledged counts as a failure. */
  function VerdictOf(a: Attempt): Verdict {
    if a.stopped then Stopped else if Success(a.reply) && a.ackOk then Served else Failed
  }

  function TryTrace(w: string, a: Attempt): seq<Action> {
    if a.stopped then [Stop(w), Abandon(w)]
    else if Success(a.reply) then [Send(w, a.reply), Ack(w, a.ackOk)]
    else [Send(w, a.reply)]
  }

  /** From attempt `k` on: the machine steps of the loop. */
  function LoopTrace(w: string, n: nat, k: nat, script: seq<Attempt>, lastAck: bool): seq<Action>
    requires k <= n <= |script|
    decreases n - k
  {
    if k == n then [GiveUp(w), Ack(w, lastAck)]
    else TryTrace(w, script[k]) + if VerdictOf(script[k]).Failed? then LoopTrace(w, n, k + 1, script, lastAck) else []
  }

  function EventTrace(w: string, e: Entry, n: nat, script: seq<Attempt>, lastAck: bool): seq<Action>
    requires n <= |script|
  {
    [Take(w)] + if CallbackIn(e).None? then [Ack(w, lastAck)] else LoopTrace(w, n, 0, script, lastAck)
  }

  /** What happens around one event of the main loop: whether `stop` is called before the event arrives, and the
      attempts. */
  datatype Visit = Visit(stopped: bool, attempts: seq<Attempt>, lastAck: bool)

  /** One round of the main loop: the event is read before the stop flag is looked at. */
  function VisitTrace(w: string, e: Entry, n: nat, v: Visit, stopping: bool): seq<Action>
    requires n <= |v.attempts|
  {
    if stopping || v.stopped then [Read(w)] + [Stop(w), Take(w)]
    else [Read(w)] + EventTrace(w, e, n, v.attempts, v.lastAck)
  }

  /** 2^n. */
  function Pow2(n: nat): (r: nat)
    ensures r >= 1
  {
    if n == 0 then 1 else 2 * Pow2(n - 1)
  }

  lemma {:induction false} Pow2Monotone(m: nat, n: nat)
    requires m < n
    ensures Pow2(m) < Pow2(n)
    decreases n
  {
    if m < n - 1 {
      Pow2Monotone(m, n - 1);
    }
  }

  /** From attempt `k` on: how many attempts fail. */
  function Failures(n: nat, k: nat, script: seq<Attempt>): nat
    requires k <= n <= |script|
    decreases n - k
  {
    if k < n && VerdictOf(script[k]).Failed? then 1 + Failures(n, k + 1, script) else 0
  }

  /** From attempt `k` on: how many POSTs are made. */
  function Tries(n: nat, k: nat, script: seq<Attempt>): nat
    requires k <= n <= |script|
    decreases n - k
  {
    if k == n || script[k].stopped then 0
    else 1 + if VerdictOf(script[k]).Failed? then Tries(n, k + 1, script) else 0
  }

  /** Seconds slept after attempt `k` of `n`. */
  function Pause(n: nat, k: nat): nat {
    if k < n - 1 then Pow2(k) else 0
  }

  /** From attempt `k` on: the seconds slept. */
  function Slept(n: nat, k: nat, script: seq<Attempt>): nat
    requires k <= n <= |script|
    decreases n - k
  {
    if k < n && VerdictOf(script[k]).Failed? then Pause(n, k) + Slept(n, k + 1, script) else 0
  }

  /** One round of the loop, seen from its head. */
  lemma RoundRun(g: Stream, d: Group, w: string, n: nat, k: nat, script: seq<Attempt>, lastAck: bool, r: Group)
    requires k < n <= |script| && Run(g, d, TryTrace(w, script[k])) == Some(r)
    ensures Run(g, d, LoopTrace(w, n, k, script, lastAck)) ==
            if VerdictOf(script[k]).Failed? then Run(g, r, LoopTrace(w, n, k + 1, script, lastAck)) else Some(r)
  {
    var round := TryTrace(w, script[k]);
    if VerdictOf(script[k]).Failed? {
      RunAppend(g, d, round, r, LoopTrace(w, n, k + 1, script, lastAck));
    } else {
      assert round + [] == round;
    }
  }

  lemma CountAt(n: nat, k: nat, script: seq<Attempt>)
    requires k < n <= |script|
    ensures VerdictOf(script[k]).Failed? ==>
              Tries(n, k, script) == 1 + Tries(n, k + 1, script)
                  && Slept(n, k, script) == Pause(n, k) + Slept(n, k + 1, script)
                  && Failures(n, k, script) == 1 + Failures(n, k + 1, script)
    ensures !VerdictOf(script[k]).Failed? ==>
              Tries(n, k, script) == (if script[k].stopped then 0 else 1) && Slept(n, k, script) == 0
                  && Failures(n, k, script) == 0
  {
  }

  lemma {:induction false} TriesBound(n: nat, k: nat, script: seq<Attempt>)
    requires k <= n <= |script|
    ensures Tries(n, k, script) <= n - k && Failures(n, k, script) <= Tries(n, k, script) <= Failures(n, k, script) + 1
    decreases n - k
  {
    if k < n {
      TriesBound(n, k + 1, script);
    }
  }

  /** Doubling pauses add up to one less than the next power of two; there is none after the last attempt. */
  lemma {:induction false} SleptClosedForm(n: nat, k: nat, script: seq<Attempt>)
    requires k <= n <= |script| && n > 0
    ensures Pow2(Min(k, n - 1)) + Slept(n, k, script) == Pow2(Min(k + Failures(n, k, script), n - 1))
    decreases n - k
  {
    if k < n {
      SleptClosedForm(n, k + 1, script);
    }
  }

  /** The loop goes on after an attempt that was not stopped and did not end with an acknowledged 2xx. */
  predicate GoesOn(a: Attempt) {
    !a.stopped && (a.reply.RequestError? || a.reply.code < 200 || a.reply.code >= 300 || !a.ackOk)
  }

  /** The event ends up acknowledged unless the dispatcher is stopped before an attempt: after an attempt that does
      not go on, or after the last one if acknowledging then succeeds. */
  predicate Acknowledged(n: nat, script: seq<Attempt>, lastAck: bool)
    requires n <= |script|
  {
    var f := Failures(n, 0, script);
    if f < n then !script[f].stopped else lastAck
  }

  lemma DoneAt(n: nat, k: nat, script: seq<Attempt>, lastAck: bool)
    requires k <= n <= |script| && k + Failures(n, k, script) == Failures(n, 0, script)
    ensures k == n ==> Acknowledged(n, script, lastAck) == lastAck
    ensures k < n && !VerdictOf(script[k]).Failed? ==>
              Acknowledged(n, script, lastAck) == VerdictOf(script[k]).Served?
  {
  }

  lemma {:induction false} FailuresFirst(n: nat, k: nat, script: seq<Attempt>)
    requires k <= n <= |script|
    ensures var f := Failures(n, k, script);
            && k + f <= n && (forall i :: k <= i < k + f ==> GoesOn(script[i]))
            && (k + f < n ==> !GoesOn(script[k + f]))
            && Tries(n, k, script) == if k + f == n || script[k + f].stopped then f else f + 1
    decreases n - k
  {
    if k < n {
      FailuresFirst(n, k + 1, script);
    }
  }

  /** At most `n` POSTs, made until an attempt does not go on, and a total backoff of at most 2^(n-1) - 1 seconds,
      reached exactly when the first n - 1 attempts failed. */
  lemma RetriesAreBounded(n: nat, script: seq<Attempt>)
    requires n <= |script|
    ensures var f := Failures(n, 0, script);
            && f <= n && (forall i :: 0 <= i < f ==> GoesOn(script[i])) && (f < n ==> !GoesOn(script[f]))
            && Tries(n, 0, script) == if f == n || script[f].stopped then f else f + 1
    ensures Tries(n, 0, script) <= n && Failures(n, 0, script) <= Tries(n, 0, script) <= Failures(n, 0, script) + 1
    ensures n == 0 ==> Slept(n, 0, script) == 0
    ensures n > 0 ==> Slept(n, 0, script) == Pow2(Min(Failures(n, 0, script), n - 1)) - 1 <= Pow2(n - 1) - 1
    ensures n > 0 ==> (Slept(n, 0, script) == Pow2(n - 1) - 1 <==> Failures(n, 0, script) >= n - 1)
  {
    TriesBound(n, 0, script);
    FailuresFirst(n, 0, script);
    var f := Failures(n, 0, script);
    if n > 0 {
      SleptClosedForm(n, 0, script);
      if f < n - 1 {
        Pow2Monotone(f, n - 1);
      }
    }
  }

  /** The bound can be reached without using all attempts: a stop seen at the head of the last one comes after the last
      sleep. */
  lemma BoundWithoutAllAttempts(script: seq<Attempt>)
    requires script == [Attempt(false, RequestError, true), Attempt(true, RequestError, true)]
    ensures Slept(2, 0, script) == Pow2(1) - 1 && Tries(2, 0, script) == 1
  {
    assert Slept(2, 1, script) == 0 && Tries(2, 1, script) == 0;
  }

  // ---- The objects ----

  /** The HTTP client, remembering its POSTs. */
  class HttpClient {
    var posts: seq<Post>

    constructor ()
      ensures posts == []
    {
      posts := [];
    }

    method Send(e: Entry, url: string, body: Body, reply: Reply) returns (ok: bool)
      modifies this
      ensures posts == old(posts) + [Post(e, url, body, reply)]
      ensures ok <==> reply.Status? && 200 <= reply.code < 300
    {
      ok := reply.Status? && 200 <= reply.code < 300;
      posts := posts + [Post(e, url, body, reply)];
    }
  }

  class WebhookDispatcher {
    const worker: string
    const maxRetries: nat
    var stopping: bool

    constructor (worker: string, maxRetries: nat)
      ensures this.worker == worker && this.maxRetries == maxRetries && !stopping
    {
      this.worker, this.maxRetries, stopping := worker, maxRetries, false;
    }

    method StopEvent()
      modifies this`stopping
      ensures stopping
    {
      stopping := true;
    }

    /** The machine state agrees with what Redis, the outside world and this object hold. */
    ghost predicate Matches(bus: RedisMessageBus, client: HttpClient, d: Group)
      reads this, bus, client
    {
      && d.maxRetries == maxRetries && d.posts == client.posts
      && d.lastDelivered == bus.lastDelivered && d.pending == bus.pending && d.acked == bus.acked
      && (stopping <==> worker in d.stopping)
    }

    /** One round of the retry loop. */
    method TryOnce(bus: RedisMessageBus, client: HttpClient, g: Stream, e: Entry, k: nat, a: Attempt, ghost d: Group)
      returns (verdict: Verdict, ghost after: Group)
      requires k < maxRetries && !stopping && Matches(bus, client, d) && d.PhaseOf(worker) == Trying(e, k)
      requires e.event.Ends? && CallbackIn(e).Some?
      modifies this`stopping, client, bus`pending, bus`acked
      ensures verdict == VerdictOf(a)
      ensures !a.stopped ==> (verdict.Served? <==> a.reply.Status? && 200 <= a.reply.code < 300 && a.ackOk)
      ensures verdict.Stopped? <==> a.stopped
      ensures Run(g, d, TryTrace(worker, a)) == Some(after) && Matches(bus, client, after)
      ensures verdict.Failed? ==> !stopping && after.PhaseOf(worker) == Trying(e, k + 1)
      ensures !verdict.Failed? ==> after.PhaseOf(worker).Waiting?
      ensures bus.acked == if verdict.Served? then old(bus.acked) + {e.id} else old(bus.acked)
      ensures bus.pending == if verdict.Served? then old(bus.pending) - {e.id} else old(bus.pending)
      ensures client.posts == old(client.posts) + if a.stopped then [] else
                [Post(e, CallbackIn(e).value, Body(e.event.outcome.result, e.event.outcome.session), a.reply)]
    {
      if a.stopped {
        StopEvent();
        RunTwo(g, d, Stop(worker), Abandon(worker));
        after := Next(g, Next(g, d, Stop(worker)), Abandon(worker));
        return Stopped, after;
      }
      var ok := client.Send(e, CallbackIn(e).value, Body(e.event.outcome.result, e.event.outcome.session), a.reply);
      after := Next(g, d, Send(worker, a.reply));
      RunOne(g, d, Send(worker, a.reply));
      verdict := Failed;
      if ok {
        bus.AckGlobalEvent(e.id, a.ackOk);
        RunTwo(g, d, Send(worker, a.reply), Ack(worker, a.ackOk));
        after := Next(g, after, Ack(worker, a.ackOk));
        verdict := if a.ackOk then Served else Failed;
      }
    }

    /** After the last failed attempt the event is acknowledged regardless. */
    method Surrender(bus: RedisMessageBus, client: HttpClient, g: Stream, e: Entry, lastAck: bool, ghost d: Group)
      returns (ghost after: Group)
      requires Matches(bus, client, d) && d.PhaseOf(worker) == Trying(e, maxRetries)
      modifies bus`pending, bus`acked
      ensures Run(g, d, [GiveUp(worker), Ack(worker, lastAck)]) == Some(after) && Matches(bus, client, after)
      ensures after.PhaseOf(worker).Waiting?
      ensures bus.acked == if lastAck then old(bus.acked) + {e.id} else old(bus.acked)
      ensures bus.pending == if lastAck then old(bus.pending) - {e.id} else old(bus.pending)
    {
      bus.AckGlobalEvent(e.id, lastAck);
      RunTwo(g, d, GiveUp(worker), Ack(worker, lastAck));
      after := Next(g, Next(g, d, GiveUp(worker)), Ack(worker, lastAck));
    }

    /** The retry loop of `_process_event`: until a success is acknowledged, the dispatcher is stopped, or the attempts
        are used up; with exponential backoff between failed attempts. */
    method Retry(bus: RedisMessageBus, client: HttpClient, g: Stream, e: Entry, script: seq<Attempt>, lastAck: bool,
                 ghost d: Group)
      returns (slept: nat, ghost after: Group)
      requires maxRetries <= |script| && !stopping && Matches(bus, client, d) && d.PhaseOf(worker) == Trying(e, 0)
      requires e.event.Ends? && CallbackIn(e).Some?
      modifies this`stopping, client, bus`pending, bus`acked
      ensures Run(g, d, LoopTrace(worker, maxRetries, 0, script, lastAck)) == Some(after) && Matches(bus, client, after)
      ensures after.PhaseOf(worker).Waiting?
      ensures slept == Slept(maxRetries, 0, script)
      ensures |client.posts| == |old(client.posts)| + Tries(maxRetries, 0, script)
      ensures var done := Acknowledged(maxRetries, script, lastAck);
              && bus.acked == (if done then old(bus.acked) + {e.id} else old(bus.acked))
              && bus.pending == if done then old(bus.pending) - {e.id} else old(bus.pending)
    {
      slept := 0;
      after := d;
      ghost var end := Run(g, d, LoopTrace(worker, maxRetries, 0, script, lastAck));
      ghost var sleeps, tries, sent := Slept(maxRetries, 0, script), Tries(maxRetries, 0, script), |client.posts|;
      ghost var acked, pending, failures := bus.acked, bus.pending, Failures(maxRetries, 0, script);
      for k := 0 to maxRetries
        invariant !stopping && Matches(bus, client, after) && after.PhaseOf(worker) == Trying(e, k)
        invariant end == Run(g, after, LoopTrace(worker, maxRetries, k, script, lastAck))
        invariant |client.posts| + Tries(maxRetries, k, script) == sent + tries
        invariant slept + Slept(maxRetries, k, script) == sleeps
        invariant bus.acked == acked && bus.pending == pending && k + Failures(maxRetries, k, script) == failures
      {
        var verdict;
        ghost var before := after;
        CountAt(maxRetries, k, script);
        DoneAt(maxRetries, k, script, lastAck);
        verdict, after := TryOnce(bus, client, g, e, k, script[k], after);
        RoundRun(g, before, worker, maxRetries, k, script, lastAck, after);
        if !verdict.Failed? {
          return;
        }
        if k < maxRetries - 1 {
          slept := slept + Pow2(k);
        }
      }
      DoneAt(maxRetries, maxRetries, script, lastAck);
      after := Surrender(bus, client, g, e, lastAck, after);
    }

    /** `_process_event`: an event without a callback is acknowledged at once, any other goes through the retry loop. */
    method ProcessEvent(bus: RedisMessageBus, client: HttpClient, g: Stream, e: Entry, script: seq<Attempt>,
                        lastAck: bool, ghost d: Group)
      returns (slept: nat, ghost after: Group)
      requires maxRetries <= |script| && !stopping && Matches(bus, client, d) && d.PhaseOf(worker) == Got(e)
               && e.event.Ends?
      modifies this`stopping, client, bus`pending, bus`acked
      ensures Run(g, d, EventTrace(worker, e, maxRetries, script, lastAck)) == Some(after)
              && Matches(bus, client, after)
      ensures after.PhaseOf(worker).Waiting?
      ensures CallbackIn(e).None? ==> slept == 0 && client.posts == old(client.posts)
      ensures var done := if CallbackIn(e).None? then lastAck else Acknowledged(maxRetries, script, lastAck);
              && bus.acked == (if done then old(bus.acked) + {e.id} else old(bus.acked))
              && bus.pending == if done then old(bus.pending) - {e.id} else old(bus.pending)
      ensures CallbackIn(e).Some? ==>
                && slept == Slept(maxRetries, 0, script)
                && |client.posts| == |old(client.posts)| + Tries(maxRetries, 0, script)
    {
      ghost var taken := Next(g, d, Take(worker));
      RunOne(g, d, Take(worker));
      if CallbackIn(e).None? {
        bus.AckGlobalEvent(e.id, lastAck);
        RunTwo(g, d, Take(worker), Ack(worker, lastAck));
        return 0, Next(g, taken, Ack(worker, lastAck));
      }
      slept, after := Retry(bus, client, g, e, script, lastAck, taken);
      RunAppend(g, d, [Take(worker)], taken, LoopTrace(worker, maxRetries, 0, script, lastAck));
    }

    /** One round of `start`: wait for an event, leave if stopped (the event stays pending), process it otherwise. */
    method HandleNext(bus: RedisMessageBus, client: HttpClient, g: Stream, v: Visit, ghost d: Group)
      returns (over: bool, ghost after: Group)
      requires maxRetries <= |v.attempts| && Matches(bus, client, d) && d.PhaseOf(worker).Waiting?
      requires g == bus.View().StreamAt(GLOBAL_STREAM) && Unread(g, d) != [] && Unread(g, d)[0].event.Ends?
      modifies this`stopping, client, bus`lastDelivered, bus`pending, bus`acked
      ensures over == (old(stopping) || v.stopped)
      ensures Run(g, d, VisitTrace(worker, Unread(g, d)[0], maxRetries, v, old(stopping))) == Some(after)
      ensures Matches(bus, client, after) && after.PhaseOf(worker) == if over then Away else Waiting
      ensures over ==> Unread(g, d)[0].id in bus.pending && client.posts == old(client.posts)
    {
      over := stopping || v.stopped;
      if v.stopped {
        StopEvent();
      }
      var e := bus.ConsumeGlobalEvent();
      ghost var got := Next(g, d, Read(worker));
      RunOne(g, d, Read(worker));
      if over {
        RunTwo(g, got, Stop(worker), Take(worker));
        RunAppend(g, d, [Read(worker)], got, [Stop(worker), Take(worker)]);
        after := Next(g, Next(g, got, Stop(worker)), Take(worker));
        return;
      }
      var slept;
      slept, after := ProcessEvent(bus, client, g, e, v.attempts, v.lastAck, got);
      RunAppend(g, d, [Read(worker)], got, EventTrace(worker, e, maxRetries, v.attempts, v.lastAck));
    }
  }
}
