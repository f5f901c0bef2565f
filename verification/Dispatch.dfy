/** The consuming half of the pipeline as a state machine: any number of dispatcher workers read the global stream
    through one consumer group, POST to callbacks, retry, and acknowledge. */
module Dispatch {
  import opened Prelude
  import opened Messages
  import opened Streams

  datatype AckWhy = NoCallback | Delivered | Exhausted

  /** Where a worker stands. `tried` counts the POST attempts already made for the entry. */
  datatype Phase =
    | Away
    | Waiting
    | Got(e: Entry)
    | Trying(e: Entry, tried: nat)
    | Acking(e: Entry, why: AckWhy, tried: nat)

  datatype Delivery = Delivery(worker: string, id: nat)

  /** What a callback receives: the outcome without the request, under its session. */
  datatype Body = Body(result: RunResult, session: Option<string>)

  /** The answer to one POST; a refused connection counts as any other failure. */
  datatype Reply = Status(code: int) | RequestError

  predicate Success(r: Reply) {
    r.Status? && 200 <= r.code < 300
  }

  datatype Post = Post(entry: Entry, url: string, body: Body, reply: Reply)

  /** The consumer group (`lastDelivered`, `pending`) and the workers, with the history of what was read by whom,
      acknowledged and posted. `ackErrors` lists the entries whose acknowledgement failed after a successful POST. */
  datatype Group = Group(
    maxRetries: nat,
    lastDelivered: nat,
    pending: set<nat>,
    acked: set<nat>,
    deliveries: seq<Delivery>,
    phases: map<string, Phase>,
    stopping: set<string>,
    posts: seq<Post>,
    ackErrors: seq<nat>)
  {
    function PhaseOf(w: string): Phase {
      if w in phases then phases[w] else Away
    }
  }

  function Fresh(maxRetries: nat): Group {
    Group(maxRetries, 0, {}, {}, [], map[], {}, [], [])
  }

  datatype Action =
    | Start(worker: string)
    | Read(worker: string)
    | Take(worker: string)
    | Send(worker: string, reply: Reply)
    | Abandon(worker: string)
    | GiveUp(worker: string)
    | Ack(worker: string, ok: bool)
    | Stop(worker: string)
    | Crash(worker: string)

  function Unread(g: Stream, d: Group): seq<Entry> {
    After(g.live, d.lastDelivered)
  }

  function CallbackIn(e: Entry): Option<string> {
    if e.event.Ends? then CallbackOf(e.event.outcome.request) else None
  }

  predicate Enabled(g: Stream, d: Group, x: Action) {
    var p := d.PhaseOf(x.worker);
    match x
    case Start(_) => p.Away?
    case Read(_) => p.Waiting? && Unread(g, d) != []
    case Take(_) => p.Got?
    case Send(w, _) =>
      p.Trying? && p.tried < d.maxRetries && w !in d.stopping && CallbackIn(p.e).Some? && p.e.event.Ends?
    case Abandon(w) => p.Trying? && p.tried < d.maxRetries && w in d.stopping
    case GiveUp(_) => p.Trying? && p.tried >= d.maxRetries
    case Ack(_, _) => p.Acking?
    case Stop(_) => true
    case Crash(_) => !p.Away?
  }

  function SetPhase(d: Group, w: string, p: Phase): Group {
    d.(phases := d.phases[w := p])
  }

  /** After a failed acknowledgement: inside the retry loop the exception counts as a failed attempt, outside it
      leaves the entry behind. */
  function OnAckError(p: Phase): Phase
    requires p.Acking?
  {
    if p.why.Delivered? then Trying(p.e, p.tried) else Waiting
  }

  function Next(g: Stream, d: Group, x: Action): Group
    requires Enabled(g, d, x)
  {
    var w := x.worker;
    var p := d.PhaseOf(w);
    match x
    case Start(_) => SetPhase(d, w, Waiting).(stopping := d.stopping - {w})
    case Read(_) =>
      var e := Unread(g, d)[0];
      SetPhase(d, w, Got(e))
        .(lastDelivered := e.id, pending := d.pending + {e.id}, deliveries := d.deliveries + [Delivery(w, e.id)])
    case Take(_) =>
      SetPhase(d, w, if w in d.stopping then Away
                     else if CallbackIn(p.e).None? then Acking(p.e, NoCallback, 0)
                     else Trying(p.e, 0))
    case Send(_, reply) =>
      var o := p.e.event.outcome;
      SetPhase(d, w, if Success(reply) then Acking(p.e, Delivered, p.tried + 1) else Trying(p.e, p.tried + 1))
        .(posts := d.posts + [Post(p.e, CallbackIn(p.e).value, Body(o.result, o.session), reply)])
    case Abandon(_) => SetPhase(d, w, Waiting)
    case GiveUp(_) => SetPhase(d, w, Acking(p.e, Exhausted, p.tried))
    case Ack(_, ok) =>
      if ok then SetPhase(d, w, Waiting).(pending := d.pending - {p.e.id}, acked := d.acked + {p.e.id})
      else SetPhase(d, w, OnAckError(p)).(ackErrors := if p.why.Delivered? then d.ackErrors + [p.e.id] else d.ackErrors)
    case Stop(_) => d.(stopping := d.stopping + {w})
    case Crash(_) => SetPhase(d, w, Away)
  }

  // ---- Counting ----

  function Attempts(posts: seq<Post>, id: nat): nat {
    if posts == [] then 0
    else Attempts(posts[..|posts| - 1], id) + if Last(posts).entry.id == id then 1 else 0
  }

  function Successes(posts: seq<Post>, id: nat): nat {
    if posts == [] then 0
    else Successes(posts[..|posts| - 1], id) + if Last(posts).entry.id == id && Success(Last(posts).reply) then 1 else 0
  }

  function Errors(ids: seq<nat>, id: nat): nat {
    if ids == [] then 0
    else Errors(ids[..|ids| - 1], id) + if Last(ids) == id then 1 else 0
  }

  lemma CountPost(posts: seq<Post>, p: Post, id: nat)
    ensures Attempts(posts + [p], id) == Attempts(posts, id) + if p.entry.id == id then 1 else 0
    ensures Successes(posts + [p], id) == Successes(posts, id) + if p.entry.id == id && Success(p.reply) then 1 else 0
  {
    assert (posts + [p])[..|posts|] == posts;
  }

  lemma CountError(ids: seq<nat>, x: nat, id: nat)
    ensures Errors(ids + [x], id) == Errors(ids, id) + if x == id then 1 else 0
  {
    assert (ids + [x])[..|ids|] == ids;
  }

  // ---- What every step keeps ----

  predicate Holds(g: Stream, d: Group, w: string, e: Entry) {
    e in g.Log() && e.id in d.pending && Delivery(w, e.id) in d.deliveries
  }

  /** The counts agree with where the worker is in the retry loop. */
  predicate WorkerOk(g: Stream, d: Group, w: string, p: Phase) {
    match p
    case Away => true
    case Waiting => true
    case Got(e) =>
      && Holds(g, d, w, e) && Attempts(d.posts, e.id) == 0
      && Successes(d.posts, e.id) == Errors(d.ackErrors, e.id) == 0
    case Trying(e, k) =>
      && Holds(g, d, w, e) && CallbackIn(e).Some? && k <= d.maxRetries
      && Attempts(d.posts, e.id) == k && Successes(d.posts, e.id) == Errors(d.ackErrors, e.id)
    case Acking(e, why, k) =>
      && Holds(g, d, w, e) && k <= d.maxRetries && Attempts(d.posts, e.id) == k
      && Successes(d.posts, e.id) == Errors(d.ackErrors, e.id) + (if why.Delivered? then 1 else 0)
      && (why.NoCallback? ==> CallbackIn(e).None?)
      && (why.Exhausted? ==> k == d.maxRetries)
  }

  ghost predicate WorkersOk(g: Stream, d: Group) {
    forall w :: WorkerOk(g, d, w, d.PhaseOf(w))
  }

  predicate CountsOk(d: Group, id: nat) {
    && Attempts(d.posts, id) <= d.maxRetries
    && Successes(d.posts, id) <= Errors(d.ackErrors, id) + 1
    && (id > d.lastDelivered ==> Attempts(d.posts, id) == Successes(d.posts, id) == Errors(d.ackErrors, id) == 0)
  }

  ghost predicate AllCountsOk(d: Group) {
    forall id: nat :: CountsOk(d, id)
  }

  /** An acknowledged entry had no callback, was delivered, or used up its attempts. */
  predicate AckedOk(d: Group, e: Entry) {
    e.id in d.acked ==> CallbackIn(e).None? || Successes(d.posts, e.id) > 0 || Attempts(d.posts, e.id) == d.maxRetries
  }

  predicate PostOk(g: Stream, p: Post) {
    && p.entry in g.Log() && p.entry.event.Ends?
    && CallbackOf(p.entry.event.outcome.request) == Some(p.url)
    && p.body == Body(p.entry.event.outcome.result, p.entry.event.outcome.session)
  }

  predicate HistoryOk(g: Stream, d: Group) {
    && (forall e :: e in g.Log() ==> AckedOk(d, e))
    && (forall p :: p in d.posts ==> PostOk(g, p))
  }

  predicate DeliveriesOk(d: Group) {
    && (forall i, j :: 0 <= i < j < |d.deliveries| ==> d.deliveries[i].id < d.deliveries[j].id)
    && (forall x :: x in d.deliveries ==> x.id <= d.lastDelivered && x.id in d.pending + d.acked)
    && d.pending !! d.acked
    && (forall id :: id in d.pending + d.acked ==> id <= d.lastDelivered)
  }

  /** Whatever Redis still holds up to the last delivered entry has been delivered. */
  predicate LiveOk(g: Stream, d: Group) {
    && d.lastDelivered <= LastId(g.Log())
    && forall i :: |g.trimmed| <= i < |g.Log()| && g.Log()[i].id <= d.lastDelivered ==>
       g.Log()[i].id in d.pending + d.acked
  }

  ghost predicate Inv(g: Stream, d: Group) {
    g.Valid() && WorkersOk(g, d) && AllCountsOk(d) && HistoryOk(g, d) && DeliveriesOk(d) && LiveOk(g, d)
  }

  lemma FreshInv(g: Stream, maxRetries: nat)
    requires g.Valid()
    ensures Inv(g, Fresh(maxRetries))
  {
  }

  lemma HoldersDiffer(g: Stream, d: Group, w: string, e: Entry, w': string, e': Entry)
    requires DeliveriesOk(d) && Holds(g, d, w, e) && Holds(g, d, w', e') && w != w'
    ensures e.id != e'.id
  {
    var i :| 0 <= i < |d.deliveries| && d.deliveries[i] == Delivery(w, e.id);
    var j :| 0 <= j < |d.deliveries| && d.deliveries[j] == Delivery(w', e'.id);
    assert i != j;
    if i < j {
      assert d.deliveries[i].id < d.deliveries[j].id;
    } else {
      assert d.deliveries[j].id < d.deliveries[i].id;
    }
  }

  // ---- Steps that only move one worker ----

  lemma MoveKeeps(g: Stream, d: Group, w: string, p: Phase, d': Group)
    requires Inv(g, d) && WorkerOk(g, d, w, p)
    requires d' == d.(phases := d.phases[w := p], stopping := d'.stopping)
    ensures Inv(g, d')
  {
    forall v
      ensures WorkerOk(g, d', v, d'.PhaseOf(v))
    {
      assert WorkerOk(g, d, v, d.PhaseOf(v));
    }
    forall id: nat
      ensures CountsOk(d', id)
    {
      assert CountsOk(d, id);
    }
    forall e | e in g.Log()
      ensures AckedOk(d', e)
    {
      assert AckedOk(d, e);
    }
  }

  lemma StopKeeps(g: Stream, d: Group, w: string)
    requires Inv(g, d)
    ensures Inv(g, Next(g, d, Stop(w)))
  {
    var d' := Next(g, d, Stop(w));
    forall v
      ensures WorkerOk(g, d', v, d'.PhaseOf(v))
    {
      assert WorkerOk(g, d, v, d.PhaseOf(v));
    }
    forall id: nat
      ensures CountsOk(d', id)
    {
      assert CountsOk(d, id);
    }
    forall e | e in g.Log()
      ensures AckedOk(d', e)
    {
      assert AckedOk(d, e);
    }
  }

  // ---- Read ----

  lemma ReadKeeps(g: Stream, d: Group, w: string)
    requires Inv(g, d) && Enabled(g, d, Read(w))
    ensures Inv(g, Next(g, d, Read(w)))
  {
    var d', e := Next(g, d, Read(w)), Unread(g, d)[0];
    UnreadEntry(g, d);
    ReadDelivers(d, w, e.id, d');
    ReadWorkers(g, d, w, e, d');
    forall id: nat
      ensures CountsOk(d', id)
    {
      assert CountsOk(d, id);
    }
    forall x | x in g.Log()
      ensures AckedOk(d', x)
    {
      assert AckedOk(d, x);
    }
    ReadLive(g, d, e, d');
  }

  lemma ReadWorkers(g: Stream, d: Group, w: string, e: Entry, d': Group)
    requires WorkersOk(g, d) && CountsOk(d, e.id) && e in g.Log() && e.id > d.lastDelivered
    requires d' == SetPhase(d, w, Got(e))
                   .(lastDelivered := e.id, pending := d.pending + {e.id},
                     deliveries := d.deliveries + [Delivery(w, e.id)])
    ensures WorkersOk(g, d')
  {
    forall v
      ensures WorkerOk(g, d', v, d'.PhaseOf(v))
    {
      assert WorkerOk(g, d, v, d.PhaseOf(v));
      if v == w {
        assert d'.deliveries[|d.deliveries|] == Delivery(w, e.id);
      }
    }
  }

  /** An entry that is handed out is neither pending nor acknowledged yet. */
  lemma ReadDelivers(d: Group, w: string, id: nat, d': Group)
    requires DeliveriesOk(d) && id > d.lastDelivered
    requires d'.deliveries == d.deliveries + [Delivery(w, id)] && d'.lastDelivered == id
    requires d'.pending == d.pending + {id} && d'.acked == d.acked
    ensures DeliveriesOk(d')
  {
    assert id !in d.pending + d.acked;
  }

  lemma UnreadEntry(g: Stream, d: Group)
    requires g.Valid() && Unread(g, d) != []
    ensures var e := Unread(g, d)[0]; e in g.Log() && e.id > d.lastDelivered && e.id <= LastId(g.Log())
  {
    var k := Passed(g.live, d.lastDelivered);
    var i := |g.trimmed| + k;
    assert g.Log()[i] == g.live[k];
    Ordered(g.Log(), i, |g.Log()| - 1);
  }

  lemma ReadLive(g: Stream, d: Group, e: Entry, d': Group)
    requires g.Valid() && LiveOk(g, d) && Unread(g, d) != [] && e == Unread(g, d)[0] && e.id <= LastId(g.Log())
    requires d'.lastDelivered == e.id && d'.pending == d.pending + {e.id} && d'.acked == d.acked
    ensures LiveOk(g, d')
  {
    var k := |g.trimmed| + Passed(g.live, d.lastDelivered);
    assert g.Log()[k] == e;
    forall i | |g.trimmed| <= i < |g.Log()| && g.Log()[i].id <= e.id
      ensures g.Log()[i].id in d'.pending + d'.acked
    {
      Ordered(g.Log(), k, i);
      if i < k {
        assert g.Log()[k - 1] == g.live[Passed(g.live, d.lastDelivered) - 1];
        Ordered(g.Log(), i, k - 1);
      }
    }
  }

  // ---- Send ----

  lemma SendWorkers(g: Stream, d: Group, w: string, reply: Reply)
    requires Inv(g, d) && Enabled(g, d, Send(w, reply))
    ensures WorkersOk(g, Next(g, d, Send(w, reply)))
  {
    var d', e := Next(g, d, Send(w, reply)), d.PhaseOf(w).e;
    var post := Last(d'.posts);
    assert WorkerOk(g, d, w, d.PhaseOf(w));
    assert d'.posts == d.posts + [post] && post.entry == e;
    forall v
      ensures WorkerOk(g, d', v, d'.PhaseOf(v))
    {
      var p := d.PhaseOf(v);
      assert WorkerOk(g, d, v, p);
      if p.Got? || p.Trying? || p.Acking? {
        CountPost(d.posts, post, p.e.id);
        if v != w {
          HoldersDiffer(g, d, w, e, v, p.e);
        }
      }
    }
  }

  lemma SendKeeps(g: Stream, d: Group, w: string, reply: Reply)
    requires Inv(g, d) && Enabled(g, d, Send(w, reply))
    ensures Inv(g, Next(g, d, Send(w, reply)))
  {
    var d', e := Next(g, d, Send(w, reply)), d.PhaseOf(w).e;
    var post := Last(d'.posts);
    SendWorkers(g, d, w, reply);
    assert WorkerOk(g, d, w, d.PhaseOf(w));
    assert d'.posts == d.posts + [post];
    forall id: nat
      ensures CountsOk(d', id)
    {
      assert CountsOk(d, id);
      CountPost(d.posts, post, id);
    }
    forall x | x in g.Log()
      ensures AckedOk(d', x)
    {
      assert AckedOk(d, x);
      CountPost(d.posts, post, x.id);
    }
    assert PostOk(g, post);
  }

  // ---- Ack ----

  lemma SameId(log: seq<Entry>, e: Entry, e': Entry)
    requires Increasing(log) && e in log && e' in log && e.id == e'.id
    ensures e == e'
  {
    var i :| 0 <= i < |log| && log[i] == e;
    var j :| 0 <= j < |log| && log[j] == e';
    Ordered(log, i, j);
    Ordered(log, j, i);
  }

  lemma AckKeeps(g: Stream, d: Group, w: string)
    requires Inv(g, d) && Enabled(g, d, Ack(w, true))
    ensures Inv(g, Next(g, d, Ack(w, true)))
  {
    var d', e := Next(g, d, Ack(w, true)), d.PhaseOf(w).e;
    assert WorkerOk(g, d, w, d.PhaseOf(w));
    forall v
      ensures WorkerOk(g, d', v, d'.PhaseOf(v))
    {
      var p := d.PhaseOf(v);
      assert WorkerOk(g, d, v, p);
      if v != w && (p.Got? || p.Trying? || p.Acking?) {
        HoldersDiffer(g, d, w, e, v, p.e);
      }
    }
    forall id: nat
      ensures CountsOk(d', id)
    {
      assert CountsOk(d, id);
    }
    forall x | x in g.Log()
      ensures AckedOk(d', x)
    {
      assert AckedOk(d, x);
      if x.id == e.id {
        SameId(g.Log(), x, e);
      }
    }
    AckMoves(g, d, e.id, d');
  }

  lemma AckMoves(g: Stream, d: Group, id: nat, d': Group)
    requires DeliveriesOk(d) && LiveOk(g, d) && id in d.pending
    requires d'.pending == d.pending - {id} && d'.acked == d.acked + {id}
    requires d'.deliveries == d.deliveries && d'.lastDelivered == d.lastDelivered
    ensures DeliveriesOk(d') && LiveOk(g, d')
  {
    assert d'.pending + d'.acked == d.pending + d.acked;
  }

  lemma AckErrorWorkers(g: Stream, d: Group, w: string)
    requires Inv(g, d) && Enabled(g, d, Ack(w, false)) && d.PhaseOf(w).why.Delivered?
    ensures WorkersOk(g, Next(g, d, Ack(w, false)))
  {
    var d', e := Next(g, d, Ack(w, false)), d.PhaseOf(w).e;
    assert WorkerOk(g, d, w, d.PhaseOf(w));
    assert d'.ackErrors == d.ackErrors + [e.id];
    forall v
      ensures WorkerOk(g, d', v, d'.PhaseOf(v))
    {
      var p := d.PhaseOf(v);
      assert WorkerOk(g, d, v, p);
      if p.Got? || p.Trying? || p.Acking? {
        CountError(d.ackErrors, e.id, p.e.id);
        if v != w {
          HoldersDiffer(g, d, w, e, v, p.e);
        } else {
          AckErrorCallback(g, d, w);
        }
      }
    }
  }

  /** An entry that was posted has a callback. */
  lemma AckErrorCallback(g: Stream, d: Group, w: string)
    requires Inv(g, d) && Enabled(g, d, Ack(w, false)) && d.PhaseOf(w).why.Delivered?
    ensures CallbackIn(d.PhaseOf(w).e).Some?
  {
    var e := d.PhaseOf(w).e;
    assert WorkerOk(g, d, w, d.PhaseOf(w));
    var p := PostedEntry(d.posts, e.id);
    assert PostOk(g, p);
    SameId(g.Log(), p.entry, e);
  }

  lemma PostedEntry(posts: seq<Post>, id: nat) returns (p: Post)
    requires Successes(posts, id) > 0
    ensures p in posts && p.entry.id == id && Success(p.reply)
  {
    p := Last(posts);
    if !(p.entry.id == id && Success(p.reply)) {
      p := PostedEntry(posts[..|posts| - 1], id);
    }
  }

  lemma AckErrorKeeps(g: Stream, d: Group, w: string)
    requires Inv(g, d) && Enabled(g, d, Ack(w, false))
    ensures Inv(g, Next(g, d, Ack(w, false)))
  {
    var d', e := Next(g, d, Ack(w, false)), d.PhaseOf(w).e;
    assert WorkerOk(g, d, w, d.PhaseOf(w));
    if d.PhaseOf(w).why.Delivered? {
      AckErrorWorkers(g, d, w);
      forall id: nat
        ensures CountsOk(d', id)
      {
        assert CountsOk(d, id);
        CountError(d.ackErrors, e.id, id);
        HeldIsDelivered(g, d, w, e);
      }
      forall x | x in g.Log()
        ensures AckedOk(d', x)
      {
        assert AckedOk(d, x);
      }
    } else {
      MoveKeeps(g, d, w, Waiting, d');
    }
  }

  lemma HeldIsDelivered(g: Stream, d: Group, w: string, e: Entry)
    requires DeliveriesOk(d) && Holds(g, d, w, e)
    ensures e.id <= d.lastDelivered
  {
  }

  /** Every step of every worker keeps the invariant. */
  lemma StepKeeps(g: Stream, d: Group, x: Action)
    requires Inv(g, d) && Enabled(g, d, x)
    ensures Inv(g, Next(g, d, x))
  {
    var w := x.worker;
    var p, d' := d.PhaseOf(w), Next(g, d, x);
    assert WorkerOk(g, d, w, p);
    match x
    case Start(_) => MoveKeeps(g, d, w, Waiting, d');
    case Read(_) => ReadKeeps(g, d, w);
    case Take(_) => MoveKeeps(g, d, w, d'.PhaseOf(w), d');
    case Send(_, reply) => SendKeeps(g, d, w, reply);
    case Abandon(_) => MoveKeeps(g, d, w, Waiting, d');
    case GiveUp(_) => MoveKeeps(g, d, w, d'.PhaseOf(w), d');
    case Ack(_, ok) => if ok { AckKeeps(g, d, w); } else { AckErrorKeeps(g, d, w); }
    case Stop(_) => StopKeeps(g, d, w);
    case Crash(_) => MoveKeeps(g, d, w, Away, d');
  }

  // ---- The stream grows under the workers ----

  lemma GrowthKeeps(g: Stream, d: Group, g': Stream)
    requires Inv(g, d) && Grows(g, g') && g'.Valid()
    requires forall i :: |g.Log()| <= i < |g'.Log()| ==> g'.Log()[i].id > LastId(g.Log())
    ensures Inv(g', d)
  {
    forall e | e in g.Log()
      ensures e in g'.Log()
    {
      var i :| 0 <= i < |g.Log()| && g.Log()[i] == e;
      assert g'.Log()[i] == e;
    }
    forall w
      ensures WorkerOk(g', d, w, d.PhaseOf(w))
    {
      assert WorkerOk(g, d, w, d.PhaseOf(w));
    }
    forall p | p in d.posts
      ensures PostOk(g', p)
    {
      assert PostOk(g, p);
    }
    forall e | e in g'.Log()
      ensures AckedOk(d, e)
    {
      var i :| 0 <= i < |g'.Log()| && g'.Log()[i] == e;
      if i < |g.Log()| {
        assert g.Log()[i] == e && AckedOk(d, e);
      }
    }
    GrowthLive(g, d, g');
  }

  lemma GrowthLive(g: Stream, d: Group, g': Stream)
    requires LiveOk(g, d) && Grows(g, g') && g'.Valid()
    requires forall i :: |g.Log()| <= i < |g'.Log()| ==> g'.Log()[i].id > LastId(g.Log())
    ensures LiveOk(g', d)
  {
    var log, log' := g.Log(), g'.Log();
    if log != [] {
      assert log'[|log| - 1] == Last(log);
      Ordered(log', |log| - 1, |log'| - 1);
    }
    forall i | |g'.trimmed| <= i < |log'| && log'[i].id <= d.lastDelivered
      ensures log'[i].id in d.pending + d.acked
    {
      assert i < |log|;
      assert log[i] == log'[i];
    }
  }
}
