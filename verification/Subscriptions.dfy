/** Server-sent events: the loop of `subscribe_events`, the SSE route around it, and what a client that keeps
    reconnecting with the last id it received has seen in the end. */
module Subscriptions {
  import opened Prelude
  import opened Messages
  import opened Streams

  /** XREAD of everything beyond the cursor that the stream still holds. */
  function XRead(s: Stream, cursor: nat): seq<Entry> {
    After(s.live, cursor)
  }

  /** Successive views of one growing stream, as the XREAD calls of a subscription find it. */
  ghost predicate Chain(views: seq<Stream>) {
    && (forall i :: 0 <= i < |views| ==> views[i].Valid())
    && (forall i, j :: 0 <= i <= j < |views| ==> Grows(views[i], views[j]))
  }

  /** What the XREADs return if nobody stops at a final event. */
  function Reads(views: seq<Stream>, cursor: nat): seq<Entry> {
    if views == [] then []
    else
      var batch := XRead(views[0], cursor);
      batch + Reads(views[1..], CursorAfter(cursor, batch))
  }

  /** A turn: everything through the first done or error. */
  function Turn(es: seq<Entry>): (t: seq<Entry>)
    ensures t <= es && (es != [] ==> t != [])
  {
    if es == [] then []
    else if es[0].event.Ends? then [es[0]]
    else [es[0]] + Turn(es[1..])
  }

  /** What a subscriber receives of `es` if it takes at most `want` entries: it stops at the first final event. */
  function Yield(es: seq<Entry>, want: nat): seq<Entry> {
    if es == [] || want == 0 then []
    else if es[0].event.Ends? then [es[0]]
    else [es[0]] + Yield(es[1..], want - 1)
  }

  /** `out` is `es` up to the first final event or the first `want` entries, whichever comes first. */
  predicate Stops(out: seq<Entry>, es: seq<Entry>, want: nat) {
    && out <= es && |out| <= want && (forall i :: 0 <= i < |out| - 1 ==> !out[i].event.Ends?)
    && (out == es || |out| == want || (out != [] && Last(out).event.Ends?))
  }

  lemma YieldShape(es: seq<Entry>, want: nat)
    ensures var out := Yield(es, want);
            out <= es && |out| <= want && forall i :: 0 <= i < |out| - 1 ==> !out[i].event.Ends?
  {
  }

  lemma YieldEnds(es: seq<Entry>, want: nat)
    ensures var out := Yield(es, want); out == es || |out| == want || (out != [] && Last(out).event.Ends?)
  {
    if es != [] && want > 0 && !es[0].event.Ends? {
      YieldEnds(es[1..], want - 1);
      var out, rest := Yield(es, want), Yield(es[1..], want - 1);
      assert out == [es[0]] + rest && es == [es[0]] + es[1..];
      assert rest != [] ==> Last(out) == Last(rest);
    }
  }

  lemma YieldStops(es: seq<Entry>, want: nat)
    ensures Stops(Yield(es, want), es, want)
  {
    YieldShape(es, want);
    YieldEnds(es, want);
  }

  lemma YieldIsTurnPrefix(es: seq<Entry>, want: nat)
    ensures Yield(es, want) == Turn(es)[..Min(want, |Turn(es)|)]
  {
    if es != [] && want > 0 && !es[0].event.Ends? {
      YieldIsTurnPrefix(es[1..], want - 1);
    }
  }

  /** What one subscription delivers. */
  function Deliver(views: seq<Stream>, cursor: nat, want: nat): seq<Entry> {
    Yield(Reads(views, cursor), want)
  }

  /** Namely what the reads return, up to the first final event or the first `want` entries. */
  lemma DeliveryStops(views: seq<Stream>, cursor: nat, want: nat)
    ensures Stops(Deliver(views, cursor, want), Reads(views, cursor), want)
  {
    YieldStops(Reads(views, cursor), want);
  }

  lemma NextView(views: seq<Stream>, i: nat, cursor: nat)
    requires i < |views|
    ensures var batch := XRead(views[i], cursor);
            Reads(views[i..], cursor) == batch + Reads(views[i + 1..], CursorAfter(cursor, batch))
  {
    assert views[i..][1..] == views[i + 1..];
  }

  lemma NextEntry(all: seq<Entry>, out: seq<Entry>, tail: seq<Entry>, want: nat)
    requires tail != [] && |out| < want && all == out + Yield(tail, want - |out|)
    ensures var out' := out + [tail[0]];
            if tail[0].event.Ends? || |out'| == want then all == out' else all == out' + Yield(tail[1..], want - |out'|)
  {
  }

  lemma DropFirst(batch: seq<Entry>, j: nat, rest: seq<Entry>)
    requires j < |batch|
    ensures (batch[j..] + rest)[0] == batch[j] && (batch[j..] + rest)[1..] == batch[j + 1..] + rest
  {
  }

  /** One entry of a batch is yielded. */
  lemma YieldNext(all: seq<Entry>, out: seq<Entry>, batch: seq<Entry>, j: nat, rest: seq<Entry>, want: nat)
    requires j < |batch| && |out| < want && all == out + Yield(batch[j..] + rest, want - |out|)
    ensures var out' := out + [batch[j]];
            if batch[j].event.Ends? || |out'| == want then all == out'
            else all == out' + Yield(batch[j + 1..] + rest, want - |out'|)
  {
    DropFirst(batch, j, rest);
    NextEntry(all, out, batch[j..] + rest, want);
  }

  /** The entries of one batch, one by one, the cursor moving with each: until the last of them, a final event, or the
      last that the consumer takes. */
  method YieldBatch(batch: seq<Entry>, last: nat, taken: seq<Entry>, want: nat, ghost all: seq<Entry>,
                    ghost rest: seq<Entry>)
    returns (out: seq<Entry>, cursor: nat, over: bool)
    requires |taken| < want && all == taken + Yield(batch + rest, want - |taken|)
    ensures over ==> out == all
    ensures !over ==> |out| < want && cursor == CursorAfter(last, batch) && all == out + Yield(rest, want - |out|)
  {
    out, cursor := taken, last;
    assert batch[0..] == batch;
    for j := 0 to |batch|
      invariant |out| < want && all == out + Yield(batch[j..] + rest, want - |out|)
      invariant cursor == CursorAfter(last, batch[..j])
    {
      YieldNext(all, out, batch, j, rest, want);
      cursor := batch[j].id;
      out := out + [batch[j]];
      if |out| == want || batch[j].event.Ends? {
        return out, cursor, true;
      }
    }
    assert batch[..|batch|] == batch && batch[|batch|..] + rest == rest;
    over := false;
  }

  /** `subscribe_events`: the generator reads past its cursor, yields entry by entry, moves the cursor with each,
      and returns after the first final event. `want` is how many events the consumer takes before it closes
      the generator. */
  method SubscribeEvents(views: seq<Stream>, lastId: nat, want: nat) returns (out: seq<Entry>)
    ensures out == Deliver(views, lastId, want)
  {
    out := [];
    if want == 0 {
      return;
    }
    var cursor := lastId;
    ghost var all := Deliver(views, lastId, want);
    assert views[0..] == views;
    for i := 0 to |views|
      invariant |out| < want && all == out + Yield(Reads(views[i..], cursor), want - |out|)
    {
      NextView(views, i, cursor);
      var batch, over := XRead(views[i], cursor), false;
      ghost var rest := Reads(views[i + 1..], CursorAfter(cursor, batch));
      out, cursor, over := YieldBatch(batch, cursor, out, want, all, rest);
      if over {
        return;
      }
    }
  }

  /** The SSE route pulls one event at a time and checks the connection before it sends: a client that goes away
      before event number `gone` loses the event already pulled. */
  method StreamChat(views: seq<Stream>, lastEventId: nat, gone: nat) returns (sent: seq<Entry>)
    ensures sent == Deliver(views, lastEventId, gone)
  {
    var events := SubscribeEvents(views, lastEventId, gone + 1);
    ghost var all := Reads(views, lastEventId);
    YieldShorter(all, gone);
    YieldShape(all, gone + 1);
    sent := [];
    for i := 0 to |events|
      invariant sent == events[..i] && i <= gone
      invariant i > 0 && events[i - 1].event.Ends? ==> i == |events|
    {
      if i == gone {
        break;
      }
      sent := sent + [events[i]];
      if events[i].event.Ends? {
        break;
      }
    }
  }

  lemma YieldShorter(es: seq<Entry>, want: nat)
    ensures var all := Yield(es, want + 1); Yield(es, want) == all[..Min(want, |all|)]
  {
    YieldIsTurnPrefix(es, want);
    YieldIsTurnPrefix(es, want + 1);
  }

  // ---- One subscription reads one contiguous piece of the log ----

  /** Whenever the loop reads, nothing beyond its cursor has been trimmed away. */
  ghost predicate Retained(views: seq<Stream>, cursor: nat)
    decreases |views|
  {
    views == [] ||
    (After(views[0].trimmed, cursor) == [] && Retained(views[1..], CursorAfter(cursor, XRead(views[0], cursor))))
  }

  lemma TrimmedIsSkipped(views: seq<Stream>, cursor: nat, x: Entry)
    requires Chain(views)
    requires forall v :: v in views ==> x in v.trimmed
    ensures x !in Reads(views, cursor)
  {
    if views != [] {
      var v := views[0];
      var k :| 0 <= k < |v.trimmed| && v.trimmed[k] == x;
      forall i | 0 <= i < |v.live|
        ensures v.live[i] != x
      {
        assert v.Log()[k] == x && v.Log()[|v.trimmed| + i] == v.live[i];
        Ordered(v.Log(), k, |v.trimmed| + i);
      }
      TrimmedIsSkipped(views[1..], CursorAfter(cursor, XRead(v, cursor)), x);
    }
  }

  lemma TrimmedStays(s: Stream, s': Stream)
    requires Grows(s, s')
    ensures forall x :: x in s.trimmed ==> x in s'.trimmed
  {
    forall k | 0 <= k < |s.trimmed|
      ensures s.trimmed[k] == s'.trimmed[k]
    {
      assert s.Log()[k] == s'.Log()[k];
    }
  }

  lemma FinalLog(views: seq<Stream>)
    requires Chain(views) && views != []
    ensures views[0].Log() <= Last(views).Log() && Increasing(Last(views).Log())
    ensures Chain(views[1..])
  {
    assert Grows(views[0], Last(views));
  }

  lemma SameAfter(a: seq<Entry>, b: seq<Entry>, c: seq<Entry>)
    ensures a + b == a + c <==> b == c
  {
    if a + b == a + c {
      assert b == (a + b)[|a|..] && c == (a + c)[|a|..];
    }
  }

  lemma TailIsChain(views: seq<Stream>, rest: seq<Stream>)
    requires Chain(views) && |views| > 1 && rest == views[1..]
    ensures Chain(rest) && rest != [] && Last(rest) == Last(views)
  {
    assert forall i :: 0 <= i < |rest| ==> rest[i] == views[i + 1];
  }

  /** If the first read misses nothing, what remains is for the others. */
  lemma RestIsContiguous(views: seq<Stream>, cursor: nat, log: seq<Entry>, c: nat)
    requires Chain(views) && |views| > 1 && After(views[0].trimmed, cursor) == [] && log == Last(views).Log()
    requires c == CursorAfter(cursor, XRead(views[0], cursor))
    ensures Reads(views, cursor) == After(log, cursor) <==> Reads(views[1..], c) == After(log, c)
    ensures Retained(views, cursor) <==> Retained(views[1..], c)
  {
    FinalLog(views);
    FirstRead(views[0], log, cursor);
    SameAfter(XRead(views[0], cursor), Reads(views[1..], c), After(log, c));
  }

  /** What the reads return is exactly the log beyond the starting cursor, in order, without gap or duplicate,
      precisely when no unread entry was trimmed. */
  lemma {:induction false} ReadsAreContiguous(views: seq<Stream>, cursor: nat)
    requires Chain(views) && views != []
    ensures Retained(views, cursor) <==> Reads(views, cursor) == After(Last(views).Log(), cursor)
    decreases |views|
  {
    if After(views[0].trimmed, cursor) != [] {
      LostEntry(views, cursor);
    } else if |views| == 1 {
      OneRead(views, cursor);
    } else {
      var c, rest := CursorAfter(cursor, XRead(views[0], cursor)), views[1..];
      TailIsChain(views, rest);
      RestIsContiguous(views, cursor, Last(views).Log(), c);
      ReadsAreContiguous(rest, c);
    }
  }

  lemma OneRead(views: seq<Stream>, cursor: nat)
    requires Chain(views) && |views| == 1 && After(views[0].trimmed, cursor) == []
    ensures Retained(views, cursor) && Reads(views, cursor) == After(Last(views).Log(), cursor)
  {
    AfterAppend(views[0].trimmed, views[0].live, cursor);
    assert Reads(views[1..], CursorAfter(cursor, XRead(views[0], cursor))) == [];
  }

  lemma FirstRead(v: Stream, log: seq<Entry>, cursor: nat)
    requires v.Log() <= log && Increasing(log) && After(v.trimmed, cursor) == []
    ensures var batch := XRead(v, cursor); After(log, cursor) == batch + After(log, CursorAfter(cursor, batch))
  {
    var ext := log[|v.Log()|..];
    assert log == v.Log() + ext;
    IncreasingParts(v.Log(), ext);
    AfterAppend(v.trimmed, v.live, cursor);
    AfterAppend(v.Log(), ext, cursor);
    AfterAdvance(log, cursor, XRead(v, cursor));
  }

  lemma LostEntry(views: seq<Stream>, cursor: nat)
    requires Chain(views) && views != [] && After(views[0].trimmed, cursor) != []
    ensures Reads(views, cursor) != After(Last(views).Log(), cursor)
  {
    var v, log := views[0], Last(views).Log();
    var x := After(v.trimmed, cursor)[0];
    forall w | w in views
      ensures x in w.trimmed
    {
      TrimmedStays(v, w);
    }
    TrimmedIsSkipped(views, cursor, x);
    FinalLog(views);
    var k := Passed(v.trimmed, cursor);
    assert v.Log()[k] == x && log[k] == x;
    AfterIsFilter(log, cursor, k);
    assert After(log, cursor)[k - Passed(log, cursor)] == x;
  }

  // ---- A client that keeps reconnecting ----

  /** One connection: the views its reads find, and how many events reach the client. */
  datatype Attempt = Attempt(views: seq<Stream>, want: nat)

  /** What each connection delivers when the client always resumes from the last id it received. */
  function Outs(attempts: seq<Attempt>, cursor: nat): seq<seq<Entry>> {
    if attempts == [] then []
    else
      var out := Deliver(attempts[0].views, cursor, attempts[0].want);
      [out] + Outs(attempts[1..], CursorAfter(cursor, out))
  }

  function Join(parts: seq<seq<Entry>>): seq<Entry> {
    if parts == [] then [] else parts[0] + Join(parts[1..])
  }

  lemma JoinCons(part: seq<Entry>, parts: seq<seq<Entry>>)
    ensures Join([part] + parts) == part + Join(parts)
  {
    assert ([part] + parts)[1..] == parts;
  }

  /** The connections follow one stream whose log ends up as `log`, and nothing unread is ever trimmed. */
  ghost predicate Healthy(attempts: seq<Attempt>, cursor: nat, log: seq<Entry>)
    decreases |attempts|
  {
    attempts == [] ||
    (var a := attempts[0];
     && a.views != [] && Chain(a.views) && Last(a.views).Log() <= log
     && Retained(a.views, cursor)
     && Healthy(attempts[1..], CursorAfter(cursor, Deliver(a.views, cursor, a.want)), log))
  }

  lemma DeliveredIsPrefix(a: Attempt, cursor: nat, log: seq<Entry>)
    requires Increasing(log) && a.views != [] && Chain(a.views) && Last(a.views).Log() <= log
             && Retained(a.views, cursor)
    ensures Reads(a.views, cursor) <= After(log, cursor)
    ensures Deliver(a.views, cursor, a.want) <= After(log, cursor)
  {
    ReadsAreContiguous(a.views, cursor);
    YieldShape(Reads(a.views, cursor), a.want);
    var seen := Last(a.views).Log();
    assert log == seen + log[|seen|..];
    AfterAppend(seen, log[|seen|..], cursor);
  }

  /** Reconnecting any number of times reads the stream as one uninterrupted reader would: the deliveries joined
      are the log from the first cursor on, with no gap, no duplicate and no reordering. */
  lemma {:induction false} ResumedReadIsContiguous(attempts: seq<Attempt>, cursor: nat, log: seq<Entry>)
    requires Increasing(log) && Healthy(attempts, cursor, log)
    ensures Join(Outs(attempts, cursor)) <= After(log, cursor)
    decreases |attempts|
  {
    if attempts == [] {
    } else {
      var out := Deliver(attempts[0].views, cursor, attempts[0].want);
      DeliveredIsPrefix(attempts[0], cursor, log);
      AfterAdvance(log, cursor, out);
      ResumedReadIsContiguous(attempts[1..], CursorAfter(cursor, out), log);
      JoinCons(out, Outs(attempts[1..], CursorAfter(cursor, out)));
    }
  }

  lemma CursorAfterMore(cursor: nat, a: seq<Entry>, b: seq<Entry>)
    ensures CursorAfter(cursor, a + b) == CursorAfter(CursorAfter(cursor, a), b)
  {
  }

  lemma OutsOf(attempts: seq<Attempt>, cursor: nat)
    ensures |Outs(attempts, cursor)| == |attempts|
  {
  }

  /** A connection that goes on where those before it stopped. */
  predicate GoesOn(a: Attempt, before: seq<seq<Entry>>, cursor: nat, out: seq<Entry>) {
    a.views != [] && Stops(out, After(Last(a.views).Log(), CursorAfter(cursor, Join(before))), a.want)
  }

  lemma FirstGoesOn(a: Attempt, cursor: nat, out: seq<Entry>)
    requires a.views != [] && Chain(a.views) && Retained(a.views, cursor) && out == Deliver(a.views, cursor, a.want)
    ensures GoesOn(a, [], cursor, out)
  {
    ReadsAreContiguous(a.views, cursor);
    YieldStops(Reads(a.views, cursor), a.want);
  }

  lemma LaterGoesOn(a: Attempt, first: seq<Entry>, before: seq<seq<Entry>>, cursor: nat, out: seq<Entry>)
    requires GoesOn(a, before, CursorAfter(cursor, first), out)
    ensures GoesOn(a, [first] + before, cursor, out)
  {
    JoinCons(first, before);
    CursorAfterMore(cursor, first, Join(before));
  }

  lemma NextGoesOn(attempts: seq<Attempt>, k: nat, first: seq<Entry>, rest: seq<seq<Entry>>, cursor: nat,
                   outs: seq<seq<Entry>>)
    requires 0 < k < |attempts| == |outs| && outs == [first] + rest
    requires GoesOn(attempts[1..][k - 1], rest[..k - 1], CursorAfter(cursor, first), rest[k - 1])
    ensures GoesOn(attempts[k], outs[..k], cursor, outs[k])
  {
    assert outs[..k] == [first] + rest[..k - 1];
    LaterGoesOn(attempts[k], first, rest[..k - 1], cursor, outs[k]);
  }

  /** And nobody stops short: each connection goes on where the ones before it stopped, until the client has what it
      wanted, a final event, or everything that was there at its last read. */
  lemma {:induction false} EachConnectionGoesOn(attempts: seq<Attempt>, cursor: nat, log: seq<Entry>, k: nat)
    requires Increasing(log) && Healthy(attempts, cursor, log) && k < |attempts|
    ensures |Outs(attempts, cursor)| == |attempts|
    ensures GoesOn(attempts[k], Outs(attempts, cursor)[..k], cursor, Outs(attempts, cursor)[k])
    decreases |attempts|
  {
    OutsOf(attempts, cursor);
    var outs, first := Outs(attempts, cursor), Deliver(attempts[0].views, cursor, attempts[0].want);
    if k == 0 {
      assert outs[..0] == [];
      FirstGoesOn(attempts[0], cursor, first);
    } else {
      var c := CursorAfter(cursor, first);
      var rest := Outs(attempts[1..], c);
      EachConnectionGoesOn(attempts[1..], c, log, k - 1);
      NextGoesOn(attempts, k, first, rest, cursor, outs);
    }
  }

  // ---- Turns ----

  /** A stream cut after every final event. */
  function Turns(es: seq<Entry>): seq<seq<Entry>>
    decreases |es|
  {
    if es == [] then [] else [Turn(es)] + Turns(es[|Turn(es)|..])
  }

  lemma {:induction false} TurnsJoinToStream(es: seq<Entry>)
    ensures Join(Turns(es)) == es
    decreases |es|
  {
    if es == [] {
    } else {
      var turn, rest := Turn(es), es[|Turn(es)|..];
      TurnsJoinToStream(rest);
      assert Turns(es) == [turn] + Turns(rest);
      JoinCons(turn, Turns(rest));
      assert turn + rest == es;
    }
  }

  lemma {:induction false} TurnStopsAtFinal(es: seq<Entry>, more: seq<Entry>, want: nat)
    requires es <= more
    ensures var out := Yield(es, want); out != [] && Last(out).event.Ends? ==> out == Turn(more)
  {
    if es != [] && want > 0 && !es[0].event.Ends? {
      assert es[1..] <= more[1..];
      TurnStopsAtFinal(es[1..], more[1..], want - 1);
      var rest := Yield(es[1..], want - 1);
      assert rest != [] ==> Last([es[0]] + rest) == Last(rest);
    }
  }

  lemma FirstTurn(a: Attempt, cursor: nat, log: seq<Entry>, out: seq<Entry>)
    requires Increasing(log) && a.views != [] && Chain(a.views) && Last(a.views).Log() <= log
             && Retained(a.views, cursor)
    requires out == Deliver(a.views, cursor, a.want) && out != [] && Last(out).event.Ends?
    ensures var unread := After(log, cursor);
            unread != [] && Turns(unread) == [out] + Turns(After(log, CursorAfter(cursor, out)))
  {
    var unread := After(log, cursor);
    DeliveredIsPrefix(a, cursor, log);
    TurnStopsAtFinal(Reads(a.views, cursor), unread, a.want);
    AfterAdvance(log, cursor, out);
    assert unread[|out|..] == After(log, CursorAfter(cursor, out));
  }

  /** If every connection lasts until its final event, the n-th connection delivers exactly the n-th turn. */
  lemma {:induction false} CompleteConnectionsAreTurns(attempts: seq<Attempt>, cursor: nat, log: seq<Entry>)
    requires Increasing(log) && Healthy(attempts, cursor, log)
    requires forall out :: out in Outs(attempts, cursor) ==> out != [] && Last(out).event.Ends?
    ensures Outs(attempts, cursor) <= Turns(After(log, cursor))
    decreases |attempts|
  {
    if attempts == [] {
    } else {
      var out := Deliver(attempts[0].views, cursor, attempts[0].want);
      var c := CursorAfter(cursor, out);
      var outs, turns := Outs(attempts[1..], c), Turns(After(log, c));
      assert Outs(attempts, cursor) == [out] + outs;
      forall o | o in outs
        ensures o != [] && Last(o).event.Ends?
      {
        assert o in [out] + outs;
      }
      assert ([out] + outs)[0] == out;
      FirstTurn(attempts[0], cursor, log, out);
      CompleteConnectionsAreTurns(attempts[1..], c, log);
      PrefixCons(out, outs, turns);
    }
  }

  lemma PrefixCons(out: seq<Entry>, outs: seq<seq<Entry>>, turns: seq<seq<Entry>>)
    requires outs <= turns
    ensures [out] + outs <= [out] + turns
  {
  }

  // ---- How long unread entries survive ----

  datatype Arrival = Arrival(event: Event, gap: nat, cut: nat)

  function Arrive(s: Stream, arrivals: seq<Arrival>, maxlen: nat): Stream {
    if arrivals == [] then s
    else
      var a := Last(arrivals);
      Append(Arrive(s, arrivals[..|arrivals| - 1], maxlen), a.event, a.gap, a.cut, maxlen)
  }

  /** An append can trim an unread entry exactly when it makes the unread backlog longer than MAXLEN. */
  lemma AppendEndangersUnread(s: Stream, ev: Event, gap: nat, maxlen: nat, cursor: nat)
    requires s.Valid() && After(s.trimmed, cursor) == []
    ensures (exists cut: nat :: After(Append(s, ev, gap, cut, maxlen).trimmed, cursor) != [])
       <==> |After(s.Log() + [NewEntry(s, ev, gap)], cursor)| > maxlen
  {
    var excess := Max(0, |s.live| + 1 - maxlen);
    var unread := |After(s.Log() + [NewEntry(s, ev, gap)], cursor)|;
    forall cut: nat
      ensures After(Append(s, ev, gap, cut, maxlen).trimmed, cursor) != [] <==> Min(cut, excess) > |s.live| + 1 - unread
      ensures unread <= |s.live| + 1
    {
      AppendTrimsUnread(s, ev, gap, cut, maxlen, cursor);
    }
    if unread > maxlen {
      assert After(Append(s, ev, gap, excess, maxlen).trimmed, cursor) != [];
    }
  }

  lemma AppendTrimsUnread(s: Stream, ev: Event, gap: nat, cut: nat, maxlen: nat, cursor: nat)
    requires s.Valid() && After(s.trimmed, cursor) == []
    ensures var unread := |After(s.Log() + [NewEntry(s, ev, gap)], cursor)|;
            && unread <= |s.live| + 1
            && (After(Append(s, ev, gap, cut, maxlen).trimmed, cursor) != []
                <==> Min(cut, Max(0, |s.live| + 1 - maxlen)) > |s.live| + 1 - unread)
  {
    var e := NewEntry(s, ev, gap);
    var live := s.live + [e];
    assert s.trimmed + live == s.Log() + [e];
    Extend(s.Log(), e);
    AfterAppend(s.trimmed, live, cursor);
    TrimmedUnread(s.trimmed, live, Min(cut, Max(0, |live| - maxlen)), cursor);
  }

  lemma TrimmedUnread(trimmed: seq<Entry>, live: seq<Entry>, n: nat, cursor: nat)
    requires Increasing(trimmed + live) && After(trimmed, cursor) == [] && n <= |live|
    ensures After(trimmed + live[..n], cursor) != [] <==> n > |live| - |After(live, cursor)|
  {
    SplitLog(trimmed, live, n);
    AfterAppend(trimmed, live[..n], cursor);
    PassedPrefix(live, n, cursor);
  }

  lemma SplitLog(trimmed: seq<Entry>, live: seq<Entry>, n: nat)
    requires Increasing(trimmed + live) && n <= |live|
    ensures Increasing(trimmed + live[..n]) && Increasing(live)
  {
    assert live == live[..n] + live[n..];
    assert trimmed + live == (trimmed + live[..n]) + live[n..];
    IncreasingParts(trimmed + live[..n], live[n..]);
    IncreasingParts(trimmed, live);
  }

  lemma PassedPrefix(live: seq<Entry>, n: nat, cursor: nat)
    requires Increasing(live) && n <= |live|
    ensures Passed(live[..n], cursor) == Min(n, Passed(live, cursor))
  {
    var k: int := Passed(live, cursor);
    SuffixIncreasing(live, n);
    Ordered(live, n - 1, k - 1);
    PassedIs(live[..n], cursor, Min(n, k));
  }

  /** A stream that still holds the newest `maxlen` entries. */
  predicate Keeps(s: Stream, maxlen: nat) {
    |s.live| >= Min(maxlen, |s.Log()|)
  }

  /** Trimming to MAXLEN never goes further. */
  lemma AppendKeeps(s: Stream, ev: Event, gap: nat, cut: nat, maxlen: nat)
    requires Keeps(s, maxlen)
    ensures Keeps(Append(s, ev, gap, cut, maxlen), maxlen)
  {
    AppendLog(s, ev, gap, cut, maxlen);
  }

  /** So whoever is at most `maxlen` entries behind has lost nothing. */
  lemma BacklogIsHeld(s: Stream, maxlen: nat, cursor: nat)
    requires s.Valid() && Keeps(s, maxlen) && |After(s.Log(), cursor)| <= maxlen
    ensures After(s.trimmed, cursor) == []
  {
    AfterAppend(s.trimmed, s.live, cursor);
  }

  /** Whatever arrives at a stream that starts out empty, or has never been trimmed below MAXLEN, a reader that is at
      most MAXLEN entries behind finds all of them, wherever it has been before and however far behind. */
  lemma {:induction false} RetentionBound(s: Stream, arrivals: seq<Arrival>, maxlen: nat, cursor: nat)
    requires s.Valid() && Keeps(s, maxlen)
    ensures var s' := Arrive(s, arrivals, maxlen);
            && s'.Valid() && Grows(s, s') && Keeps(s', maxlen)
            && (|After(s'.Log(), cursor)| <= maxlen ==> After(s'.trimmed, cursor) == [])
    decreases |arrivals|
  {
    if arrivals == [] {
    } else {
      var before, a := arrivals[..|arrivals| - 1], Last(arrivals);
      RetentionBound(s, before, maxlen, cursor);
      AppendGrows(Arrive(s, before, maxlen), a.event, a.gap, a.cut, maxlen);
      AppendKeeps(Arrive(s, before, maxlen), a.event, a.gap, a.cut, maxlen);
    }
    if |After(Arrive(s, arrivals, maxlen).Log(), cursor)| <= maxlen {
      BacklogIsHeld(Arrive(s, arrivals, maxlen), maxlen, cursor);
    }
  }

  /** At each of its reads the reader is at most `maxlen` entries behind. */
  predicate ReadsKeepUp(views: seq<Stream>, cursor: nat, maxlen: nat)
    decreases |views|
  {
    views == [] ||
    (|After(views[0].Log(), cursor)| <= maxlen
     && ReadsKeepUp(views[1..], CursorAfter(cursor, XRead(views[0], cursor)), maxlen))
  }

  /** A reader that keeps up misses nothing. */
  lemma {:induction false} KeepingUpRetains(views: seq<Stream>, cursor: nat, maxlen: nat)
    requires forall i :: 0 <= i < |views| ==> views[i].Valid() && Keeps(views[i], maxlen)
    requires ReadsKeepUp(views, cursor, maxlen)
    ensures Retained(views, cursor)
    decreases |views|
  {
    if views == [] {
    } else {
      BacklogIsHeld(views[0], maxlen, cursor);
      KeepingUpRetains(views[1..], CursorAfter(cursor, XRead(views[0], cursor)), maxlen);
    }
  }

  /** Until a reader moves on, its backlog only grows: it is largest at the next read. */
  lemma BacklogGrows(s: Stream, s': Stream, cursor: nat)
    requires s'.Valid() && Grows(s, s')
    ensures |After(s.Log(), cursor)| <= |After(s'.Log(), cursor)|
  {
    var more := s'.Log()[|s.Log()|..];
    assert s'.Log() == s.Log() + more;
    AfterAppend(s.Log(), more, cursor);
  }
}
