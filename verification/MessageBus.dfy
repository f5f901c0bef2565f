/** The message bus as the object gateway and agents call. Each method is one or two Redis commands; the fields are
    what Redis holds. */
module MessageBus {
  import opened Prelude
  import opened Naming
  import opened Messages
  import opened Streams
  import opened Redis

  /** The default session id of `publish_request`. */
  function WithSession(payload: Payload, uuid: string): Payload {
    if "session_id" !in payload && "sessionId" !in payload then payload["session_id" := uuid] else payload
  }

  /** What publishing an event leaves behind: the second XADD happens only after the first succeeded, and its copy of a
      final event carries the session. */
  function PublishedEvent(b: Bus, session: string, ev: Event, f: Fate, g: Fate): Bus {
    var b' := b.XAddTo(SessionStreamKey(session), ev, f, SESSION_MAXLEN);
    if f.Fails? || ev.Progress? then b'
    else b'.XAddTo(GLOBAL_STREAM, Ends(ev.outcome.(session := Some(session))), g, GLOBAL_MAXLEN)
  }

  /** In terms of what the streams say: the session's gains the event if the first XADD succeeds, the global one a final
      event with its session if both do, and no other session's stream changes. */
  lemma PublishedEventIs(b: Bus, session: string, ev: Event, f: Fate, g: Fate)
    ensures var b' := PublishedEvent(b, session, ev, f, g);
            && b'.lists == b.lists
            && Events(b'.SessionLog(session)) == Events(b.SessionLog(session)) + (if f.Adds? then [ev] else [])
            && Events(b'.GlobalLog()) == Events(b.GlobalLog())
               + (if ev.Ends? && f.Adds? && g.Adds? then [Ends(ev.outcome.(session := Some(session)))] else [])
            && forall s :: s != session ==> b'.SessionLog(s) == b.SessionLog(s)
  {
    if f.Adds? {
      var b1 := b.XAddTo(SessionStreamKey(session), ev, f, SESSION_MAXLEN);
      SessionAddFrame(b, session, ev, f);
      EventsMore(b.SessionLog(session), NewEntry(b.StreamAt(SessionStreamKey(session)), ev, f.gap));
      if ev.Ends? && g.Adds? {
        var global := Ends(ev.outcome.(session := Some(session)));
        GlobalAddFrame(b1, global, g);
        EventsMore(b1.GlobalLog(), NewEntry(b1.StreamAt(GLOBAL_STREAM), global, g.gap));
      }
    }
  }

  /** Whatever Redis trims of it, the session's stream keeps its newest 1000 entries and the global one its newest
      10000, and Redis may trim as much as that. */
  lemma PublishedEventTrims(b: Bus, session: string, ev: Event, f: Fate, g: Fate)
    requires ev.Ends? && f.Adds? && g.Adds?
    ensures var n := |b.StreamAt(SessionStreamKey(session)).live| + 1;
            var n' := |PublishedEvent(b, session, ev, f, g).StreamAt(SessionStreamKey(session)).live|;
            n' >= Min(1000, n) && (f.cut >= n ==> n' == Min(1000, n))
    ensures var n := |b.StreamAt(GLOBAL_STREAM).live| + 1;
            var n' := |PublishedEvent(b, session, ev, f, g).StreamAt(GLOBAL_STREAM).live|;
            n' >= Min(10000, n) && (g.cut >= n ==> n' == Min(10000, n))
  {
    QueuesAndStreamsInjective(session, session);
    AppendTrims(b.StreamAt(SessionStreamKey(session)), ev, f.gap, f.cut, SESSION_MAXLEN);
    AppendTrims(b.StreamAt(GLOBAL_STREAM), Ends(ev.outcome.(session := Some(session))), g.gap, g.cut, GLOBAL_MAXLEN);
  }

  /** Only one tenant's queue changes: it gains one request at its head. */
  ghost predicate Queues(b: Bus, b': Bus, t: string, m: Message) {
    && b'.Queue(t) == [m] + b.Queue(t) && b'.streams == b.streams
    && forall s :: s != t ==> b'.Queue(s) == b.Queue(s)
  }

  class RedisMessageBus {
    var lists: map<string, seq<Message>>
    var streams: map<string, Stream>
    var lastDelivered: nat
    var pending: set<nat>
    var acked: set<nat>

    constructor ()
      ensures View() == Bus(map[], map[]) && lastDelivered == 0 && pending == acked == {}
    {
      lists, streams := map[], map[];
      lastDelivered, pending, acked := 0, {}, {};
    }

    function View(): Bus
      reads this`lists, this`streams
    {
      Bus(lists, streams)
    }

    /** LPUSH of the request, with a session id if it came without one. */
    method PublishRequest(tenant: string, payload: Payload, uuid: string, uid: nat) returns (session: Option<string>)
      modifies this`lists
      ensures View() == old(View()).LPush(InboundKey(tenant), Message(uid, WithSession(payload, uuid)))
      ensures var p := WithSession(payload, uuid); session == PyOr(Get(p, "session_id"), Get(p, "sessionId"))
      ensures View().Queue(tenant) != []
      ensures var m := View().Queue(tenant)[0];
              && Queues(old(View()), View(), tenant, m) && m.uid == uid
              && (if "session_id" in payload || "sessionId" in payload then m.payload == payload
                  else m.payload == payload["session_id" := uuid])
    {
      PushFrame(View(), tenant, Message(uid, WithSession(payload, uuid)));
      var p := payload;
      if "session_id" !in p && "sessionId" !in p {
        p := p["session_id" := uuid];
      }
      var key := InboundKey(tenant);
      lists := lists[key := [Message(uid, p)] + View().List(key)];
      session := PyOr(Get(p, "session_id"), Get(p, "sessionId"));
    }

    /** BRPOP, once there is something to pop. */
    method ConsumeRequest(tenant: string) returns (m: Message)
      requires View().Queue(tenant) != []
      modifies this`lists
      ensures m == Last(old(View()).Queue(tenant)) && View() == old(View()).RPop(InboundKey(tenant))
      ensures View().Queue(tenant) + [m] == old(View()).Queue(tenant)
    {
      var key := InboundKey(tenant);
      var q := View().List(key);
      m := Last(q);
      lists := lists[key := q[..|q| - 1]];
    }

    /** XADD; a failure raises and changes nothing. */
    method Add(key: string, ev: Event, f: Fate, maxlen: nat) returns (raised: Option<string>)
      modifies this`streams
      ensures View() == old(View()).XAddTo(key, ev, f, maxlen)
      ensures raised == if f.Fails? then Some(f.reason) else None
    {
      match f
      case Fails(reason) => raised := Some(reason);
      case Adds(gap, cut) =>
        streams := streams[key := Append(View().StreamAt(key), ev, gap, cut, maxlen)];
        raised := None;
    }

    /** `publish_event`: to the session's stream, then a final event to the global stream as well. */
    method PublishEvent(session: string, ev: Event, f: Fate, g: Fate) returns (raised: Option<string>)
      modifies this`streams
      ensures View() == PublishedEvent(old(View()), session, ev, f, g) && lists == old(lists)
      ensures Events(View().SessionLog(session)) ==
              Events(old(View()).SessionLog(session)) + if f.Adds? then [ev] else []
      ensures Events(View().GlobalLog()) == Events(old(View()).GlobalLog()) +
              if ev.Ends? && f.Adds? && g.Adds? then [Ends(ev.outcome.(session := Some(session)))] else []
      ensures raised == if f.Fails? then Some(f.reason) else if ev.Ends? && g.Fails? then Some(g.reason) else None
    {
      PublishedEventIs(View(), session, ev, f, g);
      raised := Add(SessionStreamKey(session), ev, f, SESSION_MAXLEN);
      if raised.None? && ev.Ends? {
        raised := Add(GLOBAL_STREAM, Ends(ev.outcome.(session := Some(session))), g, GLOBAL_MAXLEN);
      }
    }

    /** XREADGROUP of one new entry: it becomes pending and is never offered again. */
    method ConsumeGlobalEvent() returns (e: Entry)
      requires After(View().StreamAt(GLOBAL_STREAM).live, lastDelivered) != []
      modifies this`lastDelivered, this`pending
      ensures e == After(View().StreamAt(GLOBAL_STREAM).live, old(lastDelivered))[0]
      ensures lastDelivered == e.id && pending == old(pending) + {e.id}
    {
      e := After(View().StreamAt(GLOBAL_STREAM).live, lastDelivered)[0];
      lastDelivered := e.id;
      pending := pending + {e.id};
    }

    /** XACK; a failure raises and leaves the entry pending. */
    method AckGlobalEvent(id: nat, ok: bool)
      modifies this`pending, this`acked
      ensures pending == if ok then old(pending) - {id} else old(pending)
      ensures acked == if ok then old(acked) + {id} else old(acked)
    {
      if ok {
        pending := pending - {id};
        acked := acked + {id};
      }
    }
  }
}
