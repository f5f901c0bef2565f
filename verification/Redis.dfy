/** The part of Redis the bus uses: lists pushed at the head and popped at the tail, and streams. */
module Redis {
  import opened Prelude
  import opened Naming
  import opened Messages
  import opened Streams

  const SESSION_MAXLEN := 1000
  const GLOBAL_MAXLEN := 10000

  datatype Bus = Bus(lists: map<string, seq<Message>>, streams: map<string, Stream>) {
    function List(key: string): seq<Message> {
      if key in lists then lists[key] else []
    }

    function StreamAt(key: string): Stream {
      if key in streams then streams[key] else EMPTY
    }

    function LPush(key: string, m: Message): Bus {
      this.(lists := lists[key := [m] + List(key)])
    }

    function RPop(key: string): Bus
      requires List(key) != []
    {
      this.(lists := lists[key := List(key)[..|List(key)| - 1]])
    }

    function XAddTo(key: string, ev: Event, f: Fate, maxlen: nat): Bus {
      if f.Fails? then this else this.(streams := streams[key := XAdd(StreamAt(key), ev, f, maxlen)])
    }

    function Queue(tenant: string): seq<Message> {
      List(InboundKey(tenant))
    }

    /** Everything ever appended to a session's stream. */
    function SessionLog(session: string): seq<Entry> {
      StreamAt(SessionStreamKey(session)).Log()
    }

    function GlobalLog(): seq<Entry> {
      StreamAt(GLOBAL_STREAM).Log()
    }
  }

  lemma PushFrame(b: Bus, tenant: string, m: Message)
    ensures forall t :: b.LPush(InboundKey(tenant), m).Queue(t) == if t == tenant then [m] + b.Queue(t) else b.Queue(t)
  {
    forall t
      ensures b.LPush(InboundKey(tenant), m).Queue(t) == if t == tenant then [m] + b.Queue(t) else b.Queue(t)
    {
      QueuesAndStreamsInjective(t, tenant);
    }
  }

  lemma PopFrame(b: Bus, tenant: string)
    requires b.Queue(tenant) != []
    ensures forall t :: b.RPop(InboundKey(tenant)).Queue(t) ==
                        if t == tenant then b.Queue(t)[..|b.Queue(t)| - 1] else b.Queue(t)
  {
    forall t
      ensures b.RPop(InboundKey(tenant)).Queue(t) == if t == tenant then b.Queue(t)[..|b.Queue(t)| - 1] else b.Queue(t)
    {
      QueuesAndStreamsInjective(t, tenant);
    }
  }

  lemma OtherSession(b: Bus, session: string, ev: Event, f: Fate, s: string)
    requires s != session
    ensures b.XAddTo(SessionStreamKey(session), ev, f, SESSION_MAXLEN).SessionLog(s) == b.SessionLog(s)
  {
    QueuesAndStreamsInjective(s, session);
  }

  /** What XADD to a session's stream changes in the logs. */
  lemma SessionAddFrame(b: Bus, session: string, ev: Event, f: Fate)
    requires f.Adds?
    ensures var b' := b.XAddTo(SessionStreamKey(session), ev, f, SESSION_MAXLEN);
            && b'.StreamAt(GLOBAL_STREAM) == b.StreamAt(GLOBAL_STREAM)
            && b'.SessionLog(session) ==
               b.SessionLog(session) + [NewEntry(b.StreamAt(SessionStreamKey(session)), ev, f.gap)]
            && forall s :: s != session ==> b'.SessionLog(s) == b.SessionLog(s)
  {
    QueuesAndStreamsInjective(session, session);
    AppendLog(b.StreamAt(SessionStreamKey(session)), ev, f.gap, f.cut, SESSION_MAXLEN);
    forall s | s != session
      ensures b.XAddTo(SessionStreamKey(session), ev, f, SESSION_MAXLEN).SessionLog(s) == b.SessionLog(s)
    {
      OtherSession(b, session, ev, f, s);
    }
  }

  lemma GlobalAddFrame(b: Bus, ev: Event, f: Fate)
    requires f.Adds?
    ensures var b' := b.XAddTo(GLOBAL_STREAM, ev, f, GLOBAL_MAXLEN);
            && b'.GlobalLog() == b.GlobalLog() + [NewEntry(b.StreamAt(GLOBAL_STREAM), ev, f.gap)]
            && forall s :: b'.SessionLog(s) == b.SessionLog(s)
  {
    var b' := b.XAddTo(GLOBAL_STREAM, ev, f, GLOBAL_MAXLEN);
    AppendLog(b.StreamAt(GLOBAL_STREAM), ev, f.gap, f.cut, GLOBAL_MAXLEN);
    forall s
      ensures b'.SessionLog(s) == b.SessionLog(s)
    {
      QueuesAndStreamsInjective(s, s);
    }
  }

  ghost predicate StreamsValid(b: Bus) {
    forall key :: key in b.streams ==> b.streams[key].Valid()
  }

  lemma AddKeepsStreamsValid(b: Bus, key: string, ev: Event, f: Fate, maxlen: nat)
    requires StreamsValid(b)
    ensures StreamsValid(b.XAddTo(key, ev, f, maxlen))
  {
    if f.Adds? {
      assert b.StreamAt(key).Valid();
      AppendGrows(b.StreamAt(key), ev, f.gap, f.cut, maxlen);
    }
  }
}
