/** One iteration of the agent's `bus_listener_loop`, run against the bus object and proved to take only steps of the
    agents' machine. */
module AgentServer {
  import opened Prelude
  import opened Naming
  import opened Messages
  import opened Streams
  import opened Redis
  import opened AgentSide
  import opened MessageBus

  datatype Utterance = Utterance(text: string, toolHint: bool, fate: Fate)

  /** What the world does during an iteration: the progress the turn reports, how it ends, and the fate of each XADD of
      its outcome, first as computed and then of the error event that replaces a done event. */
  datatype Script = Script(
    says: seq<Utterance>, result: RunResult, toSession: Fate, toGlobal: Fate, errSession: Fate, errGlobal: Fate)

  function SayTrace(t: string, says: seq<Utterance>): seq<Action> {
    if says == [] then []
    else SayTrace(t, says[..|says| - 1]) + [Say(t, Last(says).text, Last(says).toolHint, Last(says).fate)]
  }

  function PublishTrace(t: string, f: Fate, g: Fate): seq<Action> {
    if f.Fails? then [AddSession(t, f)] else [AddSession(t, f), AddGlobal(t, g)]
  }

  /** Publishing the outcome; a done event that cannot be published is followed by an error event. */
  function ReportTrace(t: string, sc: Script): seq<Action> {
    var first := PublishTrace(t, sc.toSession, sc.toGlobal);
    if sc.result.Returned? && (sc.toSession.Fails? || sc.toGlobal.Fails?) then
      first + PublishTrace(t, sc.errSession, sc.errGlobal)
    else first
  }

  /** A turn and its outcome. */
  function AnswerTrace(t: string, sc: Script): seq<Action> {
    SayTrace(t, sc.says) + [Finish(t, sc.result)] + ReportTrace(t, sc)
  }

  /** The machine steps of one iteration for the popped request. */
  function ListenTrace(t: string, m: Message, sc: Script): seq<Action> {
    if !Answerable(m.payload) then [Pop(t)]
    else [Pop(t)] + AnswerTrace(t, sc)
  }

  // ---- What an iteration leaves on the streams ----

  /** The progress that got through. */
  function Heard(uid: nat, says: seq<Utterance>): seq<Event> {
    if says == [] then []
    else
      var u := Last(says);
      Heard(uid, says[..|says| - 1]) + if u.fate.Adds? then [Progress(uid, u.text, u.toolHint)] else []
  }

  function Ending(m: Message, r: RunResult, session: Option<string>): Event {
    Ends(Outcome(m.uid, r, m.payload, session))
  }

  /** What the session's subscribers hear of the outcome: it, or, if it is a done event of which one of the two XADDs
      fails, an error event with the reason, after it if that was the second. */
  function ToldSession(m: Message, sc: Script): seq<Event> {
    match (sc.toSession, sc.toGlobal)
    case (Fails(why), _) =>
      if sc.result.Returned? && sc.errSession.Adds? then [Ending(m, Raised(why), None)] else []
    case (_, Fails(why)) =>
      [Ending(m, sc.result, None)]
      + if sc.result.Returned? && sc.errSession.Adds? then [Ending(m, Raised(why), None)] else []
    case (_, _) => [Ending(m, sc.result, None)]
  }

  /** What the dispatcher hears: the outcome if both XADDs succeed, else for a done event the error, if both of its
      do. */
  function ToldAll(m: Message, sc: Script, session: string): seq<Event> {
    var errs := sc.result.Returned? && sc.errSession.Adds? && sc.errGlobal.Adds?;
    match (sc.toSession, sc.toGlobal)
    case (Fails(why), _) => if errs then [Ending(m, Raised(why), Some(session))] else []
    case (_, Fails(why)) => if errs then [Ending(m, Raised(why), Some(session))] else []
    case (_, _) => [Ending(m, sc.result, Some(session))]
  }

  /** A done event could not be published: why. */
  function Breakage(sc: Script): Option<string> {
    if sc.result.Raised? then None
    else if sc.toSession.Fails? then Some(sc.toSession.reason)
    else if sc.toGlobal.Fails? then Some(sc.toGlobal.reason)
    else None
  }

  /** The bus after the progress of a turn, and after its outcome. */
  function Talked(b: Bus, session: string, uid: nat, says: seq<Utterance>): Bus {
    if says == [] then b
    else
      var u := Last(says);
      PublishedEvent(Talked(b, session, uid, says[..|says| - 1]), session, Progress(uid, u.text, u.toolHint), u.fate,
                     u.fate)
  }

  function Told(b: Bus, session: string, m: Message, sc: Script): Bus {
    var why := Breakage(sc);
    var b' := PublishedEvent(b, session, Ending(m, sc.result, None), sc.toSession, sc.toGlobal);
    if why.None? then b'
    else PublishedEvent(b', session, Ending(m, Raised(why.value), None), sc.errSession, sc.errGlobal)
  }

  lemma {:induction false} TalkedIsHeard(b: Bus, session: string, uid: nat, says: seq<Utterance>)
    ensures var b' := Talked(b, session, uid, says);
            && b'.lists == b.lists && Events(b'.GlobalLog()) == Events(b.GlobalLog())
            && Events(b'.SessionLog(session)) == Events(b.SessionLog(session)) + Heard(uid, says)
    decreases |says|
  {
    if says == [] {
    } else {
      var u, before := Last(says), Talked(b, session, uid, says[..|says| - 1]);
      TalkedIsHeard(b, session, uid, says[..|says| - 1]);
      PublishedEventIs(before, session, Progress(uid, u.text, u.toolHint), u.fate, u.fate);
    }
  }

  lemma EndingPublished(b: Bus, session: string, m: Message, r: RunResult, f: Fate, g: Fate)
    ensures var b' := PublishedEvent(b, session, Ending(m, r, None), f, g);
            && b'.lists == b.lists
            && Events(b'.SessionLog(session)) ==
               Events(b.SessionLog(session)) + (if f.Adds? then [Ending(m, r, None)] else [])
            && Events(b'.GlobalLog()) ==
               Events(b.GlobalLog()) + (if f.Adds? && g.Adds? then [Ending(m, r, Some(session))] else [])
  {
    PublishedEventIs(b, session, Ending(m, r, None), f, g);
  }

  lemma ToldIsTold(b: Bus, session: string, m: Message, sc: Script)
    ensures var b' := Told(b, session, m, sc);
            && b'.lists == b.lists
            && Events(b'.SessionLog(session)) == Events(b.SessionLog(session)) + ToldSession(m, sc)
            && Events(b'.GlobalLog()) == Events(b.GlobalLog()) + ToldAll(m, sc, session)
  {
    var why := Breakage(sc);
    EndingPublished(b, session, m, sc.result, sc.toSession, sc.toGlobal);
    if why.Some? {
      var b' := PublishedEvent(b, session, Ending(m, sc.result, None), sc.toSession, sc.toGlobal);
      EndingPublished(b', session, m, Raised(why.value), sc.errSession, sc.errGlobal);
    }
  }

  lemma RunSnoc(a: Agents, trace: seq<Action>, b: Agents, x: Action)
    requires Run(a, trace) == Some(b) && Enabled(b, x)
    ensures Run(a, trace + [x]) == Some(Next(b, x))
  {
    assert (trace + [x])[..|trace|] == trace;
  }

  lemma RunOne(a: Agents, x: Action)
    requires Enabled(a, x)
    ensures Run(a, [x]) == Some(Next(a, x))
  {
    RunSnoc(a, [], a, x);
    assert [] + [x] == [x];
  }

  lemma RunTwo(a: Agents, x: Action, y: Action)
    requires Enabled(a, x) && Enabled(Next(a, x), y)
    ensures Run(a, [x, y]) == Some(Next(Next(a, x), y))
  {
    RunOne(a, x);
    RunSnoc(a, [x], Next(a, x), y);
    assert [x] + [y] == [x, y];
  }

  lemma {:induction false} RunAppend(a: Agents, trace: seq<Action>, b: Agents, more: seq<Action>)
    requires Run(a, trace) == Some(b)
    ensures Run(a, trace + more) == Run(b, more)
    decreases |more|
  {
    if more == [] {
      assert trace + more == trace;
    } else {
      var init := more[..|more| - 1];
      RunAppend(a, trace, b, init);
      assert (trace + more)[..|trace + more| - 1] == trace + init;
    }
  }

  /** Publishing an outcome, as machine steps. */
  function AfterPublish(b: Agents, t: string, f: Fate, g: Fate): Agents
    requires b.PhaseOf(t).ToSession?
  {
    var b1 := Next(b, AddSession(t, f));
    if f.Fails? then b1 else Next(b1, AddGlobal(t, g))
  }

  lemma PublishRun(b: Agents, t: string, f: Fate, g: Fate)
    requires b.PhaseOf(t).ToSession?
    ensures Run(b, PublishTrace(t, f, g)) == Some(AfterPublish(b, t, f, g))
  {
    RunOne(b, AddSession(t, f));
    if f.Adds? {
      RunTwo(b, AddSession(t, f), AddGlobal(t, g));
    }
  }

  lemma SessionEffect(b: Agents, t: string, m: Message, o: Outcome, f: Fate, session: string)
    requires b.PhaseOf(t) == ToSession(m, o) && session == SessionOf(m.payload)
    ensures var b' := Next(b, AddSession(t, f));
            && b'.bus == b.bus.XAddTo(SessionStreamKey(session), Ends(o), f, SESSION_MAXLEN)
            && b'.PhaseOf(t) == if f.Fails? then OnFailure(m, o, f.reason) else ToGlobal(m, o)
  {
  }

  lemma GlobalEffect(b: Agents, t: string, m: Message, o: Outcome, g: Fate, session: string)
    requires b.PhaseOf(t) == ToGlobal(m, o) && session == SessionOf(m.payload)
    ensures var b' := Next(b, AddGlobal(t, g));
            && b'.bus == b.bus.XAddTo(GLOBAL_STREAM, Ends(o.(session := Some(session))), g, GLOBAL_MAXLEN)
            && b'.PhaseOf(t) == if g.Fails? then OnFailure(m, o, g.reason) else Idle
  {
  }

  lemma PublishEffect(b: Agents, t: string, m: Message, o: Outcome, f: Fate, g: Fate)
    requires b.PhaseOf(t) == ToSession(m, o)
    ensures AfterPublish(b, t, f, g).bus == PublishedEvent(b.bus, SessionOf(m.payload), Ends(o), f, g)
    ensures AfterPublish(b, t, f, g).PhaseOf(t) ==
            if f.Fails? then OnFailure(m, o, f.reason) else if g.Fails? then OnFailure(m, o, g.reason) else Idle
  {
    SessionEffect(b, t, m, o, f, SessionOf(m.payload));
    if f.Adds? {
      GlobalEffect(Next(b, AddSession(t, f)), t, m, o, g, SessionOf(m.payload));
    }
  }

  method PublishOutcome(bus: RedisMessageBus, t: string, m: Message, o: Outcome, f: Fate, g: Fate, ghost b: Agents)
    returns (raised: Option<string>, ghost after: Agents)
    requires b.bus == bus.View() && b.PhaseOf(t) == ToSession(m, o)
    modifies bus`streams
    ensures Run(b, PublishTrace(t, f, g)) == Some(after) && after.bus == bus.View()
    ensures raised == if f.Fails? then Some(f.reason) else if g.Fails? then Some(g.reason) else None
    ensures after.PhaseOf(t) ==
            if raised.Some? && o.Done() then ToSession(m, OutcomeOf(m, Raised(raised.value))) else Idle
    ensures bus.View() == PublishedEvent(old(bus.View()), SessionOf(m.payload), Ends(o), f, g)
  {
    raised := bus.PublishEvent(SessionOf(m.payload), Ends(o), f, g);
    PublishRun(b, t, f, g);
    PublishEffect(b, t, m, o, f, g);
    after := AfterPublish(b, t, f, g);
  }

  /** The publishing half of an iteration: the outcome, and if it is a done event whose publication raises, an error
      event in its place. */
  method Report(bus: RedisMessageBus, t: string, m: Message, sc: Script, ghost b: Agents) returns (ghost after: Agents)
    requires b.bus == bus.View() && b.PhaseOf(t) == ToSession(m, OutcomeOf(m, sc.result))
    modifies bus`streams
    ensures Run(b, ReportTrace(t, sc)) == Some(after)
    ensures after.bus == bus.View() && after.PhaseOf(t).Idle?
    ensures bus.View() == Told(old(bus.View()), SessionOf(m.payload), m, sc)
  {
    var raised;
    raised, after := PublishOutcome(bus, t, m, OutcomeOf(m, sc.result), sc.toSession, sc.toGlobal, b);
    if sc.result.Returned? && raised.Some? {
      var error := OutcomeOf(m, Raised(raised.value));
      ghost var first := after;
      raised, after := PublishOutcome(bus, t, m, error, sc.errSession, sc.errGlobal, first);
      RunAppend(b, PublishTrace(t, sc.toSession, sc.toGlobal), first, PublishTrace(t, sc.errSession, sc.errGlobal));
    }
  }

  lemma TalkedMore(b: Bus, session: string, uid: nat, says: seq<Utterance>, i: nat)
    requires i < |says|
    ensures Talked(b, session, uid, says[..i + 1]) ==
            PublishedEvent(Talked(b, session, uid, says[..i]), session,
                           Progress(uid, says[i].text, says[i].toolHint), says[i].fate, says[i].fate)
  {
    assert says[..i + 1][..i] == says[..i];
  }

  lemma SayTraceMore(t: string, says: seq<Utterance>, i: nat)
    requires i < |says|
    ensures SayTrace(t, says[..i + 1]) ==
            SayTrace(t, says[..i]) + [Say(t, says[i].text, says[i].toolHint, says[i].fate)]
  {
    assert says[..i + 1][..i] == says[..i];
  }

  lemma SayEffect(a: Agents, t: string, m: Message, u: Utterance)
    requires a.PhaseOf(t) == Running(m)
    ensures var a' := Next(a, Say(t, u.text, u.toolHint, u.fate));
            && a'.PhaseOf(t) == Running(m)
            && var ev := Progress(m.uid, u.text, u.toolHint);
            a'.bus == PublishedEvent(a.bus, SessionOf(m.payload), ev, u.fate, u.fate)
  {
  }

  /** The turn itself, as far as the bus sees it: progress events, whose failures are swallowed. */
  method Converse(bus: RedisMessageBus, t: string, m: Message, says: seq<Utterance>, ghost b: Agents)
      returns (ghost after: Agents)
    requires b.bus == bus.View() && b.PhaseOf(t) == Running(m)
    modifies bus`streams
    ensures Run(b, SayTrace(t, says)) == Some(after)
    ensures after.bus == bus.View() && after.PhaseOf(t) == Running(m)
    ensures bus.View() == Talked(old(bus.View()), SessionOf(m.payload), m.uid, says)
  {
    after := b;
    for i := 0 to |says|
      invariant after.PhaseOf(t) == Running(m) && after.bus == bus.View()
      invariant Run(b, SayTrace(t, says[..i])) == Some(after)
      invariant bus.View() == Talked(old(bus.View()), SessionOf(m.payload), m.uid, says[..i])
    {
      var u := says[i];
      var _ := bus.PublishEvent(SessionOf(m.payload), Progress(m.uid, u.text, u.toolHint), u.fate, u.fate);
      ghost var x := Say(t, u.text, u.toolHint, u.fate);
      RunSnoc(b, SayTrace(t, says[..i]), after, x);
      SayTraceMore(t, says, i);
      TalkedMore(old(bus.View()), SessionOf(m.payload), m.uid, says, i);
      SayEffect(after, t, m, u);
      after := Next(after, x);
    }
    assert says[..|says|] == says;
  }

  function Answered(b: Bus, session: string, m: Message, sc: Script): Bus {
    Told(Talked(b, session, m.uid, sc.says), session, m, sc)
  }

  lemma AnsweredIs(b: Bus, session: string, m: Message, sc: Script)
    ensures var b' := Answered(b, session, m, sc);
            && b'.lists == b.lists
            && Events(b'.SessionLog(session)) ==
               Events(b.SessionLog(session)) + Heard(m.uid, sc.says) + ToldSession(m, sc)
            && Events(b'.GlobalLog()) == Events(b.GlobalLog()) + ToldAll(m, sc, session)
  {
    TalkedIsHeard(b, session, m.uid, sc.says);
    ToldIsTold(Talked(b, session, m.uid, sc.says), session, m, sc);
  }

  /** The turn of a request and the publication of its outcome. */
  method Answer(bus: RedisMessageBus, t: string, m: Message, sc: Script, ghost b: Agents) returns (ghost after: Agents)
    requires b.bus == bus.View() && b.PhaseOf(t) == Running(m)
    modifies bus`streams
    ensures Run(b, AnswerTrace(t, sc)) == Some(after)
    ensures after.bus == bus.View() && after.PhaseOf(t).Idle?
    ensures bus.View() == Answered(old(bus.View()), SessionOf(m.payload), m, sc)
  {
    ghost var talked := Converse(bus, t, m, sc.says, b);
    RunSnoc(b, SayTrace(t, sc.says), talked, Finish(t, sc.result));
    ghost var finished := Next(talked, Finish(t, sc.result));
    after := Report(bus, t, m, sc, finished);
    RunAppend(b, SayTrace(t, sc.says) + [Finish(t, sc.result)], finished, ReportTrace(t, sc));
  }

  /** One iteration of the listener: pop, run the turn while its progress streams, publish the outcome. The bus ends up
      where the machine's steps lead, and the listener is idle again. A request without a message leaves no trace; any
      other leaves on its session's stream the progress that got through and then its outcome, with the error that
      replaces it if it could not be published, and on the global stream those of the two that got there. */
  method ListenOnce(bus: RedisMessageBus, t: string, sc: Script, ghost a: Agents) returns (ghost after: Agents)
    requires a.bus == bus.View() && a.PhaseOf(t).Idle? && a.bus.Queue(t) != []
    modifies bus`lists, bus`streams
    ensures Run(a, ListenTrace(t, Last(a.bus.Queue(t)), sc)) == Some(after)
    ensures after.bus == bus.View() && after.PhaseOf(t).Idle?
    ensures var m := Last(a.bus.Queue(t));
            && bus.View().Queue(t) + [m] == a.bus.Queue(t)
            && (!Given(m.payload, "message") ==> bus.View().streams == a.bus.streams)
            && (Given(m.payload, "message") ==>
                  var s := SessionOf(m.payload);
                  && Events(bus.View().SessionLog(s)) ==
                     Events(a.bus.SessionLog(s)) + Heard(m.uid, sc.says) + ToldSession(m, sc)
                  && Events(bus.View().GlobalLog()) == Events(a.bus.GlobalLog()) + ToldAll(m, sc, s))
  {
    var m := bus.ConsumeRequest(t);
    RunOne(a, Pop(t));
    after := Next(a, Pop(t));
    if !Answerable(m.payload) {
      return;
    }
    AnsweredIs(bus.View(), SessionOf(m.payload), m, sc);
    ghost var popped := after;
    after := Answer(bus, t, m, sc, popped);
    RunAppend(a, [Pop(t)], popped, AnswerTrace(t, sc));
  }
}
