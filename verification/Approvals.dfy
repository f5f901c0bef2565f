/** The approval ledger of one agent process as a state machine: tasks that interleave at their `await` points, each
    with context variables of its own, issue and consume approval requests. */
module Approvals {
  import opened Prelude
  import opened Naming

  /** What the ledger keeps about a request: the exact command, where to run it, and the session it is recorded
      under. */
  datatype Entry = Entry(command: string, cwd: string, session: string)

  /** What the client is shown about it. */
  datatype Ask = Ask(command: string, cwd: string)

  /** A chat turn; numbers are given out in order of beginning and exist as history only. */
  datatype Turn = Turn(number: nat, session: string)

  /** A request once issued: its entry, the task and turn it was issued in (no turn in a resumed one), and the session
      the tool call named, if it did. */
  datatype Issue = Issue(entry: Entry, task: nat, turn: Option<Turn>, argument: Option<string>)

  /** The context variables of a task: unset, or what was last put there. */
  datatype Vars = Vars(active: Option<string>, approval: Option<string>, context: Option<Ask>)

  const UNSET := Vars(None, None, None)

  datatype Phase =
    | Free
    | Chatting(turn: Turn)
    | Approving(id: string, entry: Entry)
    | Running(id: string, entry: Entry)
    | Resuming(id: string)

  /** The bus listener and the handlers of chat requests run turns; the handlers of approve requests run approved
      commands and resume their conversations. */
  datatype Role = Chatter | Approver

  datatype Task = Task(role: Role, vars: Vars, phase: Phase)

  datatype Start = Direct(command: string, cwd: string) | Approved(id: string, command: string, cwd: string)

  /** What a done event says about approvals. */
  datatype Report = Report(turn: Turn, approval: Option<string>, context: Option<Ask>)

  /** `pending` and `tasks` are the process; the rest is history: the requests issued, the last one of each turn, those
      consumed, the commands started and the turns reported. */
  datatype Ledger = Ledger(
    gated: bool,
    pending: map<string, Entry>,
    tasks: map<nat, Task>,
    turns: nat,
    issued: map<string, Issue>,
    latest: map<nat, string>,
    consumed: seq<string>,
    starts: seq<Start>,
    reports: seq<Report>)

  function Fresh(gated: bool): Ledger {
    Ledger(gated, map[], map[], 0, map[], map[], [], [], [])
  }

  datatype Action =
    | Spawn(task: nat, role: Role)
    | Begin(task: nat, session: string)
    | Execute(task: nat, command: string, cwd: string, argument: Option<string>, id: string)
    | End(task: nat)
    | Consume(task: nat, id: string)
    | Launch(task: nat)
    | Resume(task: nat)
    | Leave(task: nat)

  predicate At(l: Ledger, t: nat, role: Role) {
    t in l.tasks && l.tasks[t].role == role
  }

  function PhaseOf(l: Ledger, t: nat): Phase {
    if t in l.tasks then l.tasks[t].phase else Free
  }

  /** A request id is fresh (a UUID). A task may leave whatever it is doing at any time: by an exception, a timeout, a
      cancelled request, or because it is done. */
  predicate Enabled(l: Ledger, x: Action) {
    var p := PhaseOf(l, x.task);
    match x
    case Spawn(t, _) => t !in l.tasks
    case Begin(t, _) => At(l, t, Chatter) && p.Free?
    case Execute(t, _, _, _, id) => t in l.tasks && (p.Chatting? || p.Resuming?) && id !in l.issued
    case End(_) => p.Chatting?
    case Consume(t, id) => At(l, t, Approver) && p.Free? && id in l.pending
    case Launch(_) => p.Approving?
    case Resume(_) => p.Running?
    case Leave(t) => t in l.tasks
  }

  function SetPhase(l: Ledger, t: nat, p: Phase): Ledger
    requires t in l.tasks
  {
    l.(tasks := l.tasks[t := l.tasks[t].(phase := p)])
  }

  function SetVars(l: Ledger, t: nat, v: Vars): Ledger
    requires t in l.tasks
  {
    l.(tasks := l.tasks[t := l.tasks[t].(vars := v)])
  }

  function TurnOf(p: Phase): Option<Turn> {
    if p.Chatting? then Some(p.turn) else None
  }

  /** The session a request is recorded under: the one the call names, else the task's active one, else the default. */
  function RecordedSession(v: Vars, argument: Option<string>): string {
    if argument.Some? then argument.value else if v.active.Some? then v.active.value else DEFAULT_SESSION
  }

  function IssueOf(l: Ledger, t: nat, command: string, cwd: string, argument: Option<string>): Issue
    requires t in l.tasks
  {
    Issue(Entry(command, cwd, RecordedSession(l.tasks[t].vars, argument)), t, TurnOf(l.tasks[t].phase), argument)
  }

  /** A gated command is put into the ledger, an ungated one starts at once. */
  function Executed(l: Ledger, t: nat, command: string, cwd: string, argument: Option<string>, id: string): Ledger
    requires t in l.tasks
  {
    if !l.gated then l.(starts := l.starts + [Direct(command, cwd)])
    else
      var issue := IssueOf(l, t, command, cwd, argument);
      SetVars(l, t, l.tasks[t].vars.(approval := Some(id), context := Some(Ask(command, cwd))))
        .(pending := l.pending[id := issue.entry], issued := l.issued[id := issue],
          latest := if issue.turn.Some? then l.latest[issue.turn.value.number := id] else l.latest)
  }

  function Next(l: Ledger, x: Action): Ledger
    requires Enabled(l, x)
  {
    var t := x.task;
    match x
    case Spawn(_, role) => l.(tasks := l.tasks[t := Task(role, UNSET, Free)])
    case Begin(_, session) =>
      l.(tasks := l.tasks[t := Task(Chatter, Vars(Some(session), None, None), Chatting(Turn(l.turns, session)))],
         turns := l.turns + 1)
    case Execute(_, command, cwd, argument, id) => Executed(l, t, command, cwd, argument, id)
    case End(_) =>
      var v := l.tasks[t].vars;
      SetPhase(l, t, Free).(reports := l.reports + [Report(l.tasks[t].phase.turn, v.approval, v.context)])
    case Consume(_, id) =>
      SetPhase(l, t, Approving(id, l.pending[id])).(pending := l.pending - {id}, consumed := l.consumed + [id])
    case Launch(_) =>
      var p := l.tasks[t].phase;
      SetPhase(l, t, Running(p.id, p.entry)).(starts := l.starts + [Approved(p.id, p.entry.command, p.entry.cwd)])
    case Resume(_) => SetPhase(l, t, Resuming(l.tasks[t].phase.id))
    case Leave(_) => SetPhase(l, t, Free)
  }

  function Exec(l: Ledger, trace: seq<Action>): Option<Ledger> {
    if trace == [] then Some(l)
    else
      match Exec(l, trace[..|trace| - 1])
      case None => None
      case Some(r) => if Enabled(r, Last(trace)) then Some(Next(r, Last(trace))) else None
  }

  // ---- What every step keeps ----

  predicate Distinct<T(==)>(xs: seq<T>) {
    forall i, j :: 0 <= i < j < |xs| ==> xs[i] != xs[j]
  }

  /** Issued requests are pending or consumed, never both. */
  predicate LedgerOk(l: Ledger) {
    && (forall id :: id in l.pending ==> id in l.issued && l.pending[id] == l.issued[id].entry && id !in l.consumed)
    && (forall id :: id in l.consumed ==> id in l.issued)
    && (forall id :: id in l.issued ==> id in l.pending || id in l.consumed)
    && Distinct(l.consumed)
  }

  predicate IssueOk(issue: Issue) {
    var active := if issue.turn.Some? then Some(issue.turn.value.session) else None;
    issue.entry.session == RecordedSession(Vars(active, None, None), issue.argument)
  }

  predicate IssuesOk(l: Ledger) {
    forall id :: id in l.issued ==> IssueOk(l.issued[id])
  }

  predicate StartOk(l: Ledger, s: Start) {
    if s.Direct? then !l.gated
    else
      && s.id in l.consumed && s.id in l.issued
      && s.command == l.issued[s.id].entry.command && s.cwd == l.issued[s.id].entry.cwd
  }

  predicate StartedId(l: Ledger, id: string) {
    exists i :: 0 <= i < |l.starts| && l.starts[i].Approved? && l.starts[i].id == id
  }

  predicate StartsOk(l: Ledger) {
    && (forall i :: 0 <= i < |l.starts| ==> StartOk(l, l.starts[i]))
    && (forall i, j :: 0 <= i < j < |l.starts| && l.starts[i].Approved? && l.starts[j].Approved? ==>
       l.starts[i].id != l.starts[j].id)
  }

  /** A task holding a consumed request has not started it yet. */
  predicate HoldsOk(l: Ledger, t: nat) {
    t in l.tasks && l.tasks[t].phase.Approving? ==>
      var p := l.tasks[t].phase;
      p.id in l.consumed && p.id in l.issued && p.entry == l.issued[p.id].entry && !StartedId(l, p.id)
  }

  /** No two tasks hold the same request or run the same turn. */
  predicate ApartOk(l: Ledger, s: nat, t: nat) {
    s in l.tasks && t in l.tasks && s != t ==>
      var p, q := l.tasks[s].phase, l.tasks[t].phase;
      (p.Approving? && q.Approving? ==> p.id != q.id) && (p.Chatting? && q.Chatting? ==> p.turn.number != q.turn.number)
  }

  /** The request shown for a turn: the last one issued in it, recorded under its session. */
  predicate ShownOk(l: Ledger, turn: Turn, approval: Option<string>, context: Option<Ask>) {
    && approval == (if turn.number in l.latest then Some(l.latest[turn.number]) else None)
    && (approval.None? ==> context.None?)
    && (approval.Some? ==>
          && approval.value in l.issued && l.issued[approval.value].turn == Some(turn)
          && context == Some(Ask(l.issued[approval.value].entry.command, l.issued[approval.value].entry.cwd)))
  }

  predicate TaskOk(l: Ledger, t: nat) {
    t in l.tasks ==>
      var k := l.tasks[t];
      && (k.role.Approver? ==> k.vars.active.None? && !k.phase.Chatting?)
      && (k.role.Chatter? ==> k.phase.Free? || k.phase.Chatting?)
      && (k.phase.Chatting? ==>
            && k.phase.turn.number < l.turns && k.vars.active == Some(k.phase.turn.session)
            && ShownOk(l, k.phase.turn, k.vars.approval, k.vars.context)
            && forall i :: 0 <= i < |l.reports| ==> l.reports[i].turn.number != k.phase.turn.number)
  }

  predicate ReportsOk(l: Ledger) {
    && (forall i :: 0 <= i < |l.reports| ==> l.reports[i].turn.number < l.turns)
    && (forall i :: 0 <= i < |l.reports| ==> ShownOk(l, l.reports[i].turn, l.reports[i].approval, l.reports[i].context))
    && (forall n :: n in l.latest ==> n < l.turns)
  }

  ghost predicate Inv(l: Ledger) {
    && LedgerOk(l) && IssuesOk(l) && StartsOk(l) && ReportsOk(l)
    && (forall t: nat :: HoldsOk(l, t)) && (forall t: nat :: TaskOk(l, t))
       && (forall s: nat, t: nat :: ApartOk(l, s, t))
  }

  lemma LedgerStep(l: Ledger, x: Action)
    requires LedgerOk(l) && Enabled(l, x)
    ensures LedgerOk(Next(l, x))
  {
  }

  lemma IssuesStep(l: Ledger, x: Action)
    requires IssuesOk(l) && Enabled(l, x) && TaskOk(l, x.task)
    ensures IssuesOk(Next(l, x))
  {
  }

  lemma StartsStep(l: Ledger, x: Action)
    requires LedgerOk(l) && StartsOk(l) && Enabled(l, x) && HoldsOk(l, x.task)
    ensures StartsOk(Next(l, x))
  {
    if x.Launch? {
      var id := l.tasks[x.task].phase.id;
      assert forall i :: 0 <= i < |l.starts| && l.starts[i].Approved? ==> l.starts[i].id != id;
    }
  }

  lemma HoldsStep(l: Ledger, x: Action, t: nat)
    requires LedgerOk(l) && StartsOk(l) && Enabled(l, x) && HoldsOk(l, t) && ApartOk(l, x.task, t)
    ensures HoldsOk(Next(l, x), t)
  {
  }

  lemma ApartStep(l: Ledger, x: Action, s: nat, t: nat)
    requires LedgerOk(l) && Enabled(l, x) && ApartOk(l, s, t)
    requires HoldsOk(l, s) && HoldsOk(l, t) && TaskOk(l, s) && TaskOk(l, t)
    ensures ApartOk(Next(l, x), s, t)
  {
  }

  lemma TaskStep(l: Ledger, x: Action, t: nat)
    requires ReportsOk(l) && LedgerOk(l) && Enabled(l, x) && TaskOk(l, t) && ApartOk(l, x.task, t)
    ensures TaskOk(Next(l, x), t)
  {
  }

  lemma ReportsStep(l: Ledger, x: Action)
    requires ReportsOk(l) && Enabled(l, x) && TaskOk(l, x.task)
    ensures ReportsOk(Next(l, x))
  {
  }

  lemma StepKeeps(l: Ledger, x: Action)
    requires Inv(l) && Enabled(l, x)
    ensures Inv(Next(l, x))
  {
    var l' := Next(l, x);
    LedgerStep(l, x);
    IssuesStep(l, x);
    StartsStep(l, x);
    ReportsStep(l, x);
    forall t: nat
      ensures HoldsOk(l', t)
    {
      assert ApartOk(l, x.task, t) && HoldsOk(l, t);
      HoldsStep(l, x, t);
    }
    forall t: nat
      ensures TaskOk(l', t)
    {
      assert ApartOk(l, x.task, t) && TaskOk(l, t);
      TaskStep(l, x, t);
    }
    forall s: nat, t: nat
      ensures ApartOk(l', s, t)
    {
      assert ApartOk(l, s, t) && HoldsOk(l, s) && HoldsOk(l, t) && TaskOk(l, s) && TaskOk(l, t);
      ApartStep(l, x, s, t);
    }
  }
}
