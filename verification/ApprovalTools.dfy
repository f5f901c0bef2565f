/** The exec tool that keeps the ledger, the chat turn around it, and the agent's approve route, run as the steps of the
    ledger's machine. */
module ApprovalTools {
  import opened Prelude
  import opened Naming
  import opened Approvals

  // ---- Runs ----

  lemma ExecSnoc(l: Ledger, trace: seq<Action>, r: Ledger, x: Action)
    requires Exec(l, trace) == Some(r) && Enabled(r, x)
    ensures Exec(l, trace + [x]) == Some(Next(r, x))
  {
    assert (trace + [x])[..|trace|] == trace;
  }

  lemma ExecOne(l: Ledger, x: Action)
    requires Enabled(l, x)
    ensures Exec(l, [x]) == Some(Next(l, x))
  {
    ExecSnoc(l, [], l, x);
    assert [] + [x] == [x];
  }

  // ---- Tool calls within a task ----

  /** A call of the exec tool, with the id it would get. */
  datatype Call = Call(command: string, cwd: string, argument: Option<string>, id: string)

  /** How an approved command fares. */
  datatype Fate = CannotStart(error: string) | TimesOut(error: string) | Exits(code: int, output: string)

  /** The context variables of a task, as the code sets and reads them. */
  class TaskContext {
    var active: Option<string>
    var approval: Option<string>
    var context: Option<Ask>

    constructor ()
      ensures View() == UNSET
    {
      active, approval, context := None, None, None;
    }

    function View(): Vars
      reads this
    {
      Vars(active, approval, context)
    }
  }

  class GatewayExecTool {
    const gated: bool
    var pending: map<string, Entry>
    var starts: seq<Start>

    constructor (gated: bool)
      ensures this.gated == gated && pending == map[] && starts == []
    {
      this.gated, pending, starts := gated, map[], [];
    }

    /** The machine state of the process agrees with this tool and with the context of task `t`. */
    ghost predicate Matches(l: Ledger, t: nat, ctx: TaskContext)
      reads this, ctx
    {
      l.gated == gated && l.pending == pending && l.starts == starts && t in l.tasks && l.tasks[t].vars == ctx.View()
    }

    /** `execute`: a gated command is recorded and shown to the client, any other runs at once. */
    method Execute(ctx: TaskContext, c: Call, t: nat, ghost l: Ledger)
      requires Matches(l, t, ctx) && Enabled(l, Approvals.Execute(t, c.command, c.cwd, c.argument, c.id))
      modifies this, ctx
      ensures Matches(Next(l, Approvals.Execute(t, c.command, c.cwd, c.argument, c.id)), t, ctx)
      ensures !gated ==> starts == old(starts) + [Direct(c.command, c.cwd)] && pending == old(pending)
                         && ctx.View() == old(ctx.View())
      ensures gated ==>
                && starts == old(starts) && pending.Keys == old(pending.Keys) + {c.id}
                && (forall id :: id in old(pending) && id != c.id ==> pending[id] == old(pending)[id])
                && pending[c.id].command == c.command && pending[c.id].cwd == c.cwd
                && pending[c.id].session == (if c.argument.Some? then c.argument.value
                                             else if old(ctx.active).Some? then old(ctx.active).value
                                             else "api:direct")
                && ctx.View() == Vars(old(ctx.active), Some(c.id), Some(Ask(c.command, c.cwd)))
    {
      if gated {
        var active := if ctx.active.Some? then ctx.active.value else DEFAULT_SESSION;
        var session := if c.argument.Some? then c.argument.value else active;
        ctx.approval := Some(c.id);
        ctx.context := Some(Ask(c.command, c.cwd));
        pending := pending[c.id := Entry(c.command, c.cwd, session)];
      } else {
        starts := starts + [Direct(c.command, c.cwd)];
      }
    }

    /** `run_approved`: the request is taken out of the ledger before anything else happens, so a second approval finds
        nothing, whatever becomes of the first. */
    method RunApproved(id: string, fate: Fate) returns (entry: Option<Entry>)
      modifies this
      ensures entry == if id in old(pending) then Some(old(pending)[id]) else None
      ensures pending == old(pending) - {id}
      ensures starts == old(starts) + (if id in old(pending) && !fate.CannotStart? then
                                         [Approved(id, old(pending)[id].command, old(pending)[id].cwd)] else [])
    {
      if id !in pending {
        return None;
      }
      entry := Some(pending[id]);
      pending := pending - {id};
      if !fate.CannotStart? {
        starts := starts + [Approved(id, entry.value.command, entry.value.cwd)];
      }
    }
  }

  /** The machine steps of `run_approved` by task `t`. */
  function ApproveTrace(t: nat, id: string, fate: Fate): seq<Action> {
    if fate.CannotStart? then [Consume(t, id), Leave(t)]
    else if fate.TimesOut? then [Consume(t, id), Launch(t), Leave(t)]
    else [Consume(t, id), Launch(t), Resume(t)]
  }

  /** What `RunApproved` does to a tool is what those steps do to the ledger. */
  lemma ApproveSteps(l: Ledger, t: nat, id: string, fate: Fate)
    requires At(l, t, Approver) && PhaseOf(l, t).Free? && id in l.pending
    ensures var r := Exec(l, ApproveTrace(t, id, fate));
            && r.Some? && r.value.pending == l.pending - {id} && r.value.consumed == l.consumed + [id]
            && var started := if fate.CannotStart? then []
               else [Approved(id, l.pending[id].command, l.pending[id].cwd)];
            r.value.starts == l.starts + started
  {
    var l1 := Next(l, Consume(t, id));
    ExecOne(l, Consume(t, id));
    if fate.CannotStart? {
      ExecSnoc(l, [Consume(t, id)], l1, Leave(t));
      assert [Consume(t, id)] + [Leave(t)] == ApproveTrace(t, id, fate);
    } else {
      ExecSnoc(l, [Consume(t, id)], l1, Launch(t));
      assert [Consume(t, id)] + [Launch(t)] == [Consume(t, id), Launch(t)];
      var last := if fate.TimesOut? then Leave(t) else Resume(t);
      ExecSnoc(l, [Consume(t, id), Launch(t)], Next(l1, Launch(t)), last);
      assert [Consume(t, id), Launch(t)] + [last] == ApproveTrace(t, id, fate);
    }
  }

  // ---- A chat turn ----

  function CallTrace(t: nat, calls: seq<Call>): seq<Action> {
    if calls == [] then []
    else
      var c := Last(calls);
      CallTrace(t, calls[..|calls| - 1]) + [Execute(t, c.command, c.cwd, c.argument, c.id)]
  }

  function ChatTrace(t: nat, session: string, calls: seq<Call>): seq<Action> {
    [Begin(t, session)] + CallTrace(t, calls) + [End(t)]
  }

  predicate FreshIds(l: Ledger, calls: seq<Call>) {
    && (forall i :: 0 <= i < |calls| ==> calls[i].id !in l.issued)
    && (forall i, j :: 0 <= i < j < |calls| ==> calls[i].id != calls[j].id)
  }

  lemma {:induction false} ExecAppend(l: Ledger, trace: seq<Action>, r: Ledger, more: seq<Action>)
    requires Exec(l, trace) == Some(r)
    ensures Exec(l, trace + more) == Exec(r, more)
    decreases |more|
  {
    if more == [] {
      assert trace + more == trace;
    } else {
      var init := more[..|more| - 1];
      ExecAppend(l, trace, r, init);
      assert (trace + more)[..|trace + more| - 1] == trace + init;
    }
  }

  /** `_run_chat` around the tool calls of a turn, run in the turn's own task: the context variables are reset, and what
      they hold in the end is what the turn reports. */
  method RunChat(tool: GatewayExecTool, ctx: TaskContext, t: nat, session: string, calls: seq<Call>, ghost l: Ledger)
    returns (approval: Option<string>, context: Option<Ask>, ghost after: Ledger)
    requires tool.Matches(l, t, ctx) && At(l, t, Chatter) && PhaseOf(l, t).Free? && FreshIds(l, calls)
    modifies tool, ctx
    ensures Exec(l, ChatTrace(t, session, calls)) == Some(after) && tool.Matches(after, t, ctx)
    ensures after.reports == l.reports + [Report(Turn(l.turns, session), approval, context)]
    ensures approval == if tool.gated && calls != [] then Some(Last(calls).id) else None
    ensures context == if approval.Some? then Some(Ask(Last(calls).command, Last(calls).cwd)) else None
    ensures |tool.starts| == |old(tool.starts)| + if tool.gated then 0 else |calls|
  {
    ctx.active, ctx.approval, ctx.context := Some(session), None, None;
    after := Next(l, Begin(t, session));
    ghost var begun, calling := after, after;
    ExecOne(l, Begin(t, session));
    for i := 0 to |calls|
      invariant tool.Matches(after, t, ctx) && PhaseOf(after, t) == Chatting(Turn(l.turns, session))
      invariant Exec(begun, CallTrace(t, calls[..i])) == Some(after)
      invariant after.reports == l.reports
      invariant ctx.approval == if tool.gated && i > 0 then Some(calls[i - 1].id) else None
      invariant ctx.context ==
                if tool.gated && i > 0 then Some(Ask(calls[i - 1].command, calls[i - 1].cwd)) else None
      invariant |tool.starts| == |old(tool.starts)| + if tool.gated then 0 else i
      invariant forall j :: i <= j < |calls| ==> calls[j].id !in after.issued
    {
      var c := calls[i];
      ghost var x := Execute(t, c.command, c.cwd, c.argument, c.id);
      tool.Execute(ctx, c, t, after);
      ExecSnoc(begun, CallTrace(t, calls[..i]), after, x);
      assert calls[..i + 1][..i] == calls[..i];
      after := Next(after, x);
    }
    assert calls[..|calls|] == calls;
    approval, context := ctx.approval, ctx.context;
    calling := after;
    ExecAppend(l, [Begin(t, session)], begun, CallTrace(t, calls));
    ExecSnoc(l, [Begin(t, session)] + CallTrace(t, calls), calling, End(t));
    after := Next(calling, End(t));
  }
}
