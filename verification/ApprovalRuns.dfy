/** What holds of every run of an agent process, however its tasks interleave. */
module ApprovalRuns {
  import opened Prelude
  import opened Naming
  import opened Approvals

  ghost predicate Reached(gated: bool, trace: seq<Action>, l: Ledger) {
    Exec(Fresh(gated), trace) == Some(l)
  }

  lemma {:induction false} ReachedInv(gated: bool, trace: seq<Action>, l: Ledger)
    requires Reached(gated, trace, l)
    ensures Inv(l) && l.gated == gated
    decreases |trace|
  {
    if trace == [] {
    } else {
      var before := trace[..|trace| - 1];
      var b := Exec(Fresh(gated), before).value;
      ReachedInv(gated, before, b);
      StepKeeps(b, trace[|trace| - 1]);
    }
  }

  /** Every request ever issued is either still pending, unchanged, or was consumed once: never both, never neither. */
  lemma IssuedIsPendingOrConsumed(gated: bool, trace: seq<Action>, l: Ledger, id: string)
    requires Reached(gated, trace, l)
    ensures id in l.issued <==> id in l.pending || id in l.consumed
    ensures !(id in l.pending && id in l.consumed)
    ensures id in l.pending ==> l.pending[id] == l.issued[id].entry
    ensures forall i, j :: 0 <= i < j < |l.consumed| ==> l.consumed[i] != l.consumed[j]
  {
    ReachedInv(gated, trace, l);
  }

  lemma {:induction false} ConsumedByAnAction(gated: bool, trace: seq<Action>, l: Ledger, id: string)
    requires Reached(gated, trace, l) && id in l.consumed
    ensures exists k :: 0 <= k < |trace| && trace[k].Consume? && trace[k].id == id
    decreases |trace|
  {
    var before, x := trace[..|trace| - 1], trace[|trace| - 1];
    var b := Exec(Fresh(gated), before).value;
    if id in b.consumed {
      ConsumedByAnAction(gated, before, b, id);
      var k :| 0 <= k < |before| && before[k].Consume? && before[k].id == id;
      assert trace[k] == before[k];
    } else {
      assert trace[|trace| - 1].Consume?;
    }
  }

  lemma {:induction false} StaysConsumed(gated: bool, trace: seq<Action>, l: Ledger, k: nat)
    requires Reached(gated, trace, l) && k < |trace| && trace[k].Consume?
    ensures trace[k].id in l.consumed
    decreases |trace|
  {
    var before := trace[..|trace| - 1];
    var b := Exec(Fresh(gated), before).value;
    if k < |before| {
      assert before[k] == trace[k];
      StaysConsumed(gated, before, b, k);
    }
  }

  /** No request can be consumed twice. */
  lemma ConsumedOnce(gated: bool, trace: seq<Action>, l: Ledger, i: nat, j: nat)
    requires Reached(gated, trace, l) && i < j < |trace| && trace[i].Consume? && trace[j].Consume?
    ensures trace[i].id != trace[j].id
  {
    PrefixReached(gated, trace, l, j + 1);
    var before, b := TakenWhenEnabled(gated, trace, j);
    StaysConsumed(gated, before, b, i);
    ReachedInv(gated, before, b);
  }

  /** A step of a run was possible where it was taken. */
  lemma TakenWhenEnabled(gated: bool, trace: seq<Action>, j: nat) returns (before: seq<Action>, b: Ledger)
    requires j < |trace| && Exec(Fresh(gated), trace[..j + 1]).Some?
    ensures before == trace[..j] && Reached(gated, before, b) && Enabled(b, trace[j])
    ensures forall i :: 0 <= i < j ==> before[i] == trace[i]
  {
    before := trace[..j];
    assert trace[..j + 1][..j] == before && Last(trace[..j + 1]) == trace[j];
    b := Exec(Fresh(gated), before).value;
  }

  lemma {:induction false} PrefixReached(gated: bool, trace: seq<Action>, l: Ledger, k: nat)
    requires Reached(gated, trace, l) && k <= |trace|
    ensures Exec(Fresh(gated), trace[..k]).Some?
    decreases |trace|
  {
    if k == |trace| {
      assert trace[..k] == trace;
    } else {
      var before := trace[..|trace| - 1];
      assert before[..k] == trace[..k];
      PrefixReached(gated, before, Exec(Fresh(gated), before).value, k);
    }
  }

  predicate Calls(x: Action, id: string, e: Entry) {
    x.Execute? && x.id == id && x.command == e.command && x.cwd == e.cwd
  }

  /** Every request is for the command, in the directory, of the tool call that raised it. */
  lemma {:induction false} RequestsAreForTheirCalls(gated: bool, trace: seq<Action>, l: Ledger, id: string)
    requires Reached(gated, trace, l) && id in l.issued
    ensures exists k :: 0 <= k < |trace| && Calls(trace[k], id, l.issued[id].entry)
    decreases |trace|
  {
    var before, x := trace[..|trace| - 1], trace[|trace| - 1];
    var b := Exec(Fresh(gated), before).value;
    if id in b.issued {
      RequestsAreForTheirCalls(gated, before, b, id);
      var k :| 0 <= k < |before| && Calls(before[k], id, b.issued[id].entry);
      assert trace[k] == before[k];
      assert x.Execute? ==> x.id != id;
    } else {
      assert Calls(trace[|trace| - 1], id, l.issued[id].entry);
    }
  }

  /** The commands of a run's tool calls, in order. */
  function Called(trace: seq<Action>): seq<Start> {
    if trace == [] then []
    else
      var x := Last(trace);
      Called(trace[..|trace| - 1]) + if x.Execute? then [Direct(x.command, x.cwd)] else []
  }

  /** Without approvals required, every command called starts at once, in the order of the calls, and nothing is ever
      asked. */
  lemma {:induction false} UngatedCommandsStartAtOnce(trace: seq<Action>, l: Ledger)
    requires Reached(false, trace, l)
    ensures l.starts == Called(trace) && l.pending == map[] && l.issued == map[] && !l.gated
    ensures forall t :: t in l.tasks ==> !l.tasks[t].phase.Approving? && !l.tasks[t].phase.Running?
    decreases |trace|
  {
    if trace == [] {
    } else {
      UngatedCommandsStartAtOnce(trace[..|trace| - 1], Exec(Fresh(false), trace[..|trace| - 1]).value);
    }
  }

  /** With approvals required, a command starts only if a request for exactly that command, in that directory, was
      raised by a tool call and consumed; and no request starts a command twice. */
  lemma CommandsStartOnlyOnceApproved(trace: seq<Action>, l: Ledger, i: nat)
    requires Reached(true, trace, l) && i < |l.starts|
    ensures l.starts[i].Approved? && l.starts[i].id in l.issued && l.starts[i].id in l.consumed
            && l.starts[i].id !in l.pending
    ensures l.starts[i].command == l.issued[l.starts[i].id].entry.command
            && l.starts[i].cwd == l.issued[l.starts[i].id].entry.cwd
    ensures exists k :: 0 <= k < |trace| && trace[k].Consume? && trace[k].id == l.starts[i].id
    ensures exists k :: 0 <= k < |trace| && Calls(trace[k], l.starts[i].id, l.issued[l.starts[i].id].entry)
    ensures forall j :: 0 <= j < |l.starts| && j != i ==> l.starts[j].Approved? && l.starts[j].id != l.starts[i].id
  {
    ReachedInv(true, trace, l);
    assert StartOk(l, l.starts[i]);
    ConsumedByAnAction(true, trace, l, l.starts[i].id);
    RequestsAreForTheirCalls(true, trace, l, l.starts[i].id);
    forall j | 0 <= j < |l.starts| && j != i
      ensures l.starts[j].Approved? && l.starts[j].id != l.starts[i].id
    {
      assert StartOk(l, l.starts[j]);
    }
  }

  // ---- Turns ----

  /** Every turn that issued a request has a last one. */
  predicate TurnsKnown(l: Ledger) {
    forall id :: id in l.issued && l.issued[id].turn.Some? ==> l.issued[id].turn.value.number in l.latest
  }

  lemma {:induction false} TurnsAlwaysKnown(gated: bool, trace: seq<Action>, l: Ledger)
    requires Reached(gated, trace, l)
    ensures TurnsKnown(l)
    decreases |trace|
  {
    if trace == [] {
    } else {
      TurnsAlwaysKnown(gated, trace[..|trace| - 1], Exec(Fresh(gated), trace[..|trace| - 1]).value);
    }
  }

  /** A done event names an approval request exactly when its own turn issued one, and then one issued in that very
      turn, with its command and directory; it is recorded under the turn's session, unless the call named another.
      Nothing leaks from earlier or parallel turns. */
  lemma TurnsReportTheirOwnRequests(gated: bool, trace: seq<Action>, l: Ledger, i: nat)
    requires Reached(gated, trace, l) && i < |l.reports|
    ensures var r := l.reports[i];
            && (r.approval.None? <==> !exists id :: id in l.issued && l.issued[id].turn == Some(r.turn))
            && (r.approval.None? ==> r.context.None?)
            && (r.approval.Some? ==>
                  && r.approval.value in l.issued
                  && var issue := l.issued[r.approval.value];
                  && issue.turn == Some(r.turn)
                  && issue.entry.session == (if issue.argument.Some? then issue.argument.value else r.turn.session)
                  && r.context == Some(Ask(issue.entry.command, issue.entry.cwd)))
  {
    ReachedInv(gated, trace, l);
    TurnsAlwaysKnown(gated, trace, l);
    var r := l.reports[i];
    assert ShownOk(l, r.turn, r.approval, r.context);
    if r.approval.Some? {
      assert IssueOk(l.issued[r.approval.value]);
    }
  }

  /** A request raised while an approved command's conversation is resumed belongs to no turn; without a session of its
      own it is recorded under `api:direct`, whichever session is resumed. */
  lemma ResumedRequestsFallBack(gated: bool, trace: seq<Action>, l: Ledger, x: Action)
    requires Reached(gated, trace, l) && Enabled(l, x) && x.Execute? && l.gated && PhaseOf(l, x.task).Resuming?
    ensures x.id in Next(l, x).pending && Next(l, x).issued[x.id].turn == None
    ensures Next(l, x).pending[x.id].session == if x.argument.Some? then x.argument.value else DEFAULT_SESSION
  {
    ReachedInv(gated, trace, l);
    assert TaskOk(l, x.task);
  }

  /** A request raised within a turn is recorded under the turn's session, unless the call names another. */
  lemma TurnRequestsKeepTheirSession(gated: bool, trace: seq<Action>, l: Ledger, x: Action)
    requires Reached(gated, trace, l) && Enabled(l, x) && x.Execute? && l.gated && PhaseOf(l, x.task).Chatting?
    ensures x.id in Next(l, x).pending && Next(l, x).issued[x.id].turn == Some(PhaseOf(l, x.task).turn)
    ensures Next(l, x).pending[x.id].session ==
            if x.argument.Some? then x.argument.value else PhaseOf(l, x.task).turn.session
  {
    ReachedInv(gated, trace, l);
    assert TaskOk(l, x.task);
  }
}
