/** The workflow over the SQL ledger. That gateway injects no faults, so its histories are
    those without any; in each of them the table of the ledger, filled by the executions as
    they finish, holds exactly the effects the statuses of the runs speak of. */
module SqlStatus {
  import opened Domain
  import opened Gateway
  import opened Repository
  import opened Protocol
  import opened Invariant
  import opened Preservation
  import opened System
  import opened Theorems
  import opened LedgerUse
  import Ledger = PostgresLedger
  import Policy

  predicate NoFaults(steps: seq<Step>) {
    forall i | 0 <= i < |steps| :: steps[i].SetFault? ==> steps[i].fault == UnknownFault
  }

  predicate Faultless(w: World) {
    forall t | t in w.tools.faults :: w.tools.faults[t] == UnknownFault
  }

  /** The step is an attempt of an execution node. */
  predicate Executes(w: World, step: Step) {
    && step.NodeStep? && step.runId in w.threads && w.threads[step.runId].next.Retrying?
    && w.threads[step.runId].state.proposedAction.Some?
  }

  /** What the attempt asks of the ledger. */
  function CallOf(w: World, step: Step): Ledger.Call
    requires Executes(w, step)
  {
    Ledger.Call(w.threads[step.runId].state.proposedAction.value,
                IdAt(step.input.effectIds, w.threads[step.runId].next.attempt))
  }

  /** All that a history asks of the ledger, in order. */
  function Executions(steps: seq<Step>): seq<Ledger.Call> {
    if steps == [] then []
    else
      var init, last := steps[..|steps| - 1], steps[|steps| - 1];
      Executions(init) + if Executes(Run(START, init), last) then [CallOf(Run(START, init), last)] else []
  }

  /** The table when each execution is one call of the atomic ledger. */
  function Table(steps: seq<Step>): map<string, Ledger.Row> {
    if steps == [] then map[]
    else
      var init, last := steps[..|steps| - 1], steps[|steps| - 1];
      if Executes(Run(START, init), last) then Ledger.AtomicRows(Table(init), CallOf(Run(START, init), last))
          else Table(init)
  }

  // ----- The table mirrors the effects -----

  ghost predicate MirrorsEntry(w: World, row: Ledger.Row, entry: Receipt) {
    && entry.effectId == Some(row.effectId) && entry.status == Succeeded
    && exists r, action :: Proposes(w, r, action) && action.idempotencyKey == row.key
        && row.requestHash == Digest(action)
  }

  ghost predicate Mirrors(w: World, rows: map<string, Ledger.Row>) {
    && rows.Keys == w.tools.effects.Keys
    && forall k | k in rows :: rows[k].key == k && MirrorsEntry(w, rows[k], w.tools.effects[k])
  }

  lemma FaultlessStep(w: World, step: Step)
    requires Faultless(w) && (step.SetFault? ==> step.fault == UnknownFault)
    ensures Faultless(Act(w, step))
  {
    hide Policy.Decide, CollectRecords, CheckClaims, ActionFor, Answer, Status, WithEvent, WithReceipt, WithStatus,
        WithRun,
         StartError, AuthorizationError, ApprovalError;
  }

  /** Only attempts write to the ledger. */
  lemma OnlyExecutionsWrite(w: World, step: Step)
    requires !Executes(w, step)
    ensures Act(w, step).tools.effects == w.tools.effects
  {
    hide Policy.Decide, CollectRecords, CheckClaims, ActionFor, Status, WithEvent, WithReceipt, WithStatus, WithRun,
         StartError, AuthorizationError, ApprovalError;
  }

  lemma EntryStays(w: World, step: Step, row: Ledger.Row, entry: Receipt)
    requires Inv(w) && MirrorsEntry(w, row, entry)
    ensures MirrorsEntry(Act(w, step), row, entry)
  {
    hide Inv, Act;
    var r, action :| Proposes(w, r, action) && action.idempotencyKey == row.key && row.requestHash == Digest(action);
    ActKeepsProposal(w, step, r, action);
  }

  /** Without faults the gateway answers as the atomic ledger does. */
  lemma FaultlessAnswer(t: ToolState, action: ProposedAction, id: Uuid)
    requires forall x | x in t.faults :: t.faults[x] == UnknownFault
    ensures
      var key, t' := action.idempotencyKey, AfterExecute(t, action, id);
      && Answer(t, action, id).Answered?
      && var receipt := Answer(t, action, id).receipt;
         if key in t.effects then
           receipt.status == Replayed && receipt.effectId == t.effects[key].effectId && t'.effects == t.effects
         else
           receipt.status == Succeeded && receipt.effectId == Some(id)
           && exists n :: t'.effects == t.effects[key := EffectReceipt(action, id, n)]
  {
    var key := action.idempotencyKey;
    if key !in t.effects {
      var n := GetOr(t.attempts, key, 0) + 1;
      assert AfterExecute(t, action, id).effects == t.effects[key := EffectReceipt(action, id, n)];
    }
  }

  lemma ExecutionTools(w: World, step: Step)
    requires Executes(w, step)
    ensures Act(w, step).tools == AfterExecute(w.tools, CallOf(w, step).action, CallOf(w, step).effectId)
  {
    hide Answer, AfterExecute, Status, WithEvent;
  }

  lemma ExecutionMirrors(w: World, step: Step, rows: map<string, Ledger.Row>)
    requires Inv(w) && Mirrors(w, rows) && Faultless(w) && Executes(w, step)
    ensures Mirrors(Act(w, step), Ledger.AtomicRows(rows, CallOf(w, step)))
  {
    hide Inv, Answer, AfterExecute;
    var call := CallOf(w, step);
    FaultlessAnswer(w.tools, call.action, call.effectId);
    ExecutionTools(w, step);
    assert Proposes(w, step.runId, call.action);
    ActKeepsProposal(w, step, step.runId, call.action);
    hide Act;
    var w', rows' := Act(w, step), Ledger.AtomicRows(rows, call);
    forall k | k in rows' ensures rows'[k].key == k && MirrorsEntry(w', rows'[k], w'.tools.effects[k]) {
      if k in rows {
        EntryStays(w, step, rows[k], w.tools.effects[k]);
      }
    }
  }

  lemma {:induction false} TableMirrors(steps: seq<Step>)
    requires NoFaults(steps)
    ensures Faultless(Run(START, steps)) && Mirrors(Run(START, steps), Table(steps))
  {
    hide Inv, Act, Executes, CallOf, Ledger.AtomicRows;
    if steps != [] {
      var init, last := steps[..|steps| - 1], steps[|steps| - 1];
      TableMirrors(init);
      Reachable(init);
      var w := Run(START, init);
      hide Run;
      assert Run(START, steps) == Act(w, last) by { RunLast(steps); }
      FaultlessStep(w, last);
      if Executes(w, last) {
        ExecutionMirrors(w, last, Table(init));
      } else {
        OnlyExecutionsWrite(w, last);
        forall k | k in Table(init) ensures MirrorsEntry(Act(w, last), Table(init)[k], w.tools.effects[k]) {
          EntryStays(w, last, Table(init)[k], w.tools.effects[k]);
        }
      }
    }
  }

  lemma RunLast(steps: seq<Step>)
    requires steps != []
    ensures Run(START, steps) == Act(Run(START, steps[..|steps| - 1]), steps[|steps| - 1])
  {
  }

  /** What the workflow is answered is what the table answers: created is success, repeated a
      replay of the same effect, and a conflict never comes up. */
  lemma WorkflowSeesTheTable(steps: seq<Step>, step: Step)
    requires NoFaults(steps) && Executes(Run(START, steps), step)
    ensures
      var w := Run(START, steps);
      var outcome, pc := Ledger.AtomicOutcome(Table(steps), CallOf(w, step)), Act(w, step).threads[step.runId].next;
      && step.runId in Act(w, step).threads && pc.Settling? && pc.receipt.Some?
      && (outcome.Created? || outcome.Repeated?)
      && pc.receipt.value.status == (if outcome.Created? then Succeeded else Replayed)
      && pc.receipt.value.effectId == Some(outcome.row.effectId)
  {
    hide Run, Answer, AfterExecute, WithEvent;
    var w, call := Run(START, steps), CallOf(Run(START, steps), step);
    TableMirrors(steps);
    FaultlessAnswer(w.tools, call.action, call.effectId);
    var key := call.action.idempotencyKey;
    if key in Table(steps) {
      var r, action :|
        Proposes(w, r, action) && action.idempotencyKey == key && Table(steps)[key].requestHash == Digest(action);
      KeyDeterminesAction(steps, r, step.runId);
    }
  }

  // ----- Clients at work at the same time -----

  function InOrder(n: nat): seq<nat> {
    seq(n, i => i)
  }

  lemma {:induction false} SerialRowsOfPrefix(calls: seq<Ledger.Call>, more: seq<Ledger.Call>, rows: map<string,
      Ledger.Row>, order: seq<nat>)
    requires forall n | 0 <= n < |order| :: order[n] < |calls|
    ensures Ledger.SerialRows(calls + more, rows, order) == Ledger.SerialRows(calls, rows, order)
  {
    if order != [] {
      SerialRowsOfPrefix(calls, more, rows, order[..|order| - 1]);
    }
  }

  /** The table is what the executions give one at a time. */
  lemma {:induction false} TableIsSerial(steps: seq<Step>)
    ensures Table(steps) == Ledger.SerialRows(Executions(steps), map[], InOrder(|Executions(steps)|))
  {
    hide Run, Executes, CallOf, Ledger.AtomicRows;
    if steps != [] {
      var init, last := steps[..|steps| - 1], steps[|steps| - 1];
      TableIsSerial(init);
      if Executes(Run(START, init), last) {
        var calls, call := Executions(init), CallOf(Run(START, init), last);
        assert Executions(steps) == calls + [call];
        SerialRowsOfPrefix(calls, [call], map[], InOrder(|calls|));
        var order := InOrder(|calls| + 1);
        assert order[..|order| - 1] == InOrder(|calls|);
      } else {
        assert Executions(steps) == Executions(init);
      }
    }
  }

  lemma {:induction false} ExecutionsAreAsked(steps: seq<Step>, i: nat)
    requires i < |Executions(steps)|
    ensures Asked(steps, Executions(steps)[i].action)
  {
    hide Run;
    var init, last := steps[..|steps| - 1], steps[|steps| - 1];
    if i < |Executions(init)| {
      ExecutionsAreAsked(init, i);
      AskedStays(init, last, Executions(init)[i].action);
      assert init + [last] == steps;
    } else {
      assert Proposes(Run(START, steps[..|steps| - 1]), last.runId, Executions(steps)[i].action);
    }
  }

  lemma AskedStays(steps: seq<Step>, step: Step, action: ProposedAction)
    requires Asked(steps, action)
    ensures Asked(steps + [step], action)
  {
    hide Run;
    var n: nat, r :| n <= |steps| && Proposes(Run(START, steps[..n]), r, action);
    assert (steps + [step])[..n] == steps[..n];
  }

  /** The executions of a history on the SQL ledger, beside any further attempts at actions
      its runs proposed that are rolled back or still under way, all as concurrent clients
      that interleave in any way; those that finish do so in the order of the history. A run
      with no call in flight is COMPLETED exactly when the table holds a row under its key. */
  lemma StatusAgreesWithRows(steps: seq<Step>, lost: seq<Ledger.Call>, moves: seq<Ledger.Move>, r: Uuid)
    requires NoFaults(steps) && AtRest(Run(START, steps), r)
    requires forall i | 0 <= i < |lost| :: Asked(steps, lost[i].action)
    requires Ledger.FinishOrder(Executions(steps) + lost, map[], moves) == InOrder(|Executions(steps)|)
    ensures
      var w, db := Run(START, steps), Ledger.Run(Executions(steps) + lost, map[], moves);
      && r in w.repo.runs && w.repo.runs[r].caseId in w.repo.cases
      && (w.repo.runs[r].status == Completed <==> RunKey(w, r) in db.rows)
  {
    hide Run, Inv, RunOk, Executes, CallOf, Asked, Ledger.Run, Ledger.FinishOrder, Ledger.AnsweredAt, KeyFor;
    var calls, all := Executions(steps), Executions(steps) + lost;
    forall i: nat | i < |all| ensures Asked(steps, all[i].action) {
      if i < |calls| {
        ExecutionsAreAsked(steps, i);
      }
    }
    ExecutionsLinearize(steps, all, map[], moves);
    SerialRowsOfPrefix(calls, lost, map[], InOrder(|calls|));
    TableIsSerial(steps);
    TableMirrors(steps);
    LedgerAgreesWithStatus(steps);
    ReachableRun(steps, r);
    RunOkKnown(Run(START, steps), r);
  }
}
