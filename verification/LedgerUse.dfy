/** The control plane as the user of the PostgreSQL ledger: what the runs of any history ask
    of it never clashes, so the conflict error is never raised and the race branch, which
    compares no hashes, never answers for another action. */
module LedgerUse {
  import opened Domain
  import opened Gateway
  import opened Repository
  import opened Protocol
  import opened Invariant
  import opened Preservation
  import opened System
  import opened Theorems
  import Ledger = PostgresLedger
  import Policy
  import Webhooks

  predicate Proposes(w: World, r: Uuid, action: ProposedAction) {
    r in w.threads && w.threads[r].state.proposedAction == Some(action)
  }

  // ----- A proposed action is fixed -----

  lemma ProposedIsPastTheTrunk(w: World, r: Uuid)
    requires RunOk(w, r) && w.threads[r].state.proposedAction.Some?
    ensures w.threads[r].next != Ready(LlmRecommendation)
  {
    hide Scan, Grounded, AuditOk, EntryTraced, Identity, KeyFor;
  }

  lemma NodeKeepsProposal(w: World, r: Uuid, input: NodeInput)
    requires r in w.threads && w.threads[r].next != Ready(LlmRecommendation)
    ensures
      var w' := RunNode(w, r, input);
      r in w'.threads && w'.threads[r].state.proposedAction == w.threads[r].state.proposedAction
  {
    hide Policy.Decide, CollectRecords, Answer, AfterExecute, WithEvent, WithReceipt;
  }

  lemma ActKeepsProposal(w: World, step: Step, r: Uuid, action: ProposedAction)
    requires Inv(w) && Proposes(w, r, action)
    ensures Proposes(Act(w, step), r, action)
  {
    hide RunOk, RunNode, OrderOk, LedgerOwned, RunsOnly, StartError, AuthorizationError, ApprovalError, WithEvent,
        WithRun;
    if (step.NodeStep? || step.Approve? || step.CutOff? || step.RecordOutcome?) && step.runId in w.threads {
      if step.runId != r {
        Webhooks.RunStepIsOnlyRun(w, step);
      } else if step.NodeStep? {
        ProposedIsPastTheTrunk(w, r);
        NodeKeepsProposal(w, r, step.input);
      }
    }
  }

  /** What a run proposed at some point it proposes for ever after. */
  lemma {:induction false} ProposalIsFixed(steps: seq<Step>, n: nat, r: Uuid, action: ProposedAction)
    requires n <= |steps| && Proposes(Run(START, steps[..n]), r, action)
    ensures Proposes(Run(START, steps), r, action)
    decreases |steps|
  {
    hide Act, Inv, Proposes;
    if n == |steps| {
      assert steps[..n] == steps;
    } else {
      var before := steps[..|steps| - 1];
      assert before[..n] == steps[..n];
      ProposalIsFixed(before, n, r, action);
      Reachable(before);
      ActKeepsProposal(Run(START, before), steps[|steps| - 1], r, action);
    }
  }

  // ----- What the system asks of the ledger -----

  /** Some run has come to propose the action, at some point of the history. */
  ghost predicate Asked(steps: seq<Step>, action: ProposedAction) {
    exists n: nat, r :: n <= |steps| && Proposes(Run(START, steps[..n]), r, action)
  }

  /** Whenever two runs proposed them, two actions with one key are one action. */
  lemma AskedOnceForEachKey(steps: seq<Step>, a: ProposedAction, b: ProposedAction)
    requires Asked(steps, a) && Asked(steps, b) && a.idempotencyKey == b.idempotencyKey
    ensures a == b
  {
    hide Run;
    var n: nat, r :| n <= |steps| && Proposes(Run(START, steps[..n]), r, a);
    var m: nat, q :| m <= |steps| && Proposes(Run(START, steps[..m]), q, b);
    ProposalIsFixed(steps, n, r, a);
    ProposalIsFixed(steps, m, q, b);
    KeyDeterminesAction(steps, r, q);
  }

  ghost predicate RowAsked(steps: seq<Step>, row: Ledger.Row) {
    exists action :: Asked(steps, action) && action.idempotencyKey == row.key && row.requestHash == Digest(action)
  }

  /** The clients are executions of proposed actions, and so were those that filled the table. */
  ghost predicate FromRuns(steps: seq<Step>, calls: seq<Ledger.Call>, rows: map<string, Ledger.Row>) {
    && Ledger.RowsKeyed(rows)
    && (forall i | 0 <= i < |calls| :: Asked(steps, calls[i].action))
    && (forall k | k in rows :: RowAsked(steps, rows[k]))
  }

  lemma RunsNeverClash(steps: seq<Step>, calls: seq<Ledger.Call>, rows: map<string, Ledger.Row>)
    requires FromRuns(steps, calls, rows)
    ensures Ledger.NoClash(calls, rows)
  {
    hide Asked;
    forall i, j | 0 <= i < |calls| && 0 <= j < |calls| && Ledger.KeyAt(calls, i) == Ledger.KeyAt(calls, j)
      ensures calls[i].action == calls[j].action
    {
      AskedOnceForEachKey(steps, calls[i].action, calls[j].action);
    }
  }

  /** A row that stands under the key of an asked action was written for that action. */
  lemma RowIsOfTheAction(steps: seq<Step>, row: Ledger.Row, action: ProposedAction)
    requires RowAsked(steps, row) && Asked(steps, action) && action.idempotencyKey == row.key
    ensures row.requestHash == Digest(action)
  {
    hide Asked;
    var other :| Asked(steps, other) && other.idempotencyKey == row.key && row.requestHash == Digest(other);
    AskedOnceForEachKey(steps, action, other);
  }

  lemma TableIsOfTheRuns(steps: seq<Step>, calls: seq<Ledger.Call>, rows: map<string, Ledger.Row>,
      moves: seq<Ledger.Move>, k: string)
    requires FromRuns(steps, calls, rows) && k in Ledger.Run(calls, rows, moves).rows
    ensures Ledger.Run(calls, rows, moves).rows[k].key == k && RowAsked(steps, Ledger.Run(calls, rows, moves).rows[k])
  {
    hide Asked, Ledger.Step;
    Ledger.RunKeeps(calls, rows, moves);
    hide Ledger.Run, Ledger.ClientOk, Ledger.HeldOk, Ledger.CreatedOnce;
    var db := Ledger.Run(calls, rows, moves);
    if k !in rows {
      var j: nat :| Ledger.CreatedBy(calls, db, k, j) && db.rows[k] == Ledger.RowOf(calls[j]);
      assert Asked(steps, calls[j].action);
    }
  }

  /** Over any history of the control plane and any interleaving of the executions it leads
      to: whoever finishes is told of its own action's effect. No conflict, no lost race, and
      no replay of anything else. */
  lemma EveryAnswerIsForItsAction(steps: seq<Step>, calls: seq<Ledger.Call>, rows: map<string, Ledger.Row>,
                                  moves: seq<Ledger.Move>, i: nat)
    requires FromRuns(steps, calls, rows) && i < |calls|
    requires Ledger.Run(calls, rows, moves).clients[i].Finished?
    ensures
      var db := Ledger.Run(calls, rows, moves);
      var outcome, key := db.clients[i].outcome, Ledger.KeyAt(calls, i);
      && (outcome.Created? || outcome.Repeated?)
      && key in db.rows && outcome.row == db.rows[key] && outcome.row.requestHash == Digest(calls[i].action)
  {
    hide Asked, Ledger.Step;
    Ledger.RunKeeps(calls, rows, moves);
    hide Ledger.Run, Ledger.HeldOk, Ledger.RowsOk, Ledger.CreatedOnce;
    assert Ledger.ClientOk(calls, rows, Ledger.Run(calls, rows, moves), i);
    var key := Ledger.KeyAt(calls, i);
    TableIsOfTheRuns(steps, calls, rows, moves, key);
    hide RowAsked;
    RowIsOfTheAction(steps, Ledger.Run(calls, rows, moves).rows[key], calls[i].action);
  }

  /** So the executions of any history, interleaved in any way on the SQL ledger, are one by
      one the calls of the atomic ledger, in the order in which they finish. */
  lemma ExecutionsLinearize(steps: seq<Step>, calls: seq<Ledger.Call>, rows: map<string, Ledger.Row>,
                            moves: seq<Ledger.Move>)
    requires FromRuns(steps, calls, rows)
    ensures Ledger.Serial(calls, rows, Ledger.Run(calls, rows, moves), Ledger.FinishOrder(calls, rows, moves))
  {
    RunsNeverClash(steps, calls, rows);
    Ledger.Linearizable(calls, rows, moves);
  }
}
