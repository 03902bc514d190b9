/** What holds of every run at every point of the protocol, as a predicate on the run's own
    view of the shared state, and the proof that each node step keeps it. */
module Invariant {
  import opened Domain
  import opened Gateway
  import opened Repository
  import opened Protocol
  import Policy

  // ----- What a log counts -----

  /** The closure events and the effect events of a log. */
  datatype Tally = Tally(closures: nat, effects: nat)

  function NextTally(t: Tally, e: Event): Tally {
    Tally(t.closures + (if e.RunClosed? || e.RunStopped? then 1 else 0),
          t.effects + (if e.ReceiptCommitted? then 1 else 0))
  }

  function Scan(log: seq<Event>): Tally {
    if log == [] then Tally(0, 0) else NextTally(Scan(log[..|log| - 1]), log[|log| - 1])
  }

  lemma ScanSnoc(log: seq<Event>, e: Event)
    ensures Scan(log + [e]) == NextTally(Scan(log), e)
  {
    assert (log + [e])[..|log|] == log;
  }

  // ----- A run's view -----

  datatype RunView = RunView(
    id: Uuid,
    request: CaseRequest,
    isPublicDemo: bool,
    record: RunRecord,
    tally: Tally,
    approvals: seq<Approval>,
    receipts: seq<Receipt>,
    thread: Thread,
    entry: Option<Receipt>)

  ghost predicate Known(w: World, r: Uuid) {
    r in w.repo.runs && r in w.threads && w.repo.runs[r].caseId in w.repo.cases
  }

  function RequestOf(w: World, r: Uuid): CaseRequest
    requires r in w.repo.runs && w.repo.runs[r].caseId in w.repo.cases
  {
    w.repo.cases[w.repo.runs[r].caseId].request
  }

  /** The one ledger key a run can write under. */
  function RunKey(w: World, r: Uuid): string
    requires r in w.repo.runs && w.repo.runs[r].caseId in w.repo.cases
  {
    KeyFor(r, RequestOf(w, r).requestedAction)
  }

  function View(w: World, r: Uuid): RunView
    requires Known(w, r)
  {
    RunView(r, RequestOf(w, r), w.repo.cases[w.repo.runs[r].caseId].isPublicDemo, w.repo.runs[r],
            Scan(GetOr(w.repo.events, r, [])), GetOr(w.repo.approvals, r, []), GetOr(w.repo.receipts, r, []),
            w.threads[r], Find(w.tools.effects, RunKey(w, r)))
  }

  // ----- What holds of a view -----

  ghost predicate Identity(v: RunView) {
    var s := v.thread.state;
    && s.runId == v.id && s.request == v.request
    && s.authenticatedTenant == v.request.tenantId == v.record.tenantId
    && v.record.isPublicDemo == v.isPublicDemo
  }

  /** The decision is what the policy engine gave on this evidence at some time. */
  ghost predicate Grounded(d: Decision, request: CaseRequest, evidence: seq<EvidenceRecord>, tenant: string) {
    exists now :: d == Policy.Decide(request, evidence, tenant, now)
  }

  /** The decision is grounded, and the proposed action is the one the run's request and
      recommendation determine. */
  ghost predicate Bound(v: RunView) {
    var s := v.thread.state;
    && s.decision.Some? && s.recommendation.Some?
    && Grounded(s.decision.value, s.request, Evidence(s), s.authenticatedTenant)
    && s.proposedAction == Some(ActionFor(v.id, v.request, v.record.caseId, s.recommendation.value.rationale))
  }

  ghost predicate Authorised(v: RunView) {
    Bound(v) && v.thread.state.decision.value.allowed && v.thread.state.recommendation.value.unsupportedClaims == []
  }

  ghost predicate ApprovedIn(approvals: seq<Approval>, action: ProposedAction) {
    exists a | a in approvals :: a.approved && a.proposedActionHash == Digest(action)
  }

  ghost predicate AllReport(receipts: seq<Receipt>, entry: Option<Receipt>) {
    forall i | 0 <= i < |receipts| :: entry.Some? && Reports(receipts[i], entry.value)
  }

  /** An approver's decision for exactly this action is on file. */
  ghost predicate ApprovalOnFile(v: RunView) {
    && Authorised(v) && v.thread.state.approval.Some?
    && ApprovedIn(v.approvals, v.thread.state.proposedAction.value)
  }

  ghost predicate EntryOf(entry: Receipt, action: ProposedAction) {
    exists id, n :: entry == EffectReceipt(action, id, n)
  }

  /** No effect without an allowed decision, supported claims and an approval on file. */
  ghost predicate EntryTraced(v: RunView) {
    && (v.entry.Some? ==> ApprovalOnFile(v) && EntryOf(v.entry.value, v.thread.state.proposedAction.value))
    && AllReport(v.receipts, v.entry)
  }

  ghost predicate Untouched(v: RunView) {
    var s := v.thread.state;
    && v.entry.None? && v.approvals == [] && v.receipts == []
    && s.approval.None? && s.receipt.None? && s.blockedReason.None? && !s.outcomeVerified && s.retryCount == 0
  }

  ghost predicate BeforeNode(s: WorkflowState) {
    s.approval.Some? && s.receipt.None? && s.blockedReason.None? && !s.outcomeVerified && s.retryCount == 0
    && s.currentNode == Some(HumanInterrupt)
  }

  function TrunkIndex(n: Node): nat {
    match n
    case IntakeValidation => 0
    case RecordCollection => 1
    case PolicyRetrieval => 2
    case FreshnessChecks => 3
    case PolicyDecision => 4
    case LlmRecommendation => 5
    case _ => 6
  }

  ghost predicate TrunkOk(v: RunView, n: Node) {
    && Untouched(v) && v.record.status == Running
    && (TrunkIndex(n) >= 3 ==> v.thread.state.policies.Some?)
    && v.thread.state.proposedAction.None?
    && (TrunkIndex(n) >= 5 ==>
          var s := v.thread.state;
          s.decision.Some? && Grounded(s.decision.value, s.request, Evidence(s), s.authenticatedTenant))
  }

  /** The effect is on the ledger, in the run's state and in the repository. */
  ghost predicate Effective(v: RunView) {
    var s := v.thread.state;
    v.entry.Some? && s.receipt.Some? && Reports(s.receipt.value, v.entry.value) && s.blockedReason.None?
        && v.receipts != []
  }

  ghost predicate ClosedOk(v: RunView) {
    v.thread.state.currentNode == Some(AuditClosure) && v.thread.state.outcomeVerified && Effective(v)
  }

  ghost predicate StoppedOk(v: RunView) {
    && v.thread.state.currentNode == Some(BlockedClosure) && !v.thread.state.outcomeVerified
    && v.thread.state.blockedReason.Some? && v.entry.None? && Bound(v)
  }

  function PhaseStatus(s: WorkflowState): RunStatus {
    if s.approval.Some? then AwaitingApproval else Running
  }

  ghost predicate PcOk(v: RunView) {
    var s := v.thread.state;
    match v.thread.next
    case Ready(n) =>
      (match n
       case HumanInterrupt => Untouched(v) && Authorised(v) && v.record.status == Running
       case IdempotentExecution => false
       case OutcomeVerification =>
         && ApprovalOnFile(v) && s.approval.Some? && v.record.status == AwaitingApproval
         && (if s.receipt.Some? then Effective(v) else s.blockedReason.Some? && v.entry.None?)
       case AuditClosure => ApprovalOnFile(v) && s.approval.Some? && v.record.status == AwaitingApproval
                            && s.outcomeVerified && Effective(v)
       case BlockedClosure => Bound(v) && v.entry.None? && !s.outcomeVerified && s.receipt.None?
                              && v.record.status == PhaseStatus(s)
       case _ => TrunkOk(v, n))
    case Retrying(k, receipt, lastError) =>
      && ApprovalOnFile(v) && BeforeNode(s) && v.record.status == AwaitingApproval
      && 1 <= k <= 3 && (receipt.Some? ==> receipt.value.status.NotFound?)
    case Settling(receipt, lastError) =>
      && ApprovalOnFile(v) && BeforeNode(s) && v.record.status == AwaitingApproval
      && (Holds(receipt) <==> v.entry.Some?)
      && (Holds(receipt) ==> Reports(receipt.value, v.entry.value))
      && (!Holds(receipt) ==> lastError.Some?)
    case Suspended => Untouched(v) && Authorised(v) && v.record.status == Running
    case Waiting => Untouched(v) && Authorised(v) && v.record.status == AwaitingApproval && v.record.state == Some(s)
    case Ended => v.record.status == PhaseStatus(s) && (ClosedOk(v) || StoppedOk(v))
    case Done =>
      && v.record.state == Some(s) && (ClosedOk(v) || StoppedOk(v))
      && v.record.status == (if v.entry.Some? then Completed else Blocked)
    case Raised => false
  }

  ghost predicate AuditOk(v: RunView) {
    && v.tally.closures == (if v.thread.next.Ended? || v.thread.next.Done? then 1 else 0)
    && v.tally.effects == |v.receipts|
    && (v.record.finishedAt.Some? <==> v.thread.next.Done?)
  }

  ghost predicate ViewOk(v: RunView) {
    Identity(v) && EntryTraced(v) && PcOk(v) && AuditOk(v)
  }

  // ----- What holds of the world -----

  ghost predicate RunOk(w: World, r: Uuid) {
    Known(w, r) && ViewOk(View(w, r))
  }

  /** Runs are listed once each, and a replay is of an earlier run of the same case. */
  ghost predicate OrderOk(w: World) {
    var order := w.repo.runOrder;
    && (forall r :: r in w.repo.runs <==> r in order)
    && (forall i, j | 0 <= i < j < |order| :: order[i] != order[j])
    && (forall i | 0 <= i < |order| && w.repo.runs[order[i]].replayOf.Some? ::
          exists j | 0 <= j < i :: Replays(w, order[i], order[j]))
  }

  ghost predicate Replays(w: World, child: Uuid, parent: Uuid) {
    && child in w.repo.runs && parent in w.repo.runs
    && w.repo.runs[child].replayOf == Some(parent)
    && w.repo.runs[child].caseId == w.repo.runs[parent].caseId
    && w.repo.runs[child].tenantId == w.repo.runs[parent].tenantId
  }

  /** Every ledger key is the key of some run. */
  ghost predicate LedgerOwned(w: World) {
    forall k | k in w.tools.effects :: exists r | r in w.repo.runs :: OwnsKey(w, r, k)
  }

  ghost predicate OwnsKey(w: World, r: Uuid, k: string) {
    r in w.repo.runs && w.repo.runs[r].caseId in w.repo.cases && RunKey(w, r) == k
  }

  ghost predicate Inv(w: World) {
    && w.repo.runs.Keys == w.threads.Keys
    && (forall r | r in w.repo.runs :: RunOk(w, r))
    && OrderOk(w) && LedgerOwned(w)
    && RunsOnly(w)
  }

  /** Only runs have logs, approvals and receipts. */
  ghost predicate RunsOnly(w: World) {
    w.repo.events.Keys <= w.repo.runs.Keys && w.repo.approvals.Keys <= w.repo.runs.Keys
        && w.repo.receipts.Keys <= w.repo.runs.Keys
  }

  // ----- A step of one run -----

  /** Only run r's own data and its own ledger key may differ; its record keeps what
      identifies it. */
  ghost predicate OnlyRun(w: World, w': World, r: Uuid) {
    && Known(w, r)
    && w'.repo.cases == w.repo.cases && w'.repo.runOrder == w.repo.runOrder
    && w'.repo.runs.Keys == w.repo.runs.Keys && w'.threads.Keys == w.threads.Keys
    && w'.repo.runs[r].caseId == w.repo.runs[r].caseId
    && w'.repo.runs[r].tenantId == w.repo.runs[r].tenantId
    && w'.repo.runs[r].replayOf == w.repo.runs[r].replayOf
    && w'.repo.webhooks == w.repo.webhooks
    && (forall q | q in w.repo.runs && q != r :: w'.repo.runs[q] == w.repo.runs[q])
    && (forall q | q in w.threads && q != r :: w'.threads[q] == w.threads[q])
    && (forall q | q != r :: Find(w'.repo.events, q) == Find(w.repo.events, q))
    && (forall q | q != r :: Find(w'.repo.approvals, q) == Find(w.repo.approvals, q))
    && (forall q | q != r :: Find(w'.repo.receipts, q) == Find(w.repo.receipts, q))
    && (forall k | k != RunKey(w, r) :: Find(w'.tools.effects, k) == Find(w.tools.effects, k))
  }

  lemma OthersUntouched(w: World, w': World, r: Uuid, q: Uuid)
    requires OnlyRun(w, w', r) && q != r && Known(w, q)
    ensures Known(w', q) && View(w', q) == View(w, q)
  {
    KeysDiffer(q, RequestOf(w, q).requestedAction, r, RequestOf(w, r).requestedAction);
    assert Find(w'.repo.events, q) == Find(w.repo.events, q);
    assert Find(w'.repo.approvals, q) == Find(w.repo.approvals, q);
    assert Find(w'.repo.receipts, q) == Find(w.repo.receipts, q);
  }

  /** A step of one run that keeps the run's own view in order keeps the invariant. */
  lemma StepKeepsInv(w: World, w': World, r: Uuid)
    requires Inv(w) && OnlyRun(w, w', r) && RunOk(w', r)
    ensures Inv(w')
  {
    forall q | q in w'.repo.runs ensures RunOk(w', q) {
      OtherStaysOk(w, w', r, q);
    }
    OwnershipKept(w, w', r);
    OrderKept(w, w', r);
    RunsOnlyKept(w, w', r);
  }

  lemma OtherStaysOk(w: World, w': World, r: Uuid, q: Uuid)
    requires OnlyRun(w, w', r) && RunOk(w', r) && RunOk(w, q)
    ensures RunOk(w', q)
  {
    if q != r {
      OthersUntouched(w, w', r, q);
    }
  }

  lemma OwnershipKept(w: World, w': World, r: Uuid)
    requires LedgerOwned(w) && OnlyRun(w, w', r)
    ensures LedgerOwned(w')
  {
    forall k | k in w'.tools.effects ensures exists q | q in w'.repo.runs :: OwnsKey(w', q, k) {
      if k == RunKey(w, r) {
        assert OwnsKey(w', r, k);
      } else {
        assert Find(w'.tools.effects, k) == Find(w.tools.effects, k);
        var q :| q in w.repo.runs && OwnsKey(w, q, k);
        assert OwnsKey(w', q, k);
      }
    }
  }

  lemma RunsOnlyKept(w: World, w': World, r: Uuid)
    requires RunsOnly(w) && OnlyRun(w, w', r)
    ensures RunsOnly(w')
  {
    forall q | q in w'.repo.events.Keys ensures q in w'.repo.runs.Keys {
      assert q != r ==> Find(w'.repo.events, q) == Find(w.repo.events, q);
    }
    forall q | q in w'.repo.approvals.Keys ensures q in w'.repo.runs.Keys {
      assert q != r ==> Find(w'.repo.approvals, q) == Find(w.repo.approvals, q);
    }
    forall q | q in w'.repo.receipts.Keys ensures q in w'.repo.runs.Keys {
      assert q != r ==> Find(w'.repo.receipts, q) == Find(w.repo.receipts, q);
    }
  }

  lemma OrderKept(w: World, w': World, r: Uuid)
    requires OrderOk(w) && OnlyRun(w, w', r)
    ensures OrderOk(w')
  {
    hide View, RunKey;
    var order := w.repo.runOrder;
    forall i | 0 <= i < |order| && w'.repo.runs[order[i]].replayOf.Some?
      ensures exists j | 0 <= j < i :: Replays(w', order[i], order[j])
    {
      assert order[i] in w.repo.runs;
      var j :| 0 <= j < i && Replays(w, order[i], order[j]);
      ReplayKept(w, w', r, order[i], order[j]);
    }
  }

  lemma ReplayKept(w: World, w': World, r: Uuid, child: Uuid, parent: Uuid)
    requires OnlyRun(w, w', r) && Replays(w, child, parent)
    ensures Replays(w', child, parent)
  {
  }
}
