/** What the audit log says is true: in every reachable state every event in the log of a run
    agrees with the evidence, the decision, the proposed action, the approvals, the receipts
    and the ledger, and what was once written never becomes false. */
module Trail {
  import opened Domain
  import opened Gateway
  import opened Repository
  import opened Protocol
  import opened Invariant
  import opened Preservation
  import opened System
  import opened Theorems
  import opened History
  import Policy
  import Webhooks

  /** What there is to check an event against. */
  datatype Facts = Facts(thread: Thread, approvals: seq<Approval>, receipts: seq<Receipt>, effect: bool)

  function FactsOf(w: World, r: Uuid): Facts
    requires r in w.threads
  {
    Facts(w.threads[r], GetOr(w.repo.approvals, r, []), GetOr(w.repo.receipts, r, []), HasEffect(w, r))
  }

  predicate Over(pc: Pc) {
    pc.Ended? || pc.Done?
  }

  predicate SavedApproval(f: Facts, approved: bool, actorId: string) {
    f.thread.state.proposedAction.Some? &&
    exists i | 0 <= i < |f.approvals| ::
      f.approvals[i].approved == approved && f.approvals[i].actorId == actorId
      && f.approvals[i].proposedActionHash == Digest(f.thread.state.proposedAction.value)
  }

  predicate SavedReceipt(f: Facts, status: ReceiptStatus, effectId: Option<Uuid>, attempts: nat) {
    exists i | 0 <= i < |f.receipts| ::
      f.receipts[i].status == status && f.receipts[i].effectId == effectId && f.receipts[i].attemptCount == attempts
  }

  /** A failure as the gateway raises it, with the flags that go with its kind. */
  predicate KnownFailure(failure: ToolFailure) {
    || (failure.kind in {Timeout, TooManyRequests, ServerError} && failure.retryable && !failure.committed)
    || (failure.kind == SchemaDrift && !failure.retryable && !failure.committed)
    || (failure.kind == CommitThenTimeout && !failure.retryable && failure.committed)
  }

  /** The event is true. */
  predicate Tells(e: Event, f: Facts) {
    var s := f.thread.state;
    match e
    case RequestValidated => s.request.tenantId == s.authenticatedTenant
    case RecordsCollected(sources) =>
      && s.evidence.Some? && |sources| == |s.evidence.value|
      && forall i | 0 <= i < |sources| :: sources[i] == s.evidence.value[i].source
    case PoliciesRetrieved(ids) =>
      && s.policies.Some? && |ids| == |s.policies.value|
      && forall i | 0 <= i < |ids| :: ids[i] == s.policies.value[i].policyId
    case ChecksEvaluated(n) => s.evidence.Some? && n == |s.evidence.value|
    case DecisionEvaluated(allowed, codes) =>
      s.decision.Some? && allowed == s.decision.value.allowed && codes == s.decision.value.reasonCodes
    case RecommendationBound(n) => s.recommendation.Some? && n == |s.recommendation.value.unsupportedClaims|
    case PausedBeforeEffect(hash, irreversible) =>
      s.proposedAction.Some? && hash == Digest(s.proposedAction.value)
          && irreversible == s.proposedAction.value.irreversible
    case ApprovalRecorded(approved, actorId) => SavedApproval(f, approved, actorId)
    case ToolFailureClassified(attempt, failure) =>
      1 <= attempt <= 3 && KnownFailure(failure) && (failure.committed ==> f.effect)
    case ReceiptCommitted(status, effectId, attempts) => f.effect && SavedReceipt(f, status, effectId, attempts)
    case OutcomeChecked(verified) => verified && f.effect
    case RunClosed => Over(f.thread.next) && f.effect
    case RunStopped(reason) => Over(f.thread.next) && s.blockedReason == Some(reason)
    case ReplayRequested(_) => true
  }

  /** What is not known yet, node by node. */
  predicate Unset(t: Thread) {
    t.next.Ready? ==>
      && (TrunkIndex(t.next.node) <= 1 ==> t.state.evidence.None?)
      && (2 <= TrunkIndex(t.next.node) <= 5 ==> t.state.evidence.Some?)
      && (TrunkIndex(t.next.node) <= 2 ==> t.state.policies.None?)
      && (TrunkIndex(t.next.node) <= 4 ==> t.state.decision.None?)
      && (TrunkIndex(t.next.node) <= 5 ==> t.state.recommendation.None? && t.state.proposedAction.None?)
  }

  predicate Kept<T(==)>(before: Option<T>, after: Option<T>) {
    before.Some? ==> after == before
  }

  /** Nothing in the state that is known is unlearnt or changed. */
  predicate Learns(t: Thread, t': Thread) {
    var s, s' := t.state, t'.state;
    && s'.request == s.request && s'.authenticatedTenant == s.authenticatedTenant
    && Kept(s.evidence, s'.evidence) && Kept(s.policies, s'.policies) && Kept(s.decision, s'.decision)
    && Kept(s.recommendation, s'.recommendation) && Kept(s.proposedAction, s'.proposedAction)
    && (Over(t.next) ==> Over(t'.next) && s'.blockedReason == s.blockedReason)
  }

  predicate FactsGrow(f: Facts, f': Facts) {
    Learns(f.thread, f'.thread) && f.approvals <= f'.approvals && f.receipts <= f'.receipts && (f.effect ==> f'.effect)
  }

  lemma TellsOn(e: Event, f: Facts, f': Facts)
    requires Tells(e, f) && FactsGrow(f, f')
    ensures Tells(e, f')
  {
    assert forall i | 0 <= i < |f.approvals| :: f'.approvals[i] == f.approvals[i];
    assert forall i | 0 <= i < |f.receipts| :: f'.receipts[i] == f.receipts[i];
  }

  ghost predicate TrailOk(w: World, r: Uuid) {
    r in w.threads && Unset(w.threads[r]) && AllTell(GetOr(w.repo.events, r, []), FactsOf(w, r))
  }

  predicate AllTell(log: seq<Event>, f: Facts) {
    forall i | 0 <= i < |log| :: Tells(log[i], f)
  }

  /** A log that has grown by at most one event, and that one true. */
  predicate GrownTruly(log: seq<Event>, log': seq<Event>, f': Facts) {
    log' == log || (|log'| == |log| + 1 && log'[..|log|] == log && Tells(log'[|log|], f'))
  }

  lemma TrailGrows(log: seq<Event>, f: Facts, log': seq<Event>, f': Facts)
    requires AllTell(log, f) && FactsGrow(f, f') && GrownTruly(log, log', f')
    ensures AllTell(log', f')
  {
    hide Tells, FactsGrow;
    forall i | 0 <= i < |log'| ensures Tells(log'[i], f') {
      if i < |log| {
        assert log'[i] == log'[..|log|][i];
        TellsOn(log[i], f, f');
      }
    }
  }

  // ----- One node -----

  predicate Next(t: Thread, t': Thread) {
    Learns(t, t') && Unset(t')
  }

  /** A node that writes a true event and moves on. */
  lemma Noted(w: World, r: Uuid, e: Event, pc: Pc, s: WorkflowState)
    requires TrailOk(w, r)
    requires
      var t' := w.threads[r].(next := pc, state := s);
      Next(w.threads[r], t') && Tells(e, FactsOf(w, r).(thread := t'))
    ensures TrailOk(Goto(Emit(w, r, e), r, pc, s), r)
  {
    hide Tells, Next, HasEffect;
    var w' := Goto(Emit(w, r, e), r, pc, s);
    var log := GetOr(w.repo.events, r, []);
    assert GetOr(w'.repo.events, r, []) == log + [e] && (log + [e])[..|log|] == log;
    EffectDependsOn(w, w', r);
    assert FactsOf(w', r) == FactsOf(w, r).(thread := w'.threads[r]);
    NextMeans(w.threads[r], w'.threads[r]);
    hide Unset, Learns;
    TrailGrows(log, FactsOf(w, r), log + [e], FactsOf(w', r));
  }

  /** A node that moves on in silence. */
  lemma Silent(w: World, r: Uuid, pc: Pc, s: WorkflowState)
    requires TrailOk(w, r) && Next(w.threads[r], w.threads[r].(next := pc, state := s))
    ensures TrailOk(Goto(w, r, pc, s), r)
  {
    hide Tells, Next, HasEffect;
    var w' := Goto(w, r, pc, s);
    EffectDependsOn(w, w', r);
    NextMeans(w.threads[r], w'.threads[r]);
    hide Unset, Learns;
    TrailGrows(GetOr(w.repo.events, r, []), FactsOf(w, r), GetOr(w.repo.events, r, []), FactsOf(w', r));
  }

  lemma NextMeans(t: Thread, t': Thread)
    ensures Next(t, t') <==> Learns(t, t') && Unset(t')
  {
  }

  lemma EffectDependsOn(w: World, w': World, r: Uuid)
    requires w'.repo.runs == w.repo.runs && w'.repo.cases == w.repo.cases && w'.tools.effects == w.tools.effects
    ensures HasEffect(w', r) == HasEffect(w, r)
  {
  }

  lemma TrunkTells(w: World, r: Uuid, input: NodeInput)
    requires TrailOk(w, r) && RunOk(w, r)
    requires w.threads[r].next in {Ready(IntakeValidation), Ready(RecordCollection), Ready(PolicyRetrieval),
                                   Ready(FreshnessChecks), Ready(PolicyDecision)}
    ensures TrailOk(RunNode(w, r, input), r)
  {
    hide RunOk, TrailOk, HasEffect, WithEvent, Policy.Decide, CollectRecords;
    IdentityOf(w, r);
    UnsetOf(w, r);
    var s := w.threads[r].state;
    match w.threads[r].next
    case Ready(IntakeValidation) =>
      Noted(w, r, RequestValidated, Ready(RecordCollection), s.(currentNode := Some(IntakeValidation)));
    case Ready(RecordCollection) =>
      var records := CollectRecords(w.tools, s.request, input.collectedAt);
      Noted(w, r, RecordsCollected(SourcesOf(records)), Ready(PolicyRetrieval),
            s.(currentNode := Some(RecordCollection), evidence := Some(records)));
    case Ready(PolicyRetrieval) =>
      Noted(w, r, PoliciesRetrieved(PolicyIds(input.policies)), Ready(FreshnessChecks),
            s.(currentNode := Some(PolicyRetrieval), policies := Some(input.policies)));
    case Ready(FreshnessChecks) =>
      Noted(w, r, ChecksEvaluated(|Evidence(s)|), Ready(PolicyDecision), s.(currentNode := Some(FreshnessChecks)));
    case Ready(PolicyDecision) =>
      var decision := Policy.Decide(s.request, Evidence(s), s.authenticatedTenant, input.decidedAt);
      Noted(w, r, DecisionEvaluated(decision.allowed, decision.reasonCodes), Ready(LlmRecommendation),
            s.(currentNode := Some(PolicyDecision), decision := Some(decision)));
  }

  lemma IdentityOf(w: World, r: Uuid)
    requires RunOk(w, r)
    ensures Known(w, r) && w.threads[r].state.request.tenantId == w.threads[r].state.authenticatedTenant
    ensures w.threads[r].next == Ready(LlmRecommendation) ==>
      w.threads[r].state.decision.Some? && w.threads[r].state.policies.Some?
    ensures w.threads[r].next != Raised
  {
    hide Scan, Grounded, KeyFor, AuditOk, EntryTraced;
  }

  lemma UnsetOf(w: World, r: Uuid)
    requires TrailOk(w, r)
    ensures r in w.threads && Unset(w.threads[r])
  {
  }

  lemma RecommendTells(w: World, r: Uuid, answer: Recommendation)
    requires TrailOk(w, r) && RunOk(w, r) && w.threads[r].next == Ready(LlmRecommendation)
    ensures TrailOk(Recommend(w, r, answer), r)
  {
    hide RunOk, TrailOk, HasEffect, WithEvent, ActionFor, CheckClaims;
    IdentityOf(w, r);
    UnsetOf(w, r);
    var s := w.threads[r].state;
    var rec := CheckClaims(answer, s.policies.value);
    var action := ActionFor(r, s.request, w.repo.runs[r].caseId, rec.rationale);
    Noted(w, r, RecommendationBound(|rec.unsupportedClaims|), Ready(AfterRecommendation(s.decision.value, rec)),
          s.(currentNode := Some(LlmRecommendation), recommendation := Some(rec), proposedAction := Some(action)));
  }

  /** What a run past the recommendation has in hand, as far as its log will speak of it. */
  lemma InHand(w: World, r: Uuid)
    requires RunOk(w, r)
    ensures Known(w, r)
    ensures
      var t := w.threads[r];
      && (t.next in {Ready(HumanInterrupt), Ready(BlockedClosure), Waiting} || t.next.Retrying? ==>
          t.state.proposedAction.Some?)
      && (t.next == Ready(BlockedClosure) ==> t.state.decision.Some?)
      && (t.next == Ready(AuditClosure) ==> HasEffect(w, r))
      && (t.next == Ready(OutcomeVerification) && t.state.receipt.Some? ==>
            HasEffect(w, r) && t.state.blockedReason.None? && Holds(t.state.receipt)
            && t.state.receipt.value.response.Some? && t.state.receipt.value.response.value.verified)
      && (t.next.Settling? && Holds(t.next.receipt) ==> HasEffect(w, r))
      && (t.next.Retrying? ==> 1 <= t.next.attempt <= 3 && t.state.proposedAction.value.idempotencyKey == RunKey(w, r)
                               && Known(w, r))
  {
    hide Scan, Grounded, KeyFor, AuditOk;
  }

  lemma InterruptTells(w: World, r: Uuid)
    requires TrailOk(w, r) && RunOk(w, r) && w.threads[r].next == Ready(HumanInterrupt)
    ensures TrailOk(Interrupt(w, r), r)
  {
    hide RunOk, TrailOk, HasEffect, WithEvent;
    InHand(w, r);
    Noted(w, r, PauseEvent(w.threads[r].state.proposedAction.value), Suspended, w.threads[r].state);
  }

  lemma VerifyTells(w: World, r: Uuid)
    requires TrailOk(w, r) && RunOk(w, r) && w.threads[r].next == Ready(OutcomeVerification)
    ensures TrailOk(Verify(w, r), r)
  {
    hide RunOk, TrailOk, HasEffect, WithEvent;
    InHand(w, r);
    var s := w.threads[r].state;
    if s.receipt.None? || s.blockedReason.Some? {
      Silent(w, r, Ready(BlockedClosure), s.(outcomeVerified := false, currentNode := Some(OutcomeVerification)));
    } else {
      Noted(w, r, OutcomeChecked(true), Ready(AuditClosure),
            s.(outcomeVerified := true, currentNode := Some(OutcomeVerification)));
    }
  }

  lemma CloseTells(w: World, r: Uuid)
    requires TrailOk(w, r) && RunOk(w, r) && w.threads[r].next == Ready(AuditClosure)
    ensures TrailOk(Close(w, r), r)
  {
    hide RunOk, TrailOk, HasEffect, WithEvent;
    InHand(w, r);
    Noted(w, r, RunClosed, Ended, w.threads[r].state.(currentNode := Some(AuditClosure)));
  }

  lemma BlockTells(w: World, r: Uuid)
    requires TrailOk(w, r) && RunOk(w, r) && w.threads[r].next == Ready(BlockedClosure)
    ensures TrailOk(Block(w, r), r)
  {
    hide RunOk, TrailOk, HasEffect, WithEvent;
    InHand(w, r);
    var s := w.threads[r].state;
    var reason := if s.blockedReason.Some? then s.blockedReason.value else DecisionCodes(s.decision.value.reasonCodes);
    Noted(w, r, RunStopped(reason), Ended, s.(currentNode := Some(BlockedClosure), blockedReason := Some(reason)));
  }

  // ----- The execution node -----

  /** The ledger may only have gained. */
  lemma ToolsMove(w: World, r: Uuid, tools: ToolState)
    requires TrailOk(w, r) && w.tools.effects.Keys <= tools.effects.Keys
    ensures TrailOk(w.(tools := tools), r)
  {
    hide Tells, Unset, Learns;
    LearnsItself(w.threads[r]);
    TrailGrows(GetOr(w.repo.events, r, []), FactsOf(w, r), GetOr(w.repo.events, r, []), FactsOf(w.(tools := tools), r));
  }

  lemma LearnsItself(t: Thread)
    ensures Learns(t, t)
  {
  }

  lemma AttemptTells(w: World, r: Uuid, effectId: Uuid)
    requires TrailOk(w, r) && RunOk(w, r) && w.threads[r].next.Retrying?
    ensures TrailOk(Attempt(w, r, effectId), r)
  {
    hide RunOk, TrailOk, WithEvent;
    InHand(w, r);
    var s, pc := w.threads[r].state, w.threads[r].next;
    var action := s.proposedAction.value;
    ExecuteIsPutIfAbsent(w.tools, action, effectId);
    ExecuteByFault(w.tools, action, effectId);
    hide Answer, AfterExecute;
    assert Answer(w.tools, action, effectId).Failed? ==> KnownFailure(Answer(w.tools, action, effectId).failure);
    var w1 := w.(tools := AfterExecute(w.tools, action, effectId));
    ToolsMove(w, r, w1.tools);
    match Answer(w.tools, action, effectId)
    case Answered(receipt) => Silent(w1, r, Settling(Some(receipt), pc.lastError), s);
    case Failed(failure) =>
      assert failure.committed ==> HasEffect(w1, r);
      var lookUp := action.irreversible || failure.committed;
      var receipt := if lookUp then Some(Status(w1.tools, action.idempotencyKey)) else pc.receipt;
      Noted(w1, r, ToolFailureClassified(pc.attempt, failure), AfterFailure(pc.attempt, lookUp, receipt, failure), s);
  }

  /** A receipt or an approval more on file. */
  lemma Filed(w: World, r: Uuid, repo: RepoState)
    requires TrailOk(w, r)
    requires repo.events == w.repo.events && repo.runs == w.repo.runs && repo.cases == w.repo.cases
    requires GetOr(w.repo.approvals, r, []) <= GetOr(repo.approvals, r, [])
    requires GetOr(w.repo.receipts, r, []) <= GetOr(repo.receipts, r, [])
    ensures TrailOk(w.(repo := repo), r) && HasEffect(w.(repo := repo), r) == HasEffect(w, r)
  {
    hide Tells, Unset, Learns;
    LearnsItself(w.threads[r]);
    var w' := w.(repo := repo);
    TrailGrows(GetOr(w.repo.events, r, []), FactsOf(w, r), GetOr(w.repo.events, r, []), FactsOf(w', r));
  }

  lemma SettleSilent(w: World, r: Uuid)
    requires TrailOk(w, r) && w.threads[r].next.Settling? && !Holds(w.threads[r].next.receipt)
    ensures TrailOk(Settle(w, r), r)
  {
    UnsetOf(w, r);
    hide TrailOk, HasEffect;
    var s, lastError := w.threads[r].state, w.threads[r].next.lastError;
    Silent(w, r, Ready(OutcomeVerification),
           s.(currentNode := Some(IdempotentExecution), blockedReason := Some(BlockedBy(lastError)),
              outcomeVerified := false, retryCount := if lastError.Some? then 3 else 0));
  }

  lemma SettleWithReceipt(w: World, r: Uuid)
    requires TrailOk(w, r) && w.threads[r].next.Settling? && Holds(w.threads[r].next.receipt) && HasEffect(w, r)
    ensures TrailOk(Settle(w, r), r)
  {
    UnsetOf(w, r);
    hide TrailOk, WithEvent, HasEffect;
    var s, receipt := w.threads[r].state, w.threads[r].next.receipt.value;
    var w1 := w.(repo := WithReceipt(w.repo, r, receipt));
    Filed(w, r, w1.repo);
    var saved := GetOr(w.repo.receipts, r, []) + [receipt];
    assert GetOr(w1.repo.receipts, r, []) == saved && saved[|saved| - 1] == receipt;
    Noted(w1, r, ReceiptCommitted(receipt.status, receipt.effectId, receipt.attemptCount), Ready(OutcomeVerification),
          s.(currentNode := Some(IdempotentExecution), receipt := Some(receipt),
             retryCount := if receipt.attemptCount > 0 then receipt.attemptCount - 1 else 0));
  }

  lemma SettleTells(w: World, r: Uuid)
    requires TrailOk(w, r) && RunOk(w, r) && w.threads[r].next.Settling?
    ensures TrailOk(Settle(w, r), r)
  {
    hide RunOk, TrailOk, Settle;
    InHand(w, r);
    if Holds(w.threads[r].next.receipt) {
      SettleWithReceipt(w, r);
    } else {
      SettleSilent(w, r);
    }
  }

  lemma NodeTells(w: World, r: Uuid, input: NodeInput)
    requires TrailOk(w, r) && RunOk(w, r)
    ensures TrailOk(RunNode(w, r, input), r)
  {
    UnsetOf(w, r);
    hide TrailOk, RunOk, Validate, Collect, Retrieve, Check, DecideNode, Recommend, Interrupt, Attempt, Settle, Verify,
        Close, Block;
    match w.threads[r].next
    case Ready(n) =>
      match n {
       case LlmRecommendation => RecommendTells(w, r, input.recommendation);
       case HumanInterrupt => InterruptTells(w, r);
       case IdempotentExecution =>
       case OutcomeVerification => VerifyTells(w, r);
       case AuditClosure => CloseTells(w, r);
       case BlockedClosure => BlockTells(w, r);
       case _ => TrunkTells(w, r, input);
      }
    case Retrying(k, _, _) => AttemptTells(w, r, IdAt(input.effectIds, k));
    case Settling(_, _) => SettleTells(w, r);
    case _ =>
  }

  // ----- The other steps of a run -----

  lemma ResumeTells(w: World, r: Uuid, approval: Approval)
    requires TrailOk(w, r) && RunOk(w, r) && w.threads[r].next == Waiting
    ensures TrailOk(Resume(w, r, approval), r)
  {
    hide RunOk, TrailOk, HasEffect;
    InHand(w, r);
    if approval.proposedActionHash == Digest(w.threads[r].state.proposedAction.value) {
      TakenUpTells(w, r, approval);
    } else {
      var s := w.threads[r].state;
      Noted(w, r, PauseEvent(s.proposedAction.value), Ready(BlockedClosure),
            s.(approval := Some(approval), currentNode := Some(HumanInterrupt),
                blockedReason := Some(ApprovalActionHashMismatch)));
    }
  }

  /** A decision on this very action is filed and then noted. */
  lemma TakenUpTells(w: World, r: Uuid, approval: Approval)
    requires TrailOk(w, r) && r in w.threads && w.threads[r].next == Waiting && w.threads[r].state.proposedAction.Some?
    requires approval.proposedActionHash == Digest(w.threads[r].state.proposedAction.value)
    ensures TrailOk(Resume(w, r, approval), r)
  {
    hide TrailOk, WithEvent, HasEffect;
    var s := w.threads[r].state;
    var action := s.proposedAction.value;
    ResumeAsTwoMoves(w, r, approval);
    hide Resume;
    var s1 := s.(approval := Some(approval), currentNode := Some(HumanInterrupt));
    Noted(w, r, PauseEvent(action), Waiting, s);
    var w1 := Goto(Emit(w, r, PauseEvent(action)), r, Waiting, s);
    var w2 := w1.(repo := WithApproval(w1.repo, r, approval));
    Filed(w1, r, w2.repo);
    var saved := GetOr(w1.repo.approvals, r, []) + [approval];
    assert GetOr(w2.repo.approvals, r, []) == saved && saved[|saved| - 1] == approval;
    Noted(w2, r, ApprovalRecorded(approval.approved, approval.actorId),
          if approval.approved then Retrying(1, None, None) else Ready(BlockedClosure), s1);
  }

  lemma ResumeAsTwoMoves(w: World, r: Uuid, approval: Approval)
    requires r in w.threads && w.threads[r].next == Waiting && w.threads[r].state.proposedAction.Some?
    requires approval.proposedActionHash == Digest(w.threads[r].state.proposedAction.value)
    ensures
      var s := w.threads[r].state;
      var w1 := Goto(Emit(w, r, PauseEvent(s.proposedAction.value)), r, Waiting, s);
      var w2 := w1.(repo := WithApproval(w1.repo, r, approval));
      Resume(w, r, approval) ==
      Goto(Emit(w2, r, ApprovalRecorded(approval.approved, approval.actorId)), r,
           if approval.approved then Retrying(1, None, None) else Ready(BlockedClosure),
           s.(approval := Some(approval), currentNode := Some(HumanInterrupt)))
  {
    var s := w.threads[r].state;
    var w1 := Goto(Emit(w, r, PauseEvent(s.proposedAction.value)), r, Waiting, s);
    assert w1.threads == w.threads;
  }

  lemma RestartTells(w: World, r: Uuid)
    requires TrailOk(w, r)
    ensures TrailOk(Restart(w, r), r)
  {
    hide Tells;
    var w' := Restart(w, r);
    assert HasEffect(w', r) == HasEffect(w, r);
    TrailGrows(GetOr(w.repo.events, r, []), FactsOf(w, r), GetOr(w.repo.events, r, []), FactsOf(w', r));
  }

  lemma RecordTells(w: World, r: Uuid, now: int)
    requires TrailOk(w, r) && r in w.repo.runs
    ensures TrailOk(Record(w, r, now), r)
  {
    hide Tells;
    var w' := Record(w, r, now);
    assert HasEffect(w', r) == HasEffect(w, r);
    TrailGrows(GetOr(w.repo.events, r, []), FactsOf(w, r), GetOr(w.repo.events, r, []), FactsOf(w', r));
  }

  lemma NoteTells(w: World, r: Uuid, reason: string)
    requires TrailOk(w, r)
    ensures TrailOk(Emit(w, r, ReplayRequested(reason)), r)
  {
    hide TrailOk, WithEvent;
    UnsetOf(w, r);
    Noted(w, r, ReplayRequested(reason), w.threads[r].next, w.threads[r].state);
    assert Goto(Emit(w, r, ReplayRequested(reason)), r, w.threads[r].next, w.threads[r].state).threads == w.threads;
  }

  // ----- The whole system -----

  ghost predicate Trails(w: World) {
    forall r | r in w.threads :: TrailOk(w, r)
  }

  /** The facts of a run and its log are not touched. */
  ghost predicate SameRun(w: World, w': World, r: Uuid) {
    && r in w.threads && r in w'.threads && FactsOf(w', r) == FactsOf(w, r)
    && GetOr(w'.repo.events, r, []) == GetOr(w.repo.events, r, [])
  }

  lemma SameRunTells(w: World, w': World, r: Uuid)
    requires TrailOk(w, r) && SameRun(w, w', r)
    ensures TrailOk(w', r)
  {
    hide Tells, Unset, HasEffect;
  }

  lemma OtherRun(w: World, w': World, r: Uuid, q: Uuid)
    requires OnlyRun(w, w', r) && q != r && Known(w, q)
    ensures SameRun(w, w', q)
  {
    assert Find(w'.repo.events, q) == Find(w.repo.events, q);
    assert Find(w'.repo.approvals, q) == Find(w.repo.approvals, q);
    assert Find(w'.repo.receipts, q) == Find(w.repo.receipts, q);
    KeysDiffer(q, RequestOf(w, q).requestedAction, r, RequestOf(w, r).requestedAction);
    hide KeyFor;
    assert RunKey(w', q) == RunKey(w, q);
    assert Find(w'.tools.effects, RunKey(w, q)) == Find(w.tools.effects, RunKey(w, q));
  }

  lemma OneRunTells(w: World, w': World, r: Uuid)
    requires Inv(w) && Trails(w) && OnlyRun(w, w', r) && TrailOk(w', r)
    ensures Trails(w')
  {
    hide RunOk, TrailOk;
    forall q | q in w'.threads ensures TrailOk(w', q) {
      if q != r {
        assert q in w.threads && q in w.repo.runs && RunOk(w, q);
        RunOkKnown(w, q);
        OtherRun(w, w', r, q);
        SameRunTells(w, w', q);
      }
    }
  }

  lemma RunStepTells(w: World, step: Step)
    requires Inv(w) && Trails(w)
    requires (step.NodeStep? || step.Approve? || step.CutOff? || step.RecordOutcome?) && step.runId in w.threads
    ensures Trails(Act(w, step))
  {
    hide Inv, RunOk, TrailOk, RunNode, Resume, Restart, Record, OnlyRun;
    var r := step.runId;
    RunsAndThreads(w);
    RunIsOk(w, r);
    match step {
      case NodeStep(_, input) => NodeTells(w, r, input);
      case Approve(_, approval, tenant) =>
        if w.threads[r].next.Waiting? {
          ResumeTells(w, r, approval);
        }
      case CutOff(_) => RestartTells(w, r);
      case RecordOutcome(_, now) => RecordTells(w, r, now);
    }
    Webhooks.RunStepIsOnlyRun(w, step);
    if Act(w, step) != w {
      OneRunTells(w, Act(w, step), r);
    }
  }

  lemma GrowsTells(w: World, w': World)
    requires Inv(w) && Trails(w) && Grows(w, w')
    requires forall r | r in w'.threads && r !in w.threads :: TrailOk(w', r)
    ensures Trails(w')
  {
    hide RunOk, TrailOk;
    forall q | q in w'.threads ensures TrailOk(w', q) {
      if q in w.threads {
        assert q in w.repo.runs && RunOk(w, q);
        RunOkKnown(w, q);
        SameRunTells(w, w', q);
      }
    }
  }

  lemma NewRunTells(w: World, r: Uuid, caseId: Uuid, tenant: string, replayOf: Option<Uuid>)
    requires Inv(w) && Trails(w) && r !in w.repo.runs && StartError(w, caseId, tenant).None?
    ensures Trails(BeginRun(w, r, caseId, tenant, replayOf))
  {
    hide RunOk, TrailOk;
    var w' := BeginRun(w, r, caseId, tenant, replayOf);
    BeginRunGrows(w, r, caseId, tenant, replayOf);
    NewTrail(w', r);
    GrowsTells(w, w');
  }

  lemma NewTrail(w: World, r: Uuid)
    requires r in w.threads && r !in w.repo.events && w.threads[r].next == Ready(IntakeValidation)
    requires w.threads[r].state.evidence.None? && w.threads[r].state.policies.None? && w.threads[r].state.decision.None?
    requires w.threads[r].state.recommendation.None? && w.threads[r].state.proposedAction.None?
    ensures TrailOk(w, r)
  {
  }

  lemma NoteTrails(w: World, r: Uuid, reason: string)
    requires Inv(w) && Trails(w) && r in w.repo.runs
    ensures Trails(Emit(w, r, ReplayRequested(reason)))
  {
    hide RunOk, TrailOk, OnlyRun;
    RunIsOk(w, r);
    NoteTells(w, r, reason);
    NoteKeeps(w, r, reason);
    OneRunTells(w, Emit(w, r, ReplayRequested(reason)), r);
  }

  lemma ActTells(w: World, step: Step)
    requires Inv(w) && Trails(w)
    ensures Trails(Act(w, step))
  {
    hide Inv, RunOk, TrailOk, BeginRun, RunNode, Resume, Restart, Record, Trails, RunsOnly;
    RunsAndThreads(w);
    match step
    case OpenCase(_, _, _, _) => GrowsTells(w, Act(w, step));
    case StartRun(runId, caseId, tenant) =>
      if runId !in w.repo.runs && StartError(w, caseId, tenant).None? {
        NewRunTells(w, runId, caseId, tenant, None);
      }
    case ReplayRun(original, runId, tenant, reason) =>
      if runId !in w.repo.runs && AuthorizationError(w, original, tenant).None? {
        NoteTrails(w, original, reason);
        ReplayStarts(w, original, tenant, reason);
        NewRunTells(Emit(w, original, ReplayRequested(reason)), runId, w.repo.runs[original].caseId, tenant,
            Some(original));
      }
    case SetFault(_, _) => GrowsTells(w, Act(w, step));
    case SetRecords(_, _) => GrowsTells(w, Act(w, step));
    case _ =>
      if step.runId in w.threads {
        RunStepTells(w, step);
      }
  }

  /** Every event ever written is true, and stays true. */
  lemma {:induction false} AuditTrailIsTrue(steps: seq<Step>)
    ensures Trails(Run(START, steps))
  {
    hide Act, TrailOk, Inv;
    if steps != [] {
      var init := steps[..|steps| - 1];
      AuditTrailIsTrue(init);
      Reachable(init);
      ActTells(Run(START, init), steps[|steps| - 1]);
    }
  }
}
