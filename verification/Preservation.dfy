/** Every step of a run keeps the invariant. */
module Preservation {
  import opened Domain
  import opened Gateway
  import opened Repository
  import opened Protocol
  import opened Invariant

  // ----- How steps change a run's view -----

  lemma Moved(w: World, r: Uuid, e: Event, pc: Pc, s: WorkflowState)
    requires Known(w, r)
    ensures
      var w' := Goto(Emit(w, r, e), r, pc, s);
      var v := View(w, r);
      && OnlyRun(w, w', r) && Known(w', r)
      && View(w', r) == v.(tally := NextTally(v.tally, e), thread := Thread(pc, s, v.thread.restarts))
  {
    ScanSnoc(GetOr(w.repo.events, r, []), e);
  }

  lemma MovedSilently(w: World, r: Uuid, pc: Pc, s: WorkflowState)
    requires Known(w, r)
    ensures
      var w' := Goto(w, r, pc, s);
      var v := View(w, r);
      && OnlyRun(w, w', r) && Known(w', r)
      && View(w', r) == v.(thread := Thread(pc, s, v.thread.restarts))
  {
  }

  lemma OnlyRunTrans(a: World, b: World, c: World, r: Uuid)
    requires OnlyRun(a, b, r) && OnlyRun(b, c, r)
    ensures OnlyRun(a, c, r)
  {
    assert RunKey(a, r) == RunKey(b, r);
    forall q | q != r ensures Find(c.repo.events, q) == Find(a.repo.events, q) {
      assert Find(b.repo.events, q) == Find(a.repo.events, q);
    }
    forall q | q != r ensures Find(c.repo.approvals, q) == Find(a.repo.approvals, q) {
      assert Find(b.repo.approvals, q) == Find(a.repo.approvals, q);
    }
    forall q | q != r ensures Find(c.repo.receipts, q) == Find(a.repo.receipts, q) {
      assert Find(b.repo.receipts, q) == Find(a.repo.receipts, q);
    }
    forall k | k != RunKey(a, r) ensures Find(c.tools.effects, k) == Find(a.tools.effects, k) {
      assert Find(b.tools.effects, k) == Find(a.tools.effects, k);
    }
  }

  lemma OnlyRunRefl(w: World, r: Uuid)
    requires Known(w, r)
    ensures OnlyRun(w, w, r)
  {
  }

  // ----- The nodes before the interrupt -----

  lemma ValidateKeeps(w: World, r: Uuid)
    requires RunOk(w, r) && w.threads[r].next == Ready(IntakeValidation)
    ensures OnlyRun(w, Validate(w, r), r) && RunOk(Validate(w, r), r)
  {
    hide OnlyRun, Scan, Grounded;
    var s := w.threads[r].state;
    Moved(w, r, RequestValidated, Ready(RecordCollection), s.(currentNode := Some(IntakeValidation)));
  }

  lemma CollectKeeps(w: World, r: Uuid, now: int)
    requires RunOk(w, r) && w.threads[r].next == Ready(RecordCollection)
    ensures OnlyRun(w, Collect(w, r, now), r) && RunOk(Collect(w, r, now), r)
  {
    hide OnlyRun, Scan, Grounded;
    var s := w.threads[r].state;
    var records := CollectRecords(w.tools, s.request, now);
    Moved(w, r, RecordsCollected(SourcesOf(records)), Ready(PolicyRetrieval),
          s.(currentNode := Some(RecordCollection), evidence := Some(records)));
  }

  lemma RetrieveKeeps(w: World, r: Uuid, policies: seq<PolicyCitation>)
    requires RunOk(w, r) && w.threads[r].next == Ready(PolicyRetrieval)
    ensures OnlyRun(w, Retrieve(w, r, policies), r) && RunOk(Retrieve(w, r, policies), r)
  {
    hide OnlyRun, Scan, Grounded;
    Moved(w, r, PoliciesRetrieved(PolicyIds(policies)), Ready(FreshnessChecks),
          w.threads[r].state.(currentNode := Some(PolicyRetrieval), policies := Some(policies)));
  }

  lemma CheckKeeps(w: World, r: Uuid)
    requires RunOk(w, r) && w.threads[r].next == Ready(FreshnessChecks)
    ensures OnlyRun(w, Check(w, r), r) && RunOk(Check(w, r), r)
  {
    hide OnlyRun, Scan, Grounded;
    var s := w.threads[r].state;
    Moved(w, r, ChecksEvaluated(|Evidence(s)|), Ready(PolicyDecision), s.(currentNode := Some(FreshnessChecks)));
  }

  lemma DecideKeeps(w: World, r: Uuid, now: int)
    requires RunOk(w, r) && w.threads[r].next == Ready(PolicyDecision)
    ensures OnlyRun(w, DecideNode(w, r, now), r) && RunOk(DecideNode(w, r, now), r)
  {
    hide OnlyRun, Scan, Policy.Decide;
    var s := w.threads[r].state;
    var decision := Policy.Decide(s.request, Evidence(s), s.authenticatedTenant, now);
    assert Grounded(decision, s.request, Evidence(s), s.authenticatedTenant);
    Moved(w, r, DecisionEvaluated(decision.allowed, decision.reasonCodes), Ready(LlmRecommendation),
          s.(currentNode := Some(PolicyDecision), decision := Some(decision)));
  }

  lemma RecommendKeeps(w: World, r: Uuid, answer: Recommendation)
    requires RunOk(w, r) && w.threads[r].next == Ready(LlmRecommendation)
    ensures OnlyRun(w, Recommend(w, r, answer), r) && RunOk(Recommend(w, r, answer), r)
  {
    hide OnlyRun, Scan, Grounded;
    var s := w.threads[r].state;
    var rec := CheckClaims(answer, s.policies.value);
    var action := ActionFor(r, s.request, w.repo.runs[r].caseId, rec.rationale);
    Moved(w, r, RecommendationBound(|rec.unsupportedClaims|), Ready(AfterRecommendation(s.decision.value, rec)),
          s.(currentNode := Some(LlmRecommendation), recommendation := Some(rec), proposedAction := Some(action)));
  }

  lemma InterruptKeeps(w: World, r: Uuid)
    requires RunOk(w, r) && w.threads[r].next == Ready(HumanInterrupt)
    ensures OnlyRun(w, Interrupt(w, r), r) && RunOk(Interrupt(w, r), r)
  {
    hide OnlyRun, Scan, Grounded;
    var s := w.threads[r].state;
    Moved(w, r, PauseEvent(s.proposedAction.value), Suspended, s);
  }

  // ----- Resumption -----

  /** The second announcement of the pause. */
  lemma PauseAgain(w: World, r: Uuid, action: ProposedAction)
    requires Known(w, r)
    ensures
      var w1 := Emit(w, r, PauseEvent(action));
      && OnlyRun(w, w1, r) && Known(w1, r)
      && View(w1, r) == View(w, r).(tally := NextTally(View(w, r).tally, PauseEvent(action)))
  {
    ScanSnoc(GetOr(w.repo.events, r, []), PauseEvent(action));
  }

  lemma ApprovalSaved(w: World, r: Uuid, approval: Approval)
    requires Known(w, r)
    ensures
      var w1 := w.(repo := WithApproval(w.repo, r, approval));
      && OnlyRun(w, w1, r) && Known(w1, r)
      && View(w1, r) == View(w, r).(approvals := View(w, r).approvals + [approval])
  {
  }

  lemma ResumeKeeps(w: World, r: Uuid, approval: Approval)
    requires RunOk(w, r) && w.threads[r].next == Waiting
    ensures OnlyRun(w, Resume(w, r, approval), r) && RunOk(Resume(w, r, approval), r)
  {
    hide OnlyRun, Scan, Grounded;
    var s := w.threads[r].state;
    var action := s.proposedAction.value;
    var w1 := Emit(w, r, PauseEvent(action));
    var s1 := s.(approval := Some(approval), currentNode := Some(HumanInterrupt));
    PauseAgain(w, r, action);
    if approval.proposedActionHash != Digest(action) {
      MovedSilently(w1, r, Ready(BlockedClosure), s1.(blockedReason := Some(ApprovalActionHashMismatch)));
      OnlyRunTrans(w, w1, Resume(w, r, approval), r);
    } else {
      ResumeMatching(w, r, approval);
    }
  }

  lemma ResumeMatching(w: World, r: Uuid, approval: Approval)
    requires RunOk(w, r) && w.threads[r].next == Waiting
    requires approval.proposedActionHash == Digest(w.threads[r].state.proposedAction.value)
    ensures OnlyRun(w, Resume(w, r, approval), r) && RunOk(Resume(w, r, approval), r)
  {
    hide OnlyRun, Scan, Grounded;
    var s := w.threads[r].state;
    var action := s.proposedAction.value;
    var w1 := Emit(w, r, PauseEvent(action));
    var w2 := w1.(repo := WithApproval(w1.repo, r, approval));
    var w3 := Resume(w, r, approval);
    var pc := if approval.approved then Retrying(1, None, None) else Ready(BlockedClosure);
    var s1 := s.(approval := Some(approval), currentNode := Some(HumanInterrupt));
    var e := ApprovalRecorded(approval.approved, approval.actorId);
    assert w3 == Goto(Emit(w2, r, e), r, pc, s1);
    PauseAgain(w, r, action);
    ApprovalSaved(w1, r, approval);
    Moved(w2, r, e, pc, s1);
    ResumedView(View(w, r), View(w3, r), approval);
    hide View;
    OnlyRunTrans(w, w1, w2, r);
    OnlyRunTrans(w, w2, w3, r);
  }

  lemma ResumedView(v: RunView, v': RunView, approval: Approval)
    requires ViewOk(v) && v.thread.next == Waiting
    requires approval.proposedActionHash == Digest(v.thread.state.proposedAction.value)
    requires v' == v.(
      tally := NextTally(NextTally(v.tally, PauseEvent(v.thread.state.proposedAction.value)),
                         ApprovalRecorded(approval.approved, approval.actorId)),
      approvals := v.approvals + [approval],
      thread := v.thread.(
        next := if approval.approved then Retrying(1, None, None) else Ready(BlockedClosure),
        state := v.thread.state.(approval := Some(approval), currentNode := Some(HumanInterrupt))))
    ensures ViewOk(v')
  {
    hide Scan, Grounded;
    assert approval in v'.approvals;
  }

  // ----- Execution -----

  /** The ledger before and after an execute call, seen from the run that calls. */
  lemma ExecuteView(w: World, r: Uuid, effectId: Uuid)
    requires RunOk(w, r) && w.threads[r].next.Retrying?
    ensures
      var action := w.threads[r].state.proposedAction.value;
      var w1 := w.(tools := AfterExecute(w.tools, action, effectId));
      var answer := Answer(w.tools, action, effectId);
      var v, v1 := View(w, r), View(w1, r);
      && OnlyRun(w, w1, r) && Known(w1, r)
      && v1 == v.(entry := v1.entry)
      && (v.entry.Some? ==> v1.entry == v.entry)
      && (v1.entry.Some? ==> EntryOf(v1.entry.value, action))
      && (answer.Answered? ==> v1.entry.Some? && Reports(answer.receipt, v1.entry.value))
      && (answer.Failed? ==> (answer.failure.committed <==> v1.entry.Some?))
      && Status(w1.tools, action.idempotencyKey) ==
           (if v1.entry.Some? then v1.entry.value else NotFoundReceipt(action.idempotencyKey))
  {
    hide Scan, Grounded;
    var action := w.threads[r].state.proposedAction.value;
    ExecuteIsPutIfAbsent(w.tools, action, effectId);
    var w1 := w.(tools := AfterExecute(w.tools, action, effectId));
    forall k | k != RunKey(w, r) ensures Find(w1.tools.effects, k) == Find(w.tools.effects, k) {
    }
  }

  lemma AttemptKeeps(w: World, r: Uuid, effectId: Uuid)
    requires RunOk(w, r) && w.threads[r].next.Retrying?
    ensures OnlyRun(w, Attempt(w, r, effectId), r) && RunOk(Attempt(w, r, effectId), r)
  {
    hide OnlyRun, Scan, Grounded;
    ExecuteView(w, r, effectId);
    var s := w.threads[r].state;
    var pc := w.threads[r].next;
    var action := s.proposedAction.value;
    var w1 := w.(tools := AfterExecute(w.tools, action, effectId));
    var w2 := Attempt(w, r, effectId);
    match Answer(w.tools, action, effectId) {
      case Answered(receipt) =>
        MovedSilently(w1, r, Settling(Some(receipt), pc.lastError), s);
        AnsweredView(View(w, r), View(w1, r), View(w2, r), receipt);
        hide View, AfterExecute, Answer;
        OnlyRunTrans(w, w1, w2, r);
      case Failed(failure) =>
        var receipt :=
          if action.irreversible || failure.committed then Some(Status(w1.tools, action.idempotencyKey))
              else pc.receipt;
        Moved(w1, r, ToolFailureClassified(pc.attempt, failure),
              AfterFailure(pc.attempt, action.irreversible || failure.committed, receipt, failure), s);
        FailedView(View(w, r), View(w1, r), View(w2, r), receipt, failure);
        hide View, AfterExecute, Answer;
        OnlyRunTrans(w, w1, w2, r);
    }
  }

  lemma AnsweredView(v: RunView, v1: RunView, v2: RunView, receipt: Receipt)
    requires ViewOk(v) && v.thread.next.Retrying?
    requires v1 == v.(entry := v1.entry) && (v.entry.Some? ==> v1.entry == v.entry)
    requires v1.entry.Some? && EntryOf(v1.entry.value, v.thread.state.proposedAction.value)
        && Reports(receipt, v1.entry.value)
    requires v2 == v1.(thread := v1.thread.(next := Settling(Some(receipt), v.thread.next.lastError)))
    ensures ViewOk(v2)
  {
    hide Scan, Grounded;
    ReceiptsStillReport(v.receipts, v.entry, v1.entry);
  }

  lemma ReceiptsStillReport(receipts: seq<Receipt>, entry: Option<Receipt>, entry': Option<Receipt>)
    requires AllReport(receipts, entry) && (entry.Some? ==> entry' == entry)
    ensures AllReport(receipts, entry')
  {
    if receipts != [] {
      assert entry.Some? by { assert Reports(receipts[0], entry.value); }
    }
  }

  lemma FailedView(v: RunView, v1: RunView, v2: RunView, receipt: Option<Receipt>, failure: ToolFailure)
    requires ViewOk(v) && v.thread.next.Retrying?
    requires v1 == v.(entry := v1.entry) && (v.entry.Some? ==> v1.entry == v.entry)
    requires v1.entry.Some? ==> EntryOf(v1.entry.value, v.thread.state.proposedAction.value)
    requires failure.committed <==> v1.entry.Some?
    requires
      var action := v.thread.state.proposedAction.value;
      receipt ==
        if action.irreversible || failure.committed then
          Some(if v1.entry.Some? then v1.entry.value else NotFoundReceipt(action.idempotencyKey))
        else v.thread.next.receipt
    requires v2 == v1.(
      tally := NextTally(v1.tally, ToolFailureClassified(v.thread.next.attempt, failure)),
      thread := v1.thread.(
        next := AfterFailure(v.thread.next.attempt, v.thread.state.proposedAction.value.irreversible
            || failure.committed,
                             receipt, failure)))
    ensures ViewOk(v2)
  {
    hide Scan, Grounded;
    ReceiptsStillReport(v.receipts, v.entry, v1.entry);
  }

  lemma ReceiptSaved(w: World, r: Uuid, receipt: Receipt)
    requires Known(w, r)
    ensures
      var w1 := w.(repo := WithReceipt(w.repo, r, receipt));
      && OnlyRun(w, w1, r) && Known(w1, r)
      && View(w1, r) == View(w, r).(receipts := View(w, r).receipts + [receipt])
  {
  }

  lemma SettleKeeps(w: World, r: Uuid)
    requires RunOk(w, r) && w.threads[r].next.Settling?
    ensures OnlyRun(w, Settle(w, r), r) && RunOk(Settle(w, r), r)
  {
    hide OnlyRun, Scan, Grounded;
    var s := w.threads[r].state;
    var Settling(found, lastError) := w.threads[r].next;
    if !Holds(found) {
      MovedSilently(w, r, Ready(OutcomeVerification), Settle(w, r).threads[r].state);
    } else {
      var receipt := found.value;
      var w1 := w.(repo := WithReceipt(w.repo, r, receipt));
      var s1 := s.(currentNode := Some(IdempotentExecution), receipt := Some(receipt),
                   retryCount := if receipt.attemptCount > 0 then receipt.attemptCount - 1 else 0);
      var e := ReceiptCommitted(receipt.status, receipt.effectId, receipt.attemptCount);
      ReceiptSaved(w, r, receipt);
      Moved(w1, r, e, Ready(OutcomeVerification), s1);
      SettledView(View(w, r), View(Settle(w, r), r), receipt, s1);
      hide View;
      OnlyRunTrans(w, w1, Settle(w, r), r);
    }
  }

  lemma SettledView(v: RunView, v': RunView, receipt: Receipt, s1: WorkflowState)
    requires ViewOk(v) && v.thread.next.Settling? && v.thread.next.receipt == Some(receipt) && Holds(Some(receipt))
    requires s1 == v.thread.state.(currentNode := s1.currentNode, receipt := Some(receipt), retryCount := s1.retryCount)
    requires v' == v.(
      tally := NextTally(v.tally, ReceiptCommitted(receipt.status, receipt.effectId, receipt.attemptCount)),
      receipts := v.receipts + [receipt],
      thread := v.thread.(next := Ready(OutcomeVerification), state := s1))
    ensures ViewOk(v')
  {
    hide Scan, Grounded;
    forall i | 0 <= i < |v'.receipts| ensures v'.entry.Some? && Reports(v'.receipts[i], v'.entry.value) {
      if i < |v.receipts| {
        assert v'.receipts[i] == v.receipts[i];
      }
    }
  }

  // ----- After execution -----

  lemma VerifyKeeps(w: World, r: Uuid)
    requires RunOk(w, r) && w.threads[r].next == Ready(OutcomeVerification)
    ensures OnlyRun(w, Verify(w, r), r) && RunOk(Verify(w, r), r)
  {
    hide OnlyRun, Scan, Grounded;
    var s := w.threads[r].state;
    if s.receipt.None? {
      MovedSilently(w, r, Ready(BlockedClosure),
          s.(outcomeVerified := false, currentNode := Some(OutcomeVerification)));
    } else {
      Moved(w, r, OutcomeChecked(true), Ready(AuditClosure),
            s.(outcomeVerified := true, currentNode := Some(OutcomeVerification)));
    }
  }

  lemma CloseKeeps(w: World, r: Uuid)
    requires RunOk(w, r) && w.threads[r].next == Ready(AuditClosure)
    ensures OnlyRun(w, Close(w, r), r) && RunOk(Close(w, r), r)
  {
    hide OnlyRun, Scan, Grounded;
    Moved(w, r, RunClosed, Ended, w.threads[r].state.(currentNode := Some(AuditClosure)));
  }

  lemma BlockKeeps(w: World, r: Uuid)
    requires RunOk(w, r) && w.threads[r].next == Ready(BlockedClosure)
    ensures OnlyRun(w, Block(w, r), r) && RunOk(Block(w, r), r)
  {
    hide OnlyRun, Scan, Grounded;
    var s := w.threads[r].state;
    var reason := if s.blockedReason.Some? then s.blockedReason.value else DecisionCodes(s.decision.value.reasonCodes);
    Moved(w, r, RunStopped(reason), Ended, s.(currentNode := Some(BlockedClosure), blockedReason := Some(reason)));
  }

  // ----- All of them -----

  lemma RunNodeKeeps(w: World, r: Uuid, input: NodeInput)
    requires RunOk(w, r)
    ensures OnlyRun(w, RunNode(w, r, input), r) && RunOk(RunNode(w, r, input), r)
  {
    hide OnlyRun, Scan, Grounded;
    hide Validate, Collect, Retrieve, Check, DecideNode, Recommend, Interrupt, Attempt, Settle, Verify, Close, Block;
    hide View;
    match w.threads[r].next
    case Ready(IntakeValidation) => ValidateKeeps(w, r);
    case Ready(RecordCollection) => CollectKeeps(w, r, input.collectedAt);
    case Ready(PolicyRetrieval) => RetrieveKeeps(w, r, input.policies);
    case Ready(FreshnessChecks) => CheckKeeps(w, r);
    case Ready(PolicyDecision) => DecideKeeps(w, r, input.decidedAt);
    case Ready(LlmRecommendation) => RecommendKeeps(w, r, input.recommendation);
    case Ready(HumanInterrupt) => InterruptKeeps(w, r);
    case Ready(OutcomeVerification) => VerifyKeeps(w, r);
    case Ready(AuditClosure) => CloseKeeps(w, r);
    case Ready(BlockedClosure) => BlockKeeps(w, r);
    case Retrying(k, _, _) => AttemptKeeps(w, r, IdAt(input.effectIds, k));
    case Settling(_, _) => SettleKeeps(w, r);
    case _ => OnlyRunRefl(w, r);
  }

  /** Cutting the execution node off at any point and starting it over keeps the invariant:
      what is on the ledger stays accounted for. */
  lemma RestartKeeps(w: World, r: Uuid)
    requires RunOk(w, r)
    ensures OnlyRun(w, Restart(w, r), r) && RunOk(Restart(w, r), r)
  {
    hide Scan, Grounded;
    var w' := Restart(w, r);
    assert OnlyRun(w, w', r);
    var t := w.threads[r];
    if InExecution(t.next) {
      assert View(w', r) == View(w, r).(thread := w'.threads[r]);
    } else {
      assert w' == w;
    }
  }

  lemma Recorded(w: World, r: Uuid, now: int)
    requires Known(w, r) && (w.threads[r].next.Suspended? || w.threads[r].next.Ended?)
    ensures
      var w' := Record(w, r, now);
      var v, t := View(w, r), w.threads[r];
      var status := StatusOf(t.state, t.next.Suspended?);
      && OnlyRun(w, w', r) && Known(w', r)
      && View(w', r) == v.(
           thread := t.(next := if t.next.Suspended? then Waiting else Done),
           record := v.record.(status := status, state := Some(t.state),
                               finishedAt := if Finished(status) then Some(now) else v.record.finishedAt))
  {
    hide Scan;
  }

  lemma RecordKeeps(w: World, r: Uuid, now: int)
    requires RunOk(w, r)
    ensures OnlyRun(w, Record(w, r, now), r) && RunOk(Record(w, r, now), r)
  {
    hide OnlyRun, Scan, Grounded;
    if w.threads[r].next.Suspended? || w.threads[r].next.Ended? {
      Recorded(w, r, now);
    } else {
      OnlyRunRefl(w, r);
    }
  }

  /** The service's note on the original of a replay does not count as workflow progress. */
  lemma NoteKeeps(w: World, r: Uuid, reason: string)
    requires RunOk(w, r)
    ensures OnlyRun(w, Emit(w, r, ReplayRequested(reason)), r) && RunOk(Emit(w, r, ReplayRequested(reason)), r)
  {
    hide Grounded;
    ScanSnoc(GetOr(w.repo.events, r, []), ReplayRequested(reason));
    assert View(Emit(w, r, ReplayRequested(reason)), r) == View(w, r);
  }
}
