/** What a service call comes to, foretold from its inputs: when a start asks for approval,
    when an approval completes the run, and what a blocked run reports. */
module Outcomes {
  import opened Domain
  import opened Gateway
  import opened Repository
  import opened Protocol
  import opened Invariant
  import opened System
  import opened Theorems
  import opened Driver
  import Policy

  /** All that drives the graph: what a node does besides is to write to the audit log. */
  ghost predicate SameButLog(w: World, w': World, r: Uuid) {
    && r in w.threads && w'.threads.Keys == w.threads.Keys
    && w'.tools == w.tools && w'.repo.runs == w.repo.runs && w'.repo.cases == w.repo.cases
    && w'.repo.runOrder == w.repo.runOrder
  }

  // ----- From the start to the recommendation -----

  lemma TrunkNode(w: World, r: Uuid, input: NodeInput, node: Node)
    requires r in w.threads && w.threads[r].next == Ready(node)
    requires node in {IntakeValidation, RecordCollection, PolicyRetrieval, FreshnessChecks, PolicyDecision}
    ensures
      var w', t := RunNode(w, r, input), w.threads[r];
      && SameButLog(w, w', r) && Drive(w', r, input) == Drive(w, r, input)
      && w'.threads[r] ==
         match node
         case IntakeValidation =>
           if t.state.request.tenantId != t.state.authenticatedTenant then t.(next := Raised)
           else t.(next := Ready(RecordCollection), state := t.state.(currentNode := Some(IntakeValidation)))
         case RecordCollection =>
           t.(next := Ready(PolicyRetrieval),
              state := t.state.(currentNode := Some(RecordCollection),
                                evidence := Some(CollectRecords(w.tools, t.state.request, input.collectedAt))))
         case PolicyRetrieval =>
           t.(next := Ready(FreshnessChecks),
              state := t.state.(currentNode := Some(PolicyRetrieval), policies := Some(input.policies)))
         case FreshnessChecks => t.(next := Ready(PolicyDecision),
             state := t.state.(currentNode := Some(FreshnessChecks)))
         case _ =>
           t.(next := Ready(LlmRecommendation),
              state := t.state.(currentNode := Some(PolicyDecision),
                                decision := Some(Policy.Decide(t.state.request, Evidence(t.state),
                                    t.state.authenticatedTenant, input.decidedAt))))
  {
    hide Policy.Decide, CollectRecords, Drive;
    DriveOne(w, r, input);
  }

  lemma TrunkRuns(w: World, r: Uuid, input: NodeInput) returns (w': World)
    requires r in w.threads && w.threads[r].next == Ready(IntakeValidation)
    requires w.threads[r].state.request.tenantId == w.threads[r].state.authenticatedTenant
    ensures SameButLog(w, w', r) && Drive(w', r, input) == Drive(w, r, input)
    ensures
      var s := w.threads[r].state;
      var records := CollectRecords(w.tools, s.request, input.collectedAt);
      w'.threads[r] ==
      w.threads[r].(next := Ready(LlmRecommendation),
                    state := s.(currentNode := Some(PolicyDecision), evidence := Some(records),
                        policies := Some(input.policies),
                                decision := Some(Policy.Decide(s.request, records, s.authenticatedTenant,
                                    input.decidedAt))))
  {
    hide RunNode, Drive, Policy.Decide, CollectRecords;
    TrunkNode(w, r, input, IntakeValidation);
    var w1 := RunNode(w, r, input);
    TrunkNode(w1, r, input, RecordCollection);
    var w2 := RunNode(w1, r, input);
    TrunkNode(w2, r, input, PolicyRetrieval);
    var w3 := RunNode(w2, r, input);
    TrunkNode(w3, r, input, FreshnessChecks);
    var w4 := RunNode(w3, r, input);
    TrunkNode(w4, r, input, PolicyDecision);
    w' := RunNode(w4, r, input);
  }

  lemma RecommendRuns(w: World, r: Uuid, input: NodeInput)
    requires r in w.threads && w.threads[r].next == Ready(LlmRecommendation) && r in w.repo.runs
    requires w.threads[r].state.decision.Some? && w.threads[r].state.policies.Some?
    ensures
      var w', s := RunNode(w, r, input), w.threads[r].state;
      var rec := CheckClaims(input.recommendation, s.policies.value);
      && SameButLog(w, w', r) && Drive(w', r, input) == Drive(w, r, input)
      && w'.threads[r] ==
         w.threads[r].(next := Ready(AfterRecommendation(s.decision.value, rec)),
                       state := s.(currentNode := Some(LlmRecommendation), recommendation := Some(rec),
                                   proposedAction :=
                                       Some(ActionFor(r, s.request, w.repo.runs[r].caseId, rec.rationale))))
  {
    hide CheckClaims, ActionFor, AfterRecommendation;
    DriveOne(w, r, input);
    hide Drive;
  }

  lemma BranchRuns(w: World, r: Uuid, input: NodeInput)
    requires r in w.threads && w.threads[r].next in {Ready(HumanInterrupt), Ready(BlockedClosure)}
    requires w.threads[r].state.proposedAction.Some? && w.threads[r].state.decision.Some?
    ensures
      var w', t := Drive(w, r, input), w.threads[r];
      && SameButLog(w, w', r)
      && w'.threads[r] ==
         if t.next == Ready(HumanInterrupt) then t.(next := Suspended)
         else
           var reason :=
             if t.state.blockedReason.Some? then t.state.blockedReason.value
                 else DecisionCodes(t.state.decision.value.reasonCodes);
           t.(next := Ended, state := t.state.(currentNode := Some(BlockedClosure), blockedReason := Some(reason)))
  {
    DriveOne(w, r, input);
    DriveStops(RunNode(w, r, input), r, input);
  }

  predicate IsRetrieved(policies: seq<PolicyCitation>, id: string) {
    exists j | 0 <= j < |policies| :: policies[j].policyId == id
  }

  /** Every cited id is the id of some retrieved policy. */
  predicate CitesRetrieved(answer: Recommendation, policies: seq<PolicyCitation>) {
    forall i | 0 <= i < |answer.citedPolicyIds| :: IsRetrieved(policies, answer.citedPolicyIds[i])
  }

  /** What the model has to have answered: nothing unsupported, and no policy cited that was
      not retrieved. */
  predicate ClaimsSupported(answer: Recommendation, policies: seq<PolicyCitation>) {
    answer.unsupportedClaims == [] && CitesRetrieved(answer, policies)
  }

  lemma CheckedByIds(answer: Recommendation, policies: seq<PolicyCitation>)
    ensures
      CheckClaims(answer, policies) ==
      if CitesRetrieved(answer, policies) then answer else answer.(unsupportedClaims := ["uncited_policy_reference"])
  {
    hide PolicyIds, IsRetrieved;
    forall i | 0 <= i < |answer.citedPolicyIds|
      ensures answer.citedPolicyIds[i] in PolicyIds(policies) <==> IsRetrieved(policies, answer.citedPolicyIds[i])
    {
      RetrievedId(policies, answer.citedPolicyIds[i]);
    }
  }

  lemma RetrievedId(policies: seq<PolicyCitation>, id: string)
    ensures id in PolicyIds(policies) <==> IsRetrieved(policies, id)
  {
    var ids := PolicyIds(policies);
    if id in ids {
      var j :| 0 <= j < |ids| && ids[j] == id;
      assert policies[j].policyId == id;
    }
    if IsRetrieved(policies, id) {
      var j :| 0 <= j < |policies| && policies[j].policyId == id;
      assert ids[j] == id;
    }
  }

  /** A model that cites just what was retrieved, and claims nothing else, is supported. */
  lemma CitingAllIsSupported(answer: Recommendation, policies: seq<PolicyCitation>)
    requires |answer.citedPolicyIds| == |policies| && answer.unsupportedClaims == []
    requires forall i | 0 <= i < |policies| :: answer.citedPolicyIds[i] == policies[i].policyId
    ensures ClaimsSupported(answer, policies) && CheckClaims(answer, policies) == answer
  {
    forall i | 0 <= i < |answer.citedPolicyIds|
      ensures exists j | 0 <= j < |policies| :: policies[j].policyId == answer.citedPolicyIds[i]
    {
      assert policies[i].policyId == answer.citedPolicyIds[i];
    }
    CheckedByIds(answer, policies);
  }

  /** The state of a started run, field by field: the evidence as collected, the policies as
      retrieved, the decision, the model's answer with unsupported citations marked, and the
      action as it was requested, with the model's rationale for a reason. */
  function StartedState(r: Uuid, tenant: string, request: CaseRequest, caseId: Uuid, records: seq<EvidenceRecord>,
                        decision: Decision, input: NodeInput, awaiting: bool): WorkflowState {
    var answer := input.recommendation;
    WorkflowState(
      r, tenant, request, Some(records), Some(input.policies), Some(decision),
      Some(if CitesRetrieved(answer, input.policies) then answer
           else answer.(unsupportedClaims := ["uncited_policy_reference"])),
      Some(ProposedAction(request.requestedAction, request.tenantId, caseId, request.transferId, answer.rationale,
                          r + ":" + ActionText(request.requestedAction), request.requestedAction == ReleaseTransfer)),
      None, None, false,
      if awaiting then None else Some(DecisionCodes(decision.reasonCodes)),
      Some(if awaiting then LlmRecommendation else BlockedClosure), 0)
  }

  /** Driven to its pause or its end, the new run is in this state. */
  lemma StartDrives(w: World, r: Uuid, caseId: Uuid, tenant: string, replayOf: Option<Uuid>, input: NodeInput)
    requires StartError(w, caseId, tenant).None? && r !in w.repo.runs
    ensures
      var w0, request := BeginRun(w, r, caseId, tenant, replayOf), w.repo.cases[caseId].request;
      var w1 := Drive(w0, r, input);
      var records := CollectRecords(w.tools, request, input.collectedAt);
      var decision := Policy.Decide(request, records, tenant, input.decidedAt);
      var awaiting := decision.allowed && ClaimsSupported(input.recommendation, input.policies);
      && SameButLog(w0, w1, r) && r in w1.threads
      && w1.threads[r] ==
         Thread(if awaiting then Suspended else Ended,
                StartedState(r, tenant, request, caseId, records, decision, input, awaiting), 0)
  {
    hide RunNode, Drive, Policy.Decide, CollectRecords, WithEvent, CheckClaims, CitesRetrieved, ActionText;
    CheckedByIds(input.recommendation, input.policies);
    KeyIsText(r, w.repo.cases[caseId].request.requestedAction);
    var w0 := BeginRun(w, r, caseId, tenant, replayOf);
    var w1 := TrunkRuns(w0, r, input);
    RecommendRuns(w1, r, input);
    BranchRuns(RunNode(w1, r, input), r, input);
  }

  /** A start pauses for approval exactly when the collected evidence is sound for the request
      and the model's claims are supported; otherwise it is blocked with the codes of the
      decision. Either way the state, the checkpoint and the record of the new run are these,
      and nothing happens to the tools. */
  lemma StartAwaitsIff(w: World, r: Uuid, caseId: Uuid, tenant: string, replayOf: Option<Uuid>, input: NodeInput)
    requires StartError(w, caseId, tenant).None? && r !in w.repo.runs
    ensures
      var w', c := StartCall(w, r, caseId, tenant, replayOf, input), w.repo.cases[caseId];
      var records := CollectRecords(w.tools, c.request, input.collectedAt);
      var sound := Policy.EvidenceSound(c.request, records, tenant, input.decidedAt);
      var awaiting := sound && ClaimsSupported(input.recommendation, input.policies);
      var decision := Policy.Decide(c.request, records, tenant, input.decidedAt);
      var state := StartedState(r, tenant, c.request, caseId, records, decision, input, awaiting);
      && w'.tools == w.tools && w'.repo.cases == w.repo.cases && w'.repo.runOrder == w.repo.runOrder + [r]
      && r in w'.threads && w'.threads[r] == Thread(if awaiting then Waiting else Done, state, 0)
      && r in w'.repo.runs
      && w'.repo.runs[r] ==
         RunRecord(caseId, tenant, if awaiting then AwaitingApproval else Blocked,
                   if awaiting then None else Some(input.recordedAt), Some(state), c.isPublicDemo, replayOf)
      && decision.allowed == sound
  {
    hide Drive, Policy.Decide, Policy.EvidenceSound, CollectRecords, ClaimsSupported, ActionText, CitesRetrieved;
    var request := w.repo.cases[caseId].request;
    var records := CollectRecords(w.tools, request, input.collectedAt);
    Policy.AllowedIffEvidenceSound(request, records, tenant, input.decidedAt);
    StartDrives(w, r, caseId, tenant, replayOf, input);
    var w1 := Drive(BeginRun(w, r, caseId, tenant, replayOf), r, input);
    RecordedAs(w1, r, input.recordedAt);
    hide Record;
  }

  /** Records set for a transfer, down to none at all, are what a start for it goes by: they
      are its evidence, it awaits approval exactly if they are sound, and with none of them it
      is blocked for want of any. */
  lemma StartGoesByRecordsSet(w: World, records: seq<EvidenceRecord>, r: Uuid, caseId: Uuid, tenant: string,
                              replayOf: Option<Uuid>, input: NodeInput)
    requires StartError(w, caseId, tenant).None? && r !in w.repo.runs
    ensures
      var request := w.repo.cases[caseId].request;
      var w0 := Act(w, SetRecords(request.transferId, records));
      && StartError(w0, caseId, tenant).None?
      && var w' := StartCall(w0, r, caseId, tenant, replayOf, input);
         && r in w'.repo.runs && r in w'.threads && w'.threads[r].state.evidence == Some(records)
         && (w'.repo.runs[r].status == AwaitingApproval <==>
               && Policy.EvidenceSound(request, records, tenant, input.decidedAt)
               && ClaimsSupported(input.recommendation, input.policies))
         && (records == [] && request.tenantId == tenant && !Policy.DetectUntrustedInstruction(request.notes) ==>
               w'.threads[r].state.blockedReason == Some(DecisionCodes([MissingAuthoritativeRecords])))
  {
    var request := w.repo.cases[caseId].request;
    var w0 := Act(w, SetRecords(request.transferId, records));
    CollectsWhatIsSet(w.tools, request.transferId, records, request, input.collectedAt);
    if request.tenantId == tenant && !Policy.DetectUntrustedInstruction(request.notes) {
      NoRecords(request, tenant, input.decidedAt);
    }
    hide StartCall, Policy.EvidenceSound, Policy.Decide, CollectRecords, ClaimsSupported, CitesRetrieved,
         Policy.DetectUntrustedInstruction, ActionText;
    StartAwaitsIff(w0, r, caseId, tenant, replayOf, input);
  }

  lemma NoRecords(request: CaseRequest, tenant: string, now: int)
    requires request.tenantId == tenant && !Policy.DetectUntrustedInstruction(request.notes)
    ensures Policy.Decide(request, [], tenant, now).reasonCodes == [MissingAuthoritativeRecords]
    ensures !Policy.EvidenceSound(request, [], tenant, now)
  {
  }

  /** What the service records of a pause or an end. */
  lemma RecordedAs(w: World, r: Uuid, now: int)
    requires r in w.threads && r in w.repo.runs && (w.threads[r].next.Suspended? || w.threads[r].next.Ended?)
    ensures
      var w', t := Record(w, r, now), w.threads[r];
      var status := StatusOf(t.state, t.next.Suspended?);
      && w'.tools == w.tools && w'.repo.cases == w.repo.cases && w'.repo.runOrder == w.repo.runOrder
      && w'.repo.events == w.repo.events && w'.repo.approvals == w.repo.approvals && w'.repo.receipts == w.repo.receipts
      && w'.threads == w.threads[r := t.(next := if t.next.Suspended? then Waiting else Done)]
      && w'.repo.runs ==
         w.repo.runs[r := w.repo.runs[r].(
           status := status, state := Some(t.state),
           finishedAt := if status in {Completed, Blocked, FailedRun} then Some(now) else w.repo.runs[r].finishedAt)]
  {
  }

  /** Whatever two models answer to the same start: the proposed actions differ in the reason
      alone, what the ledger would record does not depend on the answer, and the answers can
      make a difference only where the evidence is sound. The model vetoes, it never
      authorises. */
  lemma ModelOnlyVetoes(w: World, r: Uuid, caseId: Uuid, tenant: string, replayOf: Option<Uuid>, input: NodeInput,
      other: Recommendation)
    requires StartError(w, caseId, tenant).None? && r !in w.repo.runs
    ensures
      var a := StartCall(w, r, caseId, tenant, replayOf, input);
      var b := StartCall(w, r, caseId, tenant, replayOf, input.(recommendation := other));
      var request := w.repo.cases[caseId].request;
      && r in a.threads && r in b.threads && r in a.repo.runs && r in b.repo.runs
      && a.threads[r].state.proposedAction.Some? && b.threads[r].state.proposedAction.Some?
      && (!Policy.EvidenceSound(request, CollectRecords(w.tools, request, input.collectedAt), tenant,
          input.decidedAt) ==>
            a.repo.runs[r].status == b.repo.runs[r].status == Blocked)
      && var p, q := a.threads[r].state.proposedAction.value, b.threads[r].state.proposedAction.value;
         && p == q.(reason := p.reason)
         && forall id, n :: EffectReceipt(p, id, n) == EffectReceipt(q, id, n)
  {
    hide StartCall, Policy.EvidenceSound, CollectRecords, CheckClaims, ClaimsSupported, Policy.Decide;
    StartAwaitsIff(w, r, caseId, tenant, replayOf, input);
    StartAwaitsIff(w, r, caseId, tenant, replayOf, input.(recommendation := other));
  }

  // ----- From the approval to the end -----

  /** The fault configured for an action's transfer. */
  function FaultFor(w: World, action: ProposedAction): Fault {
    GetOr(w.tools.faults, action.transferId, UnknownFault)
  }

  /** One attempt, seen on the thread and on the gateway. */
  lemma AttemptRuns(w: World, r: Uuid, ids: EffectIds)
    requires r in w.threads && w.threads[r].next.Retrying? && w.threads[r].state.proposedAction.Some?
    ensures
      var id := IdAt(ids, w.threads[r].next.attempt);
      var w', t, action := Attempt(w, r, id), w.threads[r], w.threads[r].state.proposedAction.value;
      && r in w'.threads && Attempts(w', r, ids) == Attempts(w, r, ids)
      && w'.repo.runs == w.repo.runs && w'.repo.cases == w.repo.cases
      && w'.threads.Keys == w.threads.Keys && w'.threads[r].state == t.state
      && w'.tools == AfterExecute(w.tools, action, id)
      && w'.threads[r].next ==
         match Answer(w.tools, action, id)
         case Answered(receipt) => Settling(Some(receipt), t.next.lastError)
         case Failed(failure) =>
           var lookUp := action.irreversible || failure.committed;
           AfterFailure(t.next.attempt, lookUp,
                        if lookUp then Some(Status(w'.tools, action.idempotencyKey)) else t.next.receipt, failure)
  {
    hide AfterExecute, Answer, Status;
    RankFalls(w, r, AttemptInput(ids));
  }

  /** What the service and the graph keep of one run. */
  datatype File = File(thread: Thread, log: seq<Event>, approvals: seq<Approval>, receipts: seq<Receipt>)

  function FileOf(w: World, r: Uuid): File
    requires r in w.threads
  {
    File(w.threads[r], GetOr(w.repo.events, r, []), GetOr(w.repo.approvals, r, []), GetOr(w.repo.receipts, r, []))
  }

  /** The file of the run has become this one, and no run record, case or ledger entry has
      moved. */
  ghost predicate Filed(w: World, w': World, r: Uuid, file: File) {
    && r in w.threads && r in w'.threads && FileOf(w', r) == file
    && w'.repo.runs == w.repo.runs && w'.repo.cases == w.repo.cases && w'.tools == w.tools
  }

  // ----- The loop, fault by fault -----

  lemma AttemptFiles(w: World, r: Uuid, ids: EffectIds)
    requires r in w.threads && w.threads[r].next.Retrying? && w.threads[r].state.proposedAction.Some?
    ensures
      var id, k := IdAt(ids, w.threads[r].next.attempt), w.threads[r].next.attempt;
      var w', action := Attempt(w, r, id), w.threads[r].state.proposedAction.value;
      var answer := Answer(w.tools, action, id);
      && r in w'.threads
      && FileOf(w', r) ==
         FileOf(w, r).(thread := w'.threads[r],
                       log := FileOf(w, r).log + if answer.Failed? then [ToolFailureClassified(k, answer.failure)]
                           else [])
      && w'.repo.approvals == w.repo.approvals && w'.repo.receipts == w.repo.receipts
      && w'.threads[r].restarts == w.threads[r].restarts
  {
    hide AfterExecute, Answer, Status;
  }

  /** Which execute call of the key the first one of this loop is. */
  function CallNumber(t: ToolState, key: string): nat {
    if key in t.attempts then t.attempts[key] + 1 else 1
  }

  /** The failures the loop meets, as it logs them. */
  function RetryEvents(failure: Option<ToolFailure>): seq<Event> {
    if failure.Some? then [ToolFailureClassified(1, failure.value)] else []
  }

  /** How the loop ends on a key that is not on the ledger: with a drifted schema it has the
      failure and nothing else; otherwise the effect is on the ledger, of the first call or,
      after a failure that may be retried, of the second, and the loop has its receipt. */
  ghost predicate LoopEnded(w: World, w': World, r: Uuid, action: ProposedAction, ids: EffectIds) {
    && r in w.threads && r in w'.threads && w'.threads[r].next.Settling?
    && w'.repo.runs == w.repo.runs && w'.repo.cases == w.repo.cases
    && var key, n := action.idempotencyKey, CallNumber(w.tools, action.idempotencyKey);
       var failure := FailureUnder(FaultFor(w, action), n);
       && FileOf(w', r) == FileOf(w, r).(thread := w.threads[r].(next := w'.threads[r].next),
                                         log := FileOf(w, r).log + RetryEvents(failure))
       && w'.threads[r].next.lastError == failure
       && if FaultFor(w, action) == SchemaDriftFault then
            w'.tools.effects == w.tools.effects && !Holds(w'.threads[r].next.receipt)
          else
            && w'.threads[r].next.receipt.Some?
            && w'.tools.effects == w.tools.effects[key := w'.threads[r].next.receipt.value]
            && if failure.Some? && failure.value.retryable
                then IsEffect(w'.threads[r].next.receipt.value, action, ids.second, 2)
               else IsEffect(w'.threads[r].next.receipt.value, action, ids.first, n)
  }

  /** One attempt on a key that is not on the ledger: it meets the failure of its fault, which
      leaves nothing, or it acts and has the receipt. */
  ghost predicate Attempted(w: World, w': World, r: Uuid, action: ProposedAction, id: Uuid)
    requires r in w.threads && w.threads[r].next.Retrying?
  {
    var key, n, k := action.idempotencyKey, CallNumber(w.tools, action.idempotencyKey), w.threads[r].next.attempt;
    var failure := FailureUnder(FaultFor(w, action), n);
    && r in w'.threads && w'.repo.runs == w.repo.runs && w'.repo.cases == w.repo.cases
    && FileOf(w', r) ==
       FileOf(w, r).(thread := w.threads[r].(next := w'.threads[r].next),
                     log := FileOf(w, r).log + if failure.Some? then [ToolFailureClassified(k, failure.value)] else [])
    && FaultFor(w', action) == FaultFor(w, action) && CallNumber(w'.tools, key) == n + 1
    && if failure.Some? && !failure.value.committed then
         && w'.tools.effects == w.tools.effects
         && (if failure.value.retryable && k < 3 then
               w'.threads[r].next.Retrying? && w'.threads[r].next.attempt == k + 1
             else w'.threads[r].next.Settling?)
         && w'.threads[r].next.lastError == failure && !Holds(w'.threads[r].next.receipt)
       else
         && key in w'.tools.effects && IsEffect(w'.tools.effects[key], action, id, n)
         && w'.tools.effects == w.tools.effects[key := w'.tools.effects[key]]
         && w'.threads[r].next ==
            Settling(Some(w'.tools.effects[key]), if failure.Some? then failure else w.threads[r].next.lastError)
  }

  lemma AttemptByFault(w: World, r: Uuid, ids: EffectIds)
    requires r in w.threads && w.threads[r].next.Retrying? && w.threads[r].state.proposedAction.Some?
    requires w.threads[r].state.proposedAction.value.idempotencyKey !in w.tools.effects
    requires !Holds(w.threads[r].next.receipt)
    ensures
      var id := IdAt(ids, w.threads[r].next.attempt);
      Attempted(w, Attempt(w, r, id), r, w.threads[r].state.proposedAction.value, id)
  {
    hide Attempt, Attempts, AfterExecute, Answer, Status;
    var action, id := w.threads[r].state.proposedAction.value, IdAt(ids, w.threads[r].next.attempt);
    AttemptRuns(w, r, ids);
    AttemptFiles(w, r, ids);
    ExecuteByFault(w.tools, action, id);
    StatusTells(Attempt(w, r, id).tools, action.idempotencyKey);
  }

  /** A failure without an effect is a drifted schema, or may be retried and is met once. */
  lemma FailureShape(t: ToolState, key: string, fault: Fault)
    ensures
      var n := CallNumber(t, key);
      var failure := FailureUnder(fault, n);
      && (fault == SchemaDriftFault ==>
            failure.Some? && !failure.value.retryable && !failure.value.committed)
      && (failure.Some? && !failure.value.committed && fault != SchemaDriftFault ==>
            failure.value.retryable && n == 1 && FailureUnder(fault, 2).None?)
      && (failure.Some? && failure.value.committed ==> !failure.value.retryable)
  {
  }

  lemma LoopByFault(w: World, r: Uuid, ids: EffectIds)
    requires r in w.threads && w.threads[r].next == Retrying(1, None, None) && w.threads[r].state.proposedAction.Some?
    requires w.threads[r].state.proposedAction.value.idempotencyKey !in w.tools.effects
    ensures LoopEnded(w, Attempts(w, r, ids), r, w.threads[r].state.proposedAction.value, ids)
  {
    hide Attempt, Attempts, IsEffect, FailureUnder, FaultFor, CallNumber;
    var action := w.threads[r].state.proposedAction.value;
    var w1 := Attempt(w, r, IdAt(ids, 1));
    FailureShape(w.tools, action.idempotencyKey, FaultFor(w, action));
    AttemptRuns(w, r, ids);
    AttemptByFault(w, r, ids);
    if w1.threads[r].next.Retrying? {
      AttemptRuns(w1, r, ids);
      AttemptByFault(w1, r, ids);
      AttemptsStop(Attempt(w1, r, IdAt(ids, 2)), r, ids);
    } else {
      AttemptsStop(w1, r, ids);
    }
  }

  lemma AttemptsStop(w: World, r: Uuid, ids: EffectIds)
    requires r in w.threads && !w.threads[r].next.Retrying?
    ensures Attempts(w, r, ids) == w
  {
  }

  // ----- What a node needs -----

  /** A node raises exactly if what it needs is missing: one tenant for the intake; a decision,
      the policies and the record for the recommendation; a proposed action for the interrupt
      and the execution; a reason or a decision for the blocked closure. A node that raises
      leaves no trace but that. */
  lemma RaisesIff(w: World, r: Uuid, input: NodeInput)
    requires r in w.threads && !w.threads[r].next.Raised?
    ensures
      var t, w' := w.threads[r], RunNode(w, r, input);
      && r in w'.threads
      && (w'.threads[r].next.Raised? <==>
            match t.next
            case Ready(IntakeValidation) => t.state.request.tenantId != t.state.authenticatedTenant
            case Ready(LlmRecommendation) => t.state.decision.None? || t.state.policies.None? || r !in w.repo.runs
            case Ready(HumanInterrupt) => t.state.proposedAction.None?
            case Retrying(_, _, _) => t.state.proposedAction.None?
            case Ready(BlockedClosure) => t.state.blockedReason.None? && t.state.decision.None?
            case _ => false)
      && (w'.threads[r].next.Raised? ==> w' == w.(threads := w.threads[r := t.(next := Raised)]))
  {
    hide Policy.Decide, CollectRecords, CheckClaims, ActionFor, WithEvent, WithReceipt, AfterExecute, Answer, Status;
  }

  /** The status the service reads off a state. */
  lemma StatusReads(s: WorkflowState, interrupted: bool)
    ensures StatusOf(s, interrupted) == AwaitingApproval <==> interrupted
    ensures
      StatusOf(s, interrupted) == Completed <==>
          !interrupted && s.currentNode == Some(AuditClosure) && s.outcomeVerified
    ensures
      StatusOf(s, interrupted) == Blocked <==>
      && !interrupted && !(s.currentNode == Some(AuditClosure) && s.outcomeVerified)
      && (s.currentNode == Some(BlockedClosure) || s.blockedReason.Some?)
    ensures Finished(StatusOf(s, interrupted)) <==> StatusOf(s, interrupted) in {Completed, Blocked}
  {
  }

  // ----- From the loop to the end -----

  lemma SettleFiles(w: World, r: Uuid)
    requires r in w.threads && w.threads[r].next.Settling?
    ensures
      var t, f := w.threads[r], FileOf(w, r);
      var Settling(found, lastError) := t.next;
      if Holds(found) then
        var receipt := found.value;
        Filed(w, Settle(w, r), r,
              f.(thread := t.(next := Ready(OutcomeVerification),
                              state := t.state.(currentNode := Some(IdempotentExecution), receipt := Some(receipt),
                                                retryCount := if receipt.attemptCount == 0 then 0
                                                    else receipt.attemptCount - 1)),
                 log := f.log + [ReceiptCommitted(receipt.status, receipt.effectId, receipt.attemptCount)],
                 receipts := f.receipts + [receipt]))
      else
        var reason := if lastError.Some? then ToolFailed(lastError.value.kind) else EffectNotFoundAfterAmbiguity;
        Filed(w, Settle(w, r), r,
              f.(thread := t.(next := Ready(OutcomeVerification),
                              state := t.state.(currentNode := Some(IdempotentExecution), blockedReason := Some(reason),
                                                outcomeVerified := false,
                                                retryCount := if lastError.Some? then 3 else 0))))
  {
  }

  /** The outcome is verified exactly when nothing blocks the run and its receipt is of a
      success or of a replay whose response says that it is verified, whatever tool gave it. */
  lemma VerifyFiles(w: World, r: Uuid)
    requires r in w.threads
    ensures
      var t, f := w.threads[r], FileOf(w, r);
      var checked := t.state.blockedReason.None? && t.state.receipt.Some?;
      var good :=
        && checked && t.state.receipt.value.response.Some? && t.state.receipt.value.response.value.verified
        && (t.state.receipt.value.status == Succeeded || t.state.receipt.value.status == Replayed);
      Filed(w, Verify(w, r), r,
            f.(thread := t.(next := Ready(if good then AuditClosure else BlockedClosure),
                            state := t.state.(currentNode := Some(OutcomeVerification), outcomeVerified := good)),
               log := f.log + if checked then [OutcomeChecked(good)] else []))
  {
  }

  lemma CloseFiles(w: World, r: Uuid)
    requires r in w.threads
    ensures
      var t, f := w.threads[r], FileOf(w, r);
      Filed(w, Close(w, r), r,
            f.(thread := t.(next := Ended, state := t.state.(currentNode := Some(AuditClosure))),
                log := f.log + [RunClosed]))
  {
  }

  lemma BlockFiles(w: World, r: Uuid)
    requires r in w.threads && (w.threads[r].state.blockedReason.Some? || w.threads[r].state.decision.Some?)
    ensures
      var t, f := w.threads[r], FileOf(w, r);
      var reason := if t.state.blockedReason.Some? then t.state.blockedReason.value
                    else DecisionCodes(t.state.decision.value.reasonCodes);
      Filed(w, Block(w, r), r,
            f.(thread := t.(next := Ended,
                            state := t.state.(currentNode := Some(BlockedClosure), blockedReason := Some(reason))),
               log := f.log + [RunStopped(reason)]))
  {
  }

  /** From the end of the loop, with a receipt that holds and is verified, to the end. */
  lemma CompletionRuns(w: World, r: Uuid, input: NodeInput)
    requires r in w.threads && w.threads[r].next.Settling? && Holds(w.threads[r].next.receipt)
    requires w.threads[r].state.blockedReason.None?
    requires
      var receipt := w.threads[r].next.receipt.value;
      receipt.response.Some? && receipt.response.value.verified && receipt.attemptCount > 0
    ensures
      var t, f, receipt := w.threads[r], FileOf(w, r), w.threads[r].next.receipt.value;
      Filed(w, Drive(w, r, input), r,
            File(t.(next := Ended,
                    state := t.state.(receipt := Some(receipt), retryCount := receipt.attemptCount - 1,
                                      outcomeVerified := true, currentNode := Some(AuditClosure))),
                 f.log + [ReceiptCommitted(receipt.status, receipt.effectId, receipt.attemptCount),
                     OutcomeChecked(true),
                          RunClosed],
                 f.approvals, f.receipts + [receipt]))
  {
    hide Drive, Settle, Verify, Close;
    var log := FileOf(w, r).log;
    var receipt := w.threads[r].next.receipt.value;
    SettleFiles(w, r);
    DriveOne(w, r, input);
    var w1 := RunNode(w, r, input);
    VerifyFiles(w1, r);
    DriveOne(w1, r, input);
    var w2 := RunNode(w1, r, input);
    CloseFiles(w2, r);
    DriveOne(w2, r, input);
    DriveStops(RunNode(w2, r, input), r, input);
    var a, b := ReceiptCommitted(receipt.status, receipt.effectId, receipt.attemptCount), OutcomeChecked(true);
    assert log + [a] + [b] + [RunClosed] == log + [a, b, RunClosed];
  }

  /** From the end of the loop, with a failure and no effect, to the end. */
  lemma FailureRuns(w: World, r: Uuid, input: NodeInput)
    requires r in w.threads && w.threads[r].next.Settling? && !Holds(w.threads[r].next.receipt)
    requires w.threads[r].next.lastError.Some? && w.threads[r].state.receipt.None?
    ensures
      var t, f, reason := w.threads[r], FileOf(w, r), ToolFailed(w.threads[r].next.lastError.value.kind);
      Filed(w, Drive(w, r, input), r,
            f.(thread := t.(next := Ended,
                            state := t.state.(blockedReason := Some(reason), retryCount := 3, outcomeVerified := false,
                                              currentNode := Some(BlockedClosure))),
               log := f.log + [RunStopped(reason)]))
  {
    hide Drive, Settle, Verify, Block;
    SettleFiles(w, r);
    DriveOne(w, r, input);
    var w1 := RunNode(w, r, input);
    VerifyFiles(w1, r);
    DriveOne(w1, r, input);
    var w2 := RunNode(w1, r, input);
    BlockFiles(w2, r);
    DriveOne(w2, r, input);
    DriveStops(RunNode(w2, r, input), r, input);
  }

  /** What a paused run has in hand. */
  lemma PausedRun(w: World, r: Uuid)
    requires RunOk(w, r) && w.threads[r].next.Waiting?
    ensures
      var s := w.threads[r].state;
      && s.proposedAction.Some? && s.proposedAction.value.idempotencyKey !in w.tools.effects
      && s.decision.Some? && s.decision.value.reasonCodes == [PolicyConditionsMet]
      && s.blockedReason.None? && s.receipt.None? && !s.outcomeVerified && s.retryCount == 0
  {
    hide Scan, KeyFor, AuditOk, EntryTraced, Policy.Decide;
    var s := w.threads[r].state;
    assert Untouched(View(w, r)) && Authorised(View(w, r));
    var now :| s.decision.value == Policy.Decide(s.request, Evidence(s), s.authenticatedTenant, now);
    Policy.AllowedIffEvidenceSound(s.request, Evidence(s), s.authenticatedTenant, now);
  }

  lemma ResumeFiles(w: World, r: Uuid, approval: Approval)
    requires r in w.threads && w.threads[r].state.proposedAction.Some?
    ensures
      var t, f, action := w.threads[r], FileOf(w, r), w.threads[r].state.proposedAction.value;
      var s := t.state.(approval := Some(approval), currentNode := Some(HumanInterrupt));
      var pause := PausedBeforeEffect(Digest(action), action.irreversible);
      Filed(w, Resume(w, r, approval), r,
            if approval.proposedActionHash != Digest(action) then
              f.(thread := t.(next := Ready(BlockedClosure),
                  state := s.(blockedReason := Some(ApprovalActionHashMismatch))),
                 log := f.log + [pause])
            else
              f.(thread := t.(next := if approval.approved then Retrying(1, None, None)
                  else Ready(BlockedClosure), state := s),
                 log := f.log + [pause, ApprovalRecorded(approval.approved, approval.actorId)],
                 approvals := f.approvals + [approval]))
  {
    var log, action := FileOf(w, r).log, w.threads[r].state.proposedAction.value;
    var pause := PausedBeforeEffect(Digest(action), action.irreversible);
    var note := ApprovalRecorded(approval.approved, approval.actorId);
    assert log + [pause] + [note] == log + [pause, note];
  }

  lemma BlockRuns(w: World, r: Uuid, input: NodeInput)
    requires r in w.threads && w.threads[r].next == Ready(BlockedClosure)
    requires w.threads[r].state.blockedReason.Some? || w.threads[r].state.decision.Some?
    ensures
      var t, f := w.threads[r], FileOf(w, r);
      var reason := if t.state.blockedReason.Some? then t.state.blockedReason.value
                    else DecisionCodes(t.state.decision.value.reasonCodes);
      Filed(w, Drive(w, r, input), r,
            f.(thread := t.(next := Ended,
                            state := t.state.(currentNode := Some(BlockedClosure), blockedReason := Some(reason))),
               log := f.log + [RunStopped(reason)]))
  {
    hide Drive, Block;
    BlockFiles(w, r);
    DriveOne(w, r, input);
    DriveStops(RunNode(w, r, input), r, input);
  }

  /** The call has ended the run: these events are new in its log, this is its state, what has
      been filed, and its record is what it was but for status, state and finish time. */
  ghost predicate Concluded(w: World, w': World, r: Uuid, status: RunStatus, now: int, state: WorkflowState,
                            events: seq<Event>, approvals: seq<Approval>, receipts: seq<Receipt>) {
    && r in w.threads && r in w'.threads && r in w.repo.runs
    && FileOf(w', r) ==
       File(w.threads[r].(next := Done, state := state), FileOf(w, r).log + events, FileOf(w, r).approvals + approvals,
            FileOf(w, r).receipts + receipts)
    && w'.repo.cases == w.repo.cases
    && w'.repo.runs ==
       w.repo.runs[r := w.repo.runs[r].(status := status, state := Some(state), finishedAt := Some(now))]
  }

  lemma RecordConcludes(w0: World, w: World, r: Uuid, now: int, events: seq<Event>, approvals: seq<Approval>,
                        receipts: seq<Receipt>)
    requires r in w0.threads && r in w.threads && w.threads[r].next == Ended && r in w0.repo.runs
    requires w.repo.runs == w0.repo.runs && w.repo.cases == w0.repo.cases
    requires w.threads[r].restarts == w0.threads[r].restarts
    requires FileOf(w, r).log == FileOf(w0, r).log + events
        && FileOf(w, r).approvals == FileOf(w0, r).approvals + approvals
    requires FileOf(w, r).receipts == FileOf(w0, r).receipts + receipts
    ensures
      var w', s := Record(w, r, now), w.threads[r].state;
      w'.tools == w.tools &&
      (StatusOf(s, false) in {Completed, Blocked} ==>
         Concluded(w0, w', r, StatusOf(s, false), now, s, events, approvals, receipts))
  {
    RecordedAs(w, r, now);
    hide Record;
  }

  /** An answer for another action: blocked, nothing filed, nothing done. */
  ghost predicate Mismatched(w: World, w': World, r: Uuid, approval: Approval, action: ProposedAction, now: int)
    requires r in w.threads
  {
    && w'.tools == w.tools
    && Concluded(w, w', r, Blocked, now,
                 w.threads[r].state.(approval := Some(approval), currentNode := Some(BlockedClosure),
                                     blockedReason := Some(ApprovalActionHashMismatch)),
                 [PausedBeforeEffect(Digest(action), action.irreversible), RunStopped(ApprovalActionHashMismatch)], [],
                     [])
  }

  /** A rejection: blocked with the codes of the decision, which allowed the action; the
      rejection is filed, nothing is done. */
  ghost predicate Rejected(w: World, w': World, r: Uuid, approval: Approval, action: ProposedAction, now: int)
    requires r in w.threads
  {
    && w'.tools == w.tools
    && Concluded(w, w', r, Blocked, now,
                 w.threads[r].state.(approval := Some(approval), currentNode := Some(BlockedClosure),
                                     blockedReason := Some(DecisionCodes([PolicyConditionsMet]))),
                 [PausedBeforeEffect(Digest(action), action.irreversible), ApprovalRecorded(false, approval.actorId),
                  RunStopped(DecisionCodes([PolicyConditionsMet]))],
                 [approval], [])
  }

  /** A consent that runs into a drifted schema: one attempt, no effect, and three retries
      reported. */
  ghost predicate Drifted(w: World, w': World, r: Uuid, approval: Approval, action: ProposedAction, now: int)
    requires r in w.threads
  {
    && w'.tools.effects == w.tools.effects
    && Concluded(w, w', r, Blocked, now,
                 w.threads[r].state.(approval := Some(approval), currentNode := Some(BlockedClosure),
                                     blockedReason := Some(ToolFailed(SchemaDrift)), retryCount := 3),
                 [PausedBeforeEffect(Digest(action), action.irreversible), ApprovalRecorded(true, approval.actorId),
                  ToolFailureClassified(1, ToolFailure(SchemaDrift, false, false)),
                      RunStopped(ToolFailed(SchemaDrift))],
                 [approval], [])
  }

  /** Any other consent: the one new entry on the ledger is the effect of the action, of the
      first call or, after a failure that may be retried, of the second; its receipt is in the
      state and on file, and the retries are counted by it. */
  ghost predicate Acted(w: World, w': World, r: Uuid, approval: Approval, action: ProposedAction, input: NodeInput)
    requires r in w.threads
  {
    var n := CallNumber(w.tools, action.idempotencyKey);
    var failure := FailureUnder(FaultFor(w, action), n);
    && action.idempotencyKey in w'.tools.effects
    && var entry := w'.tools.effects[action.idempotencyKey];
       && w'.tools.effects == w.tools.effects[action.idempotencyKey := entry]
       && (if failure.Some? && failure.value.retryable then IsEffect(entry, action, input.effectIds.second, 2)
           else IsEffect(entry, action, input.effectIds.first, n))
       && entry.attemptCount > 0
       && Concluded(w, w', r, Completed, input.recordedAt,
                    w.threads[r].state.(approval := Some(approval), currentNode := Some(AuditClosure),
                                        receipt := Some(entry), retryCount := entry.attemptCount - 1,
                                        outcomeVerified := true),
                    [PausedBeforeEffect(Digest(action), action.irreversible), ApprovalRecorded(true, approval.actorId)]
                    + RetryEvents(failure)
                    + [ReceiptCommitted(Succeeded, entry.effectId, entry.attemptCount), OutcomeChecked(true),
                        RunClosed],
                    [approval], [entry])
  }

  /** A consent has been taken up, and the loop has ended like this. */
  ghost predicate Looped(w: World, w2: World, r: Uuid, approval: Approval, action: ProposedAction, ids: EffectIds) {
    && r in w.threads && r in w2.threads && r in w.repo.runs
    && w2.repo.runs == w.repo.runs && w2.repo.cases == w.repo.cases && w2.threads[r].next.Settling?
    && var key, n := action.idempotencyKey, CallNumber(w.tools, action.idempotencyKey);
       var failure, found := FailureUnder(FaultFor(w, action), n), w2.threads[r].next.receipt;
       && w2.threads[r].next.lastError == failure
       && FileOf(w2, r) ==
          File(w.threads[r].(next := w2.threads[r].next,
                             state := w.threads[r].state.(approval := Some(approval),
                                 currentNode := Some(HumanInterrupt))),
               FileOf(w, r).log
               + ([PausedBeforeEffect(Digest(action), action.irreversible), ApprovalRecorded(true, approval.actorId)]
                  + RetryEvents(failure)),
               FileOf(w, r).approvals + [approval], FileOf(w, r).receipts)
       && if FaultFor(w, action) == SchemaDriftFault then w2.tools.effects == w.tools.effects && !Holds(found)
          else
            && found.Some? && w2.tools.effects == w.tools.effects[key := found.value]
            && if failure.Some? && failure.value.retryable then IsEffect(found.value, action, ids.second, 2)
               else IsEffect(found.value, action, ids.first, n)
  }

  lemma ConsentLoops(w: World, r: Uuid, approval: Approval, input: NodeInput)
    requires r in w.threads && r in w.repo.runs && w.threads[r].next.Waiting? && w.threads[r].state.proposedAction.Some?
    requires w.threads[r].state.blockedReason.None? && w.threads[r].state.receipt.None?
    requires !w.threads[r].state.outcomeVerified
    requires w.threads[r].state.proposedAction.value.idempotencyKey !in w.tools.effects
    requires approval.approved && approval.proposedActionHash == Digest(w.threads[r].state.proposedAction.value)
    ensures
      var w1, action := Resume(w, r, approval), w.threads[r].state.proposedAction.value;
      && r in w1.threads && Looped(w, Attempts(w1, r, input.effectIds), r, approval, action, input.effectIds)
      && Drive(Attempts(w1, r, input.effectIds), r, input) == Drive(w1, r, input)
  {
    hide Resume, Drive, Attempts, IsEffect;
    ResumeFiles(w, r, approval);
    var action := w.threads[r].state.proposedAction.value;
    var w1 := Resume(w, r, approval);
    LoopByFault(w1, r, input.effectIds);
    DriveThroughAttempts(w1, r, input);
    var log, retries := FileOf(w, r).log, RetryEvents(FailureUnder(FaultFor(w, action),
        CallNumber(w.tools, action.idempotencyKey)));
    var taken := [PausedBeforeEffect(Digest(action), action.irreversible), ApprovalRecorded(true, approval.actorId)];
    assert log + taken + retries == log + (taken + retries);
  }

  lemma DriftConcludes(w: World, w2: World, r: Uuid, approval: Approval, action: ProposedAction, input: NodeInput)
    requires Looped(w, w2, r, approval, action, input.effectIds) && FaultFor(w, action) == SchemaDriftFault
    requires w.threads[r].state.receipt.None? && !w.threads[r].state.outcomeVerified
    ensures r in Drive(w2, r, input).threads
    ensures Drifted(w, Record(Drive(w2, r, input), r, input.recordedAt), r, approval, action, input.recordedAt)
  {
    hide Drive, Record, Concluded;
    FailureRuns(w2, r, input);
    var stop, drift := RunStopped(ToolFailed(SchemaDrift)),
        ToolFailureClassified(1, ToolFailure(SchemaDrift, false, false));
    var pause, note := PausedBeforeEffect(Digest(action), action.irreversible),
        ApprovalRecorded(true, approval.actorId);
    assert FileOf(w2, r).log + [stop] == FileOf(w, r).log + [pause, note, drift, stop];
    RecordConcludes(w, Drive(w2, r, input), r, input.recordedAt, [pause, note, drift, stop], [approval], []);
  }

  lemma ActConcludes(w: World, w2: World, r: Uuid, approval: Approval, action: ProposedAction, input: NodeInput)
    requires Looped(w, w2, r, approval, action, input.effectIds) && FaultFor(w, action) != SchemaDriftFault
    requires w.threads[r].state.blockedReason.None?
    ensures r in Drive(w2, r, input).threads
    ensures Acted(w, Record(Drive(w2, r, input), r, input.recordedAt), r, approval, action, input)
  {
    hide Drive, Record, Concluded;
    var entry := w2.threads[r].next.receipt.value;
    CompletionRuns(w2, r, input);
    var retries := RetryEvents(FailureUnder(FaultFor(w, action), CallNumber(w.tools, action.idempotencyKey)));
    hide RetryEvents, FailureUnder;
    var taken := [PausedBeforeEffect(Digest(action), action.irreversible), ApprovalRecorded(true, approval.actorId)];
    var end := [ReceiptCommitted(Succeeded, entry.effectId, entry.attemptCount), OutcomeChecked(true), RunClosed];
    assert FileOf(w, r).log + (taken + retries) + end == FileOf(w, r).log + (taken + retries + end);
    RecordConcludes(w, Drive(w2, r, input), r, input.recordedAt, taken + retries + end, [approval], [entry]);
  }

  lemma ConsentRuns(w: World, r: Uuid, approval: Approval, input: NodeInput)
    requires r in w.threads && r in w.repo.runs && w.threads[r].next.Waiting? && w.threads[r].state.proposedAction.Some?
    requires w.threads[r].state.blockedReason.None? && w.threads[r].state.receipt.None?
    requires !w.threads[r].state.outcomeVerified
    requires w.threads[r].state.proposedAction.value.idempotencyKey !in w.tools.effects
    requires approval.approved && approval.proposedActionHash == Digest(w.threads[r].state.proposedAction.value)
    ensures
      var action, w' := w.threads[r].state.proposedAction.value, ApproveCall(w, r, approval, input);
      if FaultFor(w, action) == SchemaDriftFault then Drifted(w, w', r, approval, action, input.recordedAt)
      else Acted(w, w', r, approval, action, input)
  {
    hide Resume, Drive, Record, Attempts, Looped, Drifted, Acted;
    var action := w.threads[r].state.proposedAction.value;
    ConsentLoops(w, r, approval, input);
    var w2 := Attempts(Resume(w, r, approval), r, input.effectIds);
    if FaultFor(w, action) == SchemaDriftFault {
      DriftConcludes(w, w2, r, approval, action, input);
    } else {
      ActConcludes(w, w2, r, approval, action, input);
    }
  }

  lemma RefusalRuns(w: World, r: Uuid, approval: Approval, input: NodeInput)
    requires r in w.threads && r in w.repo.runs && w.threads[r].next.Waiting? && w.threads[r].state.proposedAction.Some?
    requires w.threads[r].state.blockedReason.None? && w.threads[r].state.decision.Some?
    requires w.threads[r].state.decision.value.reasonCodes == [PolicyConditionsMet]
        && !w.threads[r].state.outcomeVerified
    requires !(approval.approved && approval.proposedActionHash == Digest(w.threads[r].state.proposedAction.value))
    ensures
      var action, w' := w.threads[r].state.proposedAction.value, ApproveCall(w, r, approval, input);
      if approval.proposedActionHash != Digest(action) then Mismatched(w, w', r, approval, action, input.recordedAt)
      else Rejected(w, w', r, approval, action, input.recordedAt)
  {
    hide Resume, Drive, Record, Concluded;
    ResumeFiles(w, r, approval);
    var action, f := w.threads[r].state.proposedAction.value, FileOf(w, r);
    var w1 := Resume(w, r, approval);
    BlockRuns(w1, r, input);
    var pause := PausedBeforeEffect(Digest(action), action.irreversible);
    if approval.proposedActionHash != Digest(action) {
      var stop := RunStopped(ApprovalActionHashMismatch);
      assert f.log + [pause] + [stop] == f.log + [pause, stop];
      RecordConcludes(w, Drive(w1, r, input), r, input.recordedAt, [pause, stop], [], []);
    } else {
      var note, stop := ApprovalRecorded(false, approval.actorId), RunStopped(DecisionCodes([PolicyConditionsMet]));
      assert f.log + [pause, note] + [stop] == f.log + [pause, note, stop];
      RecordConcludes(w, Drive(w1, r, input), r, input.recordedAt, [pause, note, stop], [approval], []);
    }
  }

  /** What a granted approve comes to, to the last event: one of four conclusions, chosen by
      the approver's answer and the fault of the transfer and by nothing else. */
  lemma ApproveConcludes(w: World, r: Uuid, approval: Approval, tenant: string, input: NodeInput)
    requires Inv(w) && ApprovalError(w, r, tenant).None? && AtRest(w, r)
    ensures w.threads[r].state.proposedAction.Some?
    ensures
      var w', action := ApproveCall(w, r, approval, input), w.threads[r].state.proposedAction.value;
      if approval.proposedActionHash != Digest(action) then Mismatched(w, w', r, approval, action, input.recordedAt)
      else if !approval.approved then Rejected(w, w', r, approval, action, input.recordedAt)
      else if FaultFor(w, action) == SchemaDriftFault then Drifted(w, w', r, approval, action, input.recordedAt)
      else Acted(w, w', r, approval, action, input)
  {
    hide Inv, RunOk, Mismatched, Rejected, Drifted, Acted, ApproveCall, Resume;
    RunIsOk(w, r);
    WaitingResumes(w, r, approval);
    PausedRun(w, r);
    if approval.approved && approval.proposedActionHash == Digest(w.threads[r].state.proposedAction.value) {
      ConsentRuns(w, r, approval, input);
    } else {
      RefusalRuns(w, r, approval, input);
    }
  }

  /** In short: the run is completed exactly when the approval is given, is for this very
      action, and the tool's schema has not drifted; a transient failure or a timeout after
      the commit never costs the effect. */
  lemma ApproveCompletesIff(w: World, r: Uuid, approval: Approval, tenant: string, input: NodeInput)
    requires Inv(w) && ApprovalError(w, r, tenant).None? && AtRest(w, r)
    ensures w.threads[r].state.proposedAction.Some?
    ensures
      var w' := ApproveCall(w, r, approval, input);
      var action := w.threads[r].state.proposedAction.value;
      var exact, drift := approval.proposedActionHash == Digest(action), FaultFor(w, action) == SchemaDriftFault;
      && r in w'.repo.runs && r in w'.threads
      && w'.repo.runs[r].status == (if exact && approval.approved && !drift then Completed else Blocked)
      && w'.threads[r].state.blockedReason ==
         (if !exact then Some(ApprovalActionHashMismatch)
          else if !approval.approved then Some(DecisionCodes([PolicyConditionsMet]))
          else if drift then Some(ToolFailed(SchemaDrift))
          else None)
      && (exact && approval.approved && drift ==> w'.threads[r].state.retryCount == 3)
  {
    hide ApproveCall, RunOk;
    ApproveConcludes(w, r, approval, tenant, input);
    RunIsOk(w, r);
    hide Inv;
    WaitingResumes(w, r, approval);
    PausedRun(w, r);
  }
}
