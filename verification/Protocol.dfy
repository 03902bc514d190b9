/** One run of the controlled workflow (workflow.py), step by step: every graph node, every
    attempt of the execution node, the interrupt and its resumption, and the two places
    where the service (service.py) writes the outcome back. */
module Protocol {
  import opened Domain
  import opened Gateway
  import opened Repository
  import Policy

  // ----- State -----

  /** Where a run is. Retrying and Settling are the inside of the execution node, with the
      values of its local variables. Suspended and Ended are the moments between the graph
      handing back and the service recording the outcome. */
  datatype Pc =
    | Ready(node: Node)
    | Retrying(attempt: nat, receipt: Option<Receipt>, lastError: Option<ToolFailure>)
    | Settling(receipt: Option<Receipt>, lastError: Option<ToolFailure>)
    | Suspended
    | Waiting
    | Ended
    | Done
    | Raised

  /** The checkpoint of a run; restarts counts how often its execution node was cut off
      and run again from the checkpoint before it. */
  datatype Thread = Thread(next: Pc, state: WorkflowState, restarts: nat)

  datatype World = World(repo: RepoState, tools: ToolState, threads: map<Uuid, Thread>)

  /** The identifiers the tool draws for an effect, one for each attempt that may commit. */
  datatype EffectIds = EffectIds(first: Uuid, second: Uuid, third: Uuid)

  function IdAt(ids: EffectIds, attempt: nat): Uuid {
    if attempt <= 1 then ids.first else if attempt == 2 then ids.second else ids.third
  }

  /** What the nodes take from outside: the retriever's and the model's answers, the clock as
      each reads it, and the identifiers the tool draws. */
  datatype NodeInput = NodeInput(
    policies: seq<PolicyCitation>,
    recommendation: Recommendation,
    collectedAt: int,
    decidedAt: int,
    recordedAt: int,
    effectIds: EffectIds)

  function InitialState(runId: Uuid, tenant: string, request: CaseRequest): WorkflowState {
    WorkflowState(runId, tenant, request, None, None, None, None, None, None, None, false, None, None, 0)
  }

  function Emit(w: World, r: Uuid, e: Event): World {
    w.(repo := WithEvent(w.repo, r, e))
  }

  function Goto(w: World, r: Uuid, pc: Pc, s: WorkflowState): World
    requires r in w.threads
  {
    w.(threads := w.threads[r := w.threads[r].(next := pc, state := s)])
  }

  // ----- The nodes before the interrupt -----

  function Validate(w: World, r: Uuid): World
    requires r in w.threads
  {
    var s := w.threads[r].state;
    if s.request.tenantId != s.authenticatedTenant then Goto(w, r, Raised, s)
    else Goto(Emit(w, r, RequestValidated), r, Ready(RecordCollection), s.(currentNode := Some(IntakeValidation)))
  }

  function SourcesOf(records: seq<EvidenceRecord>): seq<Source> {
    seq(|records|, i requires 0 <= i < |records| => records[i].source)
  }

  function Collect(w: World, r: Uuid, now: int): World
    requires r in w.threads
  {
    var s := w.threads[r].state;
    var records := CollectRecords(w.tools, s.request, now);
    Goto(Emit(w, r, RecordsCollected(SourcesOf(records))), r, Ready(PolicyRetrieval),
         s.(currentNode := Some(RecordCollection), evidence := Some(records)))
  }

  function PolicyIds(policies: seq<PolicyCitation>): seq<string> {
    seq(|policies|, i requires 0 <= i < |policies| => policies[i].policyId)
  }

  function Retrieve(w: World, r: Uuid, policies: seq<PolicyCitation>): World
    requires r in w.threads
  {
    var s := w.threads[r].state;
    Goto(Emit(w, r, PoliciesRetrieved(PolicyIds(policies))), r, Ready(FreshnessChecks),
         s.(currentNode := Some(PolicyRetrieval), policies := Some(policies)))
  }

  function Evidence(s: WorkflowState): seq<EvidenceRecord> {
    if s.evidence.Some? then s.evidence.value else []
  }

  function Check(w: World, r: Uuid): World
    requires r in w.threads
  {
    var s := w.threads[r].state;
    Goto(Emit(w, r, ChecksEvaluated(|Evidence(s)|)), r, Ready(PolicyDecision), s.(currentNode := Some(FreshnessChecks)))
  }

  function DecideNode(w: World, r: Uuid, now: int): World
    requires r in w.threads
  {
    var s := w.threads[r].state;
    var decision := Policy.Decide(s.request, Evidence(s), s.authenticatedTenant, now);
    Goto(Emit(w, r, DecisionEvaluated(decision.allowed, decision.reasonCodes)), r, Ready(LlmRecommendation),
         s.(currentNode := Some(PolicyDecision), decision := Some(decision)))
  }

  /** A recommendation that cites a policy nobody retrieved is marked as unsupported. */
  function CheckClaims(rec: Recommendation, policies: seq<PolicyCitation>): Recommendation {
    if forall i | 0 <= i < |rec.citedPolicyIds| :: rec.citedPolicyIds[i] in PolicyIds(policies) then rec
    else rec.(unsupportedClaims := ["uncited_policy_reference"])
  }

  function ActionFor(runId: Uuid, request: CaseRequest, caseId: Uuid, rationale: string): ProposedAction {
    ProposedAction(request.requestedAction, request.tenantId, caseId, request.transferId, rationale,
                   KeyFor(runId, request.requestedAction), request.requestedAction.ReleaseTransfer?)
  }

  function AfterRecommendation(decision: Decision, rec: Recommendation): Node {
    if decision.allowed && rec.unsupportedClaims == [] then HumanInterrupt else BlockedClosure
  }

  function Recommend(w: World, r: Uuid, answer: Recommendation): World
    requires r in w.threads
  {
    var s := w.threads[r].state;
    if s.decision.None? || s.policies.None? || r !in w.repo.runs then Goto(w, r, Raised, s)
    else
      var rec := CheckClaims(answer, s.policies.value);
      var action := ActionFor(r, s.request, w.repo.runs[r].caseId, rec.rationale);
      Goto(Emit(w, r, RecommendationBound(|rec.unsupportedClaims|)), r,
          Ready(AfterRecommendation(s.decision.value, rec)),
           s.(currentNode := Some(LlmRecommendation), recommendation := Some(rec), proposedAction := Some(action)))
  }

  // ----- The interrupt -----

  function PauseEvent(action: ProposedAction): Event {
    PausedBeforeEffect(Digest(action), action.irreversible)
  }

  /** First pass: announce the pause and hand back to the service. */
  function Interrupt(w: World, r: Uuid): World
    requires r in w.threads
  {
    var s := w.threads[r].state;
    if s.proposedAction.None? then Goto(w, r, Raised, s)
    else Goto(Emit(w, r, PauseEvent(s.proposedAction.value)), r, Suspended, s)
  }

  /** Resumption: the node runs again from its top, so the pause is announced a second time,
      and then looks at the approval. */
  function Resume(w: World, r: Uuid, approval: Approval): World
    requires r in w.threads
  {
    var s := w.threads[r].state;
    if s.proposedAction.None? then Goto(w, r, Raised, s)
    else
      var action := s.proposedAction.value;
      var w1 := Emit(w, r, PauseEvent(action));
      var s1 := s.(approval := Some(approval), currentNode := Some(HumanInterrupt));
      if approval.proposedActionHash != Digest(action) then
        Goto(w1, r, Ready(BlockedClosure), s1.(blockedReason := Some(ApprovalActionHashMismatch)))
      else
        var w2 := w1.(repo := WithApproval(w1.repo, r, approval));
        Goto(Emit(w2, r, ApprovalRecorded(approval.approved, approval.actorId)), r,
             if approval.approved then Retrying(1, None, None) else Ready(BlockedClosure), s1)
  }

  // ----- The execution node -----

  function Holds(receipt: Option<Receipt>): bool {
    receipt.Some? && receipt.value.status in {Succeeded, Replayed}
  }

  /** Where the loop goes after a failure: it leaves on a status, if one was looked up, that
      is not "not found", and otherwise on a failure it may not retry. */
  function AfterFailure(attempt: nat, lookedUp: bool, receipt: Option<Receipt>, failure: ToolFailure): Pc {
    if lookedUp && receipt.Some? && receipt.value.status != NotFound then Settling(receipt, Some(failure))
    else if !failure.retryable || attempt >= 3 then Settling(receipt, Some(failure))
    else Retrying(attempt + 1, receipt, Some(failure))
  }

  /** One attempt of the retry loop. */
  function Attempt(w: World, r: Uuid, effectId: Uuid): World
    requires r in w.threads && w.threads[r].next.Retrying?
  {
    var s := w.threads[r].state;
    var pc := w.threads[r].next;
    if s.proposedAction.None? then Goto(w, r, Raised, s)
    else
      var action := s.proposedAction.value;
      var w1 := w.(tools := AfterExecute(w.tools, action, effectId));
      match Answer(w.tools, action, effectId)
      case Answered(receipt) => Goto(w1, r, Settling(Some(receipt), pc.lastError), s)
      case Failed(failure) =>
        var lookUp := action.irreversible || failure.committed;
        var receipt := if lookUp then Some(Status(w1.tools, action.idempotencyKey)) else pc.receipt;
        Goto(Emit(w1, r, ToolFailureClassified(pc.attempt, failure)), r,
             AfterFailure(pc.attempt, lookUp, receipt, failure), s)
  }

  function BlockedBy(lastError: Option<ToolFailure>): BlockedReason {
    if lastError.Some? then ToolFailed(lastError.value.kind) else EffectNotFoundAfterAmbiguity
  }

  /** After the loop: block, or save the receipt. */
  function Settle(w: World, r: Uuid): World
    requires r in w.threads && w.threads[r].next.Settling?
  {
    var s := w.threads[r].state;
    var Settling(found, lastError) := w.threads[r].next;
    if !Holds(found) then
      Goto(w, r, Ready(OutcomeVerification),
           s.(currentNode := Some(IdempotentExecution), blockedReason := Some(BlockedBy(lastError)),
              outcomeVerified := false, retryCount := if lastError.Some? then 3 else 0))
    else
      var receipt := found.value;
      var w1 := w.(repo := WithReceipt(w.repo, r, receipt));
      Goto(Emit(w1, r, ReceiptCommitted(receipt.status, receipt.effectId, receipt.attemptCount)), r,
           Ready(OutcomeVerification),
           s.(currentNode := Some(IdempotentExecution), receipt := Some(receipt),
              retryCount := if receipt.attemptCount > 0 then receipt.attemptCount - 1 else 0))
  }

  // ----- The nodes after execution -----

  function Verify(w: World, r: Uuid): World
    requires r in w.threads
  {
    var s := w.threads[r].state;
    if s.blockedReason.Some? || s.receipt.None? then
      Goto(w, r, Ready(BlockedClosure), s.(outcomeVerified := false, currentNode := Some(OutcomeVerification)))
    else
      var receipt := s.receipt.value;
      var verified := receipt.response.Some? && receipt.response.value.verified
          && receipt.status in {Succeeded, Replayed};
      Goto(Emit(w, r, OutcomeChecked(verified)), r, Ready(if verified then AuditClosure else BlockedClosure),
           s.(outcomeVerified := verified, currentNode := Some(OutcomeVerification)))
  }

  function Close(w: World, r: Uuid): World
    requires r in w.threads
  {
    Goto(Emit(w, r, RunClosed), r, Ended, w.threads[r].state.(currentNode := Some(AuditClosure)))
  }

  function Block(w: World, r: Uuid): World
    requires r in w.threads
  {
    var s := w.threads[r].state;
    if s.blockedReason.None? && s.decision.None? then Goto(w, r, Raised, s)
    else
      var reason := if s.blockedReason.Some? then s.blockedReason.value
          else DecisionCodes(s.decision.value.reasonCodes);
      Goto(Emit(w, r, RunStopped(reason)), r, Ended,
           s.(currentNode := Some(BlockedClosure), blockedReason := Some(reason)))
  }

  // ----- One step of the graph -----

  function RunNode(w: World, r: Uuid, input: NodeInput): World
    requires r in w.threads
  {
    match w.threads[r].next
    case Ready(IntakeValidation) => Validate(w, r)
    case Ready(RecordCollection) => Collect(w, r, input.collectedAt)
    case Ready(PolicyRetrieval) => Retrieve(w, r, input.policies)
    case Ready(FreshnessChecks) => Check(w, r)
    case Ready(PolicyDecision) => DecideNode(w, r, input.decidedAt)
    case Ready(LlmRecommendation) => Recommend(w, r, input.recommendation)
    case Ready(HumanInterrupt) => Interrupt(w, r)
    case Ready(OutcomeVerification) => Verify(w, r)
    case Ready(AuditClosure) => Close(w, r)
    case Ready(BlockedClosure) => Block(w, r)
    case Retrying(k, _, _) => Attempt(w, r, IdAt(input.effectIds, k))
    case Settling(_, _) => Settle(w, r)
    case _ => w
  }

  /** What the checkpoint before the execution node holds. */
  function BeforeExecution(s: WorkflowState): WorkflowState {
    s.(receipt := None, blockedReason := None, outcomeVerified := false, currentNode := Some(HumanInterrupt),
        retryCount := 0)
  }

  predicate InExecution(pc: Pc) {
    pc.Retrying? || pc.Settling? || pc == Ready(OutcomeVerification)
  }

  /** The execution node is cut off before its update is checkpointed, and starts over. */
  function Restart(w: World, r: Uuid): World
    requires r in w.threads
  {
    var t := w.threads[r];
    if InExecution(t.next) then
      w.(threads := w.threads[r := Thread(Retrying(1, None, None), BeforeExecution(t.state), t.restarts + 1)])
    else w
  }

  // ----- The service around the graph -----

  datatype ServiceError = CaseNotFound | RunNotFound | CrossTenantDenied | NotAwaitingApproval

  function StatusOf(s: WorkflowState, interrupted: bool): RunStatus {
    if interrupted then AwaitingApproval
    else if s.currentNode == Some(AuditClosure) && s.outcomeVerified then Completed
    else if s.currentNode == Some(BlockedClosure) || s.blockedReason.Some? then Blocked
    else Running
  }

  predicate Finished(status: RunStatus) {
    status in {Completed, Blocked, FailedRun}
  }

  /** The service records what the graph handed back. */
  function Record(w: World, r: Uuid, now: int): World
    requires r in w.threads
  {
    var t := w.threads[r];
    if t.next.Suspended? || t.next.Ended? then
      var status := StatusOf(t.state, t.next.Suspended?);
      Goto(w.(repo := WithStatus(w.repo, r, status, t.state, Finished(status), now)), r,
           if t.next.Suspended? then Waiting else Done, t.state)
    else w
  }

  function StartError(w: World, caseId: Uuid, tenant: string): Option<ServiceError> {
    if caseId !in w.repo.cases then Some(CaseNotFound)
    else if w.repo.cases[caseId].request.tenantId != tenant then Some(CrossTenantDenied)
    else None
  }

  /** The run record and the first checkpoint of a new run. */
  function BeginRun(w: World, r: Uuid, caseId: Uuid, tenant: string, replayOf: Option<Uuid>): World
    requires StartError(w, caseId, tenant).None?
  {
    var c := w.repo.cases[caseId];
    var run := RunRecord(caseId, c.request.tenantId, Running, None, None, c.isPublicDemo, replayOf);
    w.(repo := WithRun(w.repo, r, run),
       threads := w.threads[r := Thread(Ready(IntakeValidation), InitialState(r, tenant, c.request), 0)])
  }

  function AuthorizationError(w: World, r: Uuid, tenant: string): Option<ServiceError> {
    if r !in w.repo.runs then Some(RunNotFound)
    else if w.repo.runs[r].tenantId != tenant then Some(CrossTenantDenied)
    else None
  }

  function ApprovalError(w: World, r: Uuid, tenant: string): Option<ServiceError> {
    if AuthorizationError(w, r, tenant).Some? then AuthorizationError(w, r, tenant)
    else if w.repo.runs[r].status != AwaitingApproval then Some(NotAwaitingApproval)
    else None
  }
}
