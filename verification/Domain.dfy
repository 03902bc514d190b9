/** The values that travel through the control plane: cases, evidence, decisions,
    proposed actions, approvals, receipts, audit events and run records. */
module Domain {

  datatype Option<+T> = None | Some(value: T)

  datatype Result<+T, +E> = Ok(value: T) | Err(error: E)

  /** The text of a UUID. All that matters here is that it holds no colon. */
  type Uuid = s: string | ':' !in s

  datatype ActionName = PlaceHold | RemoveHold | ReleaseTransfer | CloseCase

  datatype AnomalyType = ProfileMismatch | KycExpired | AmlAlert | UnusualAmount | DuplicateRequest

  datatype Currency = USD | EUR | GBP

  datatype CaseRequest = CaseRequest(
    tenantId: string,
    customerId: string,
    transferId: string,
    anomalyType: AnomalyType,
    requestedAction: ActionName,
    amount: real,
    currency: Currency,
    notes: string)

  datatype CaseState = CaseState(request: CaseRequest, isPublicDemo: bool)

  /** A JSON scalar, as found in the facts of a source record. */
  datatype FactValue = Text(text: string) | Number(number: real) | Flag(flag: bool) | Null

  datatype Source = CustomerProfile | KycAml | TransferLedger | CaseManagement

  datatype EvidenceRecord = EvidenceRecord(
    tenantId: string,
    source: Source,
    recordId: string,
    observedAt: int,
    expiresAt: Option<int>,
    authoritative: bool,
    facts: map<string, FactValue>)

  datatype PolicyCitation = PolicyCitation(policyId: string, text: string)

  datatype ReasonCode =
    | TenantMismatch
    | UntrustedInstruction
    | MissingAuthoritativeRecords
    | CrossTenantEvidence
    | NonAuthoritativeRecord
    | StaleRecord
    | ConflictingRecords
    | KycNotVerified
    | HighSeverityAmlOpen
    | TransferNotReleasable
    | HoldConditionNotCleared
    | OutcomeNotVerified
    | PolicyConditionsMet

  datatype Decision = Decision(
    allowed: bool,
    requiresHuman: bool,
    action: ActionName,
    reasonCodes: seq<ReasonCode>,
    stop: bool)

  datatype Recommendation = Recommendation(
    recommendedAction: ActionName,
    rationale: string,
    citedPolicyIds: seq<string>,
    unsupportedClaims: seq<string>)

  datatype ProposedAction = ProposedAction(
    action: ActionName,
    tenantId: string,
    caseId: Uuid,
    transferId: string,
    reason: string,
    idempotencyKey: string,
    irreversible: bool)

  /** SHA-256 is taken to be injective on actions: a digest either is the digest of
      one action or of no action at all. */
  datatype ActionHash = Digest(action: ProposedAction) | OtherDigest(text: string)

  datatype Approval = Approval(approved: bool, actorId: string, comment: string, proposedActionHash: ActionHash)

  datatype ReceiptStatus = Succeeded | Replayed | FailedEffect | Ambiguous | Compensated | NotFound

  datatype ToolName = EffectTool(action: ActionName) | GetActionStatus

  datatype EffectResponse = EffectResponse(verified: bool, action: ActionName, tenantId: string)

  datatype Receipt = Receipt(
    toolName: ToolName,
    idempotencyKey: string,
    status: ReceiptStatus,
    effectId: Option<Uuid>,
    response: Option<EffectResponse>,
    attemptCount: nat)

  /** Every kind of failure that some gateway raises. */
  datatype FailureKind =
    | Timeout
    | TooManyRequests
    | ServerError
    | SchemaDrift
    | CommitThenTimeout
    | IdempotencyConflict
    | LedgerRace
    | McpError
    | InvalidResponse
    | EmptyResponse

  datatype ToolFailure = ToolFailure(kind: FailureKind, retryable: bool, committed: bool)

  datatype ToolAnswer = Answered(receipt: Receipt) | Failed(failure: ToolFailure)

  datatype Node =
    | IntakeValidation
    | RecordCollection
    | PolicyRetrieval
    | FreshnessChecks
    | PolicyDecision
    | LlmRecommendation
    | HumanInterrupt
    | IdempotentExecution
    | OutcomeVerification
    | AuditClosure
    | BlockedClosure

  /** What a run says when it stops without an effect. */
  datatype BlockedReason =
    | ApprovalActionHashMismatch
    | ToolFailed(kind: FailureKind)
    | EffectNotFoundAfterAmbiguity
    | DecisionCodes(codes: seq<ReasonCode>)

  /** The audit events of a run, each with the payload the workflow gives it. */
  datatype Event =
    | RequestValidated
    | RecordsCollected(sources: seq<Source>)
    | PoliciesRetrieved(policyIds: seq<string>)
    | ChecksEvaluated(records: nat)
    | DecisionEvaluated(allowed: bool, reasonCodes: seq<ReasonCode>)
    | RecommendationBound(unsupportedClaims: nat)
    | PausedBeforeEffect(actionHash: ActionHash, irreversible: bool)
    | ApprovalRecorded(approved: bool, actorId: string)
    | ToolFailureClassified(attempt: nat, failure: ToolFailure)
    | ReceiptCommitted(status: ReceiptStatus, effectId: Option<Uuid>, attempts: nat)
    | OutcomeChecked(verified: bool)
    | RunClosed
    | RunStopped(blockedReason: BlockedReason)
    | ReplayRequested(reason: string)

  datatype RunStatus = Queued | Running | AwaitingApproval | Blocked | Completed | FailedRun

  datatype WorkflowState = WorkflowState(
    runId: Uuid,
    authenticatedTenant: string,
    request: CaseRequest,
    evidence: Option<seq<EvidenceRecord>>,
    policies: Option<seq<PolicyCitation>>,
    decision: Option<Decision>,
    recommendation: Option<Recommendation>,
    proposedAction: Option<ProposedAction>,
    approval: Option<Approval>,
    receipt: Option<Receipt>,
    outcomeVerified: bool,
    blockedReason: Option<BlockedReason>,
    currentNode: Option<Node>,
    retryCount: nat)

  datatype RunRecord = RunRecord(
    caseId: Uuid,
    tenantId: string,
    status: RunStatus,
    finishedAt: Option<int>,
    state: Option<WorkflowState>,
    isPublicDemo: bool,
    replayOf: Option<Uuid>)

  function ActionText(action: ActionName): string {
    match action
    case PlaceHold => "place_hold"
    case RemoveHold => "remove_hold"
    case ReleaseTransfer => "release_transfer"
    case CloseCase => "close_case"
  }

  /** The idempotency key of a run's action: the run id, a colon, the action. */
  function KeyFor(runId: Uuid, action: ActionName): string {
    runId + ":" + ActionText(action)
  }

  /** The actions as they are written in keys, tool names and requests. */
  lemma ActionWords()
    ensures ActionText(PlaceHold) == "place_hold" && ActionText(RemoveHold) == "remove_hold"
    ensures ActionText(ReleaseTransfer) == "release_transfer" && ActionText(CloseCase) == "close_case"
  {
  }

  /** Keys of different runs or of different actions never collide. */
  lemma KeyForInjective(r: Uuid, a: ActionName, r': Uuid, a': ActionName)
    requires KeyFor(r, a) == KeyFor(r', a')
    ensures r == r' && a == a'
  {
    var k := KeyFor(r, a);
    assert k[|r|] == ':' && k[|r'|] == ':';
    assert forall i | 0 <= i < |r| :: k[i] == r[i] && k[i] != ':';
    assert forall i | 0 <= i < |r'| :: k[i] == r'[i] && k[i] != ':';
    assert k[..|r|] == r && k[..|r'|] == r';
    assert k[|r| + 1..] == ActionText(a) == ActionText(a');
    assert ActionText(a)[..3] == ActionText(a')[..3];
  }

  /** Two runs' keys differ, whatever the actions. */
  lemma KeysDiffer(r: Uuid, a: ActionName, r': Uuid, a': ActionName)
    requires r != r'
    ensures KeyFor(r, a) != KeyFor(r', a')
  {
    if KeyFor(r, a) == KeyFor(r', a') {
      KeyForInjective(r, a, r', a');
    }
  }

  function GetOr<K, V>(m: map<K, V>, k: K, default: V): V {
    if k in m then m[k] else default
  }

  function Find<K, V>(m: map<K, V>, k: K): Option<V> {
    if k in m then Some(m[k]) else None
  }
}
