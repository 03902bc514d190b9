/** The synthetic tool gateway (tool_gateway.py): authoritative records, fault injection
    and an in-memory effect ledger keyed by idempotency key. */
module Gateway {
  import opened Domain

  /** A fault configured for a transfer. Names the gateway does not know do nothing. */
  datatype Fault = TimeoutFault | RateLimitFault | ServerErrorFault | SchemaDriftFault | CommitThenTimeoutFault
      | UnknownFault

  datatype ToolState = ToolState(
    effects: map<string, Receipt>,
    attempts: map<string, nat>,
    faults: map<string, Fault>,
    overrides: map<string, seq<EvidenceRecord>>)

  function EffectReceipt(action: ProposedAction, effectId: Uuid, attempt: nat): Receipt {
    Receipt(EffectTool(action.action), action.idempotencyKey, Succeeded, Some(effectId),
            Some(EffectResponse(true, action.action, action.tenantId)), attempt)
  }

  function NotFoundReceipt(key: string): Receipt {
    Receipt(GetActionStatus, key, NotFound, None, None, 1)
  }

  function TransientFailure(fault: Fault): Option<FailureKind> {
    match fault
    case TimeoutFault => Some(Timeout)
    case RateLimitFault => Some(TooManyRequests)
    case ServerErrorFault => Some(ServerError)
    case _ => None
  }

  /** The answer to one execute call: replay what the ledger holds, else fail or commit
      as the fault of the transfer says. */
  function Answer(t: ToolState, action: ProposedAction, effectId: Uuid): ToolAnswer {
    var key := action.idempotencyKey;
    var attempt := GetOr(t.attempts, key, 0) + 1;
    var fault := GetOr(t.faults, action.transferId, UnknownFault);
    if key in t.effects then Answered(t.effects[key].(status := Replayed, attemptCount := attempt))
    else if TransientFailure(fault).Some? && attempt == 1
        then Failed(ToolFailure(TransientFailure(fault).value, true, false))
    else if fault.SchemaDriftFault? then Failed(ToolFailure(SchemaDrift, false, false))
    else if fault.CommitThenTimeoutFault? && attempt == 1 then Failed(ToolFailure(CommitThenTimeout, false, true))
    else Answered(EffectReceipt(action, effectId, attempt))
  }

  /** The ledger after one execute call. */
  function AfterExecute(t: ToolState, action: ProposedAction, effectId: Uuid): ToolState {
    var key := action.idempotencyKey;
    var attempt := GetOr(t.attempts, key, 0) + 1;
    var answer := Answer(t, action, effectId);
    var commits := key !in t.effects && (answer.Answered? || answer.failure.committed);
    t.(attempts := t.attempts[key := attempt],
       effects := if commits then t.effects[key := EffectReceipt(action, effectId, attempt)] else t.effects)
  }

  function Status(t: ToolState, key: string): Receipt {
    if key in t.effects then t.effects[key] else NotFoundReceipt(key)
  }

  const DAY := 86_400

  function DefaultRecords(request: CaseRequest, now: int): seq<EvidenceRecord> {
    var kyc := if request.anomalyType.KycExpired? then "expired" else "verified";
    var transfer := if request.requestedAction.ReleaseTransfer? then "held" else "pending_review";
    var currency := match request.currency case USD => "USD" case EUR => "EUR" case GBP => "GBP";
    [
      EvidenceRecord(request.tenantId, CustomerProfile, "profile:" + request.customerId, now, Some(now + 30 * DAY),
          true,
                     map["customer_id" := Text(request.customerId), "profile_status" := Text("active")]),
      EvidenceRecord(request.tenantId, KycAml, "kyc:" + request.customerId, now, Some(now + DAY), true,
                     map["kyc_status" := Text(kyc), "high_severity_aml_open" := Flag(request.anomalyType.AmlAlert?)]),
      EvidenceRecord(request.tenantId, TransferLedger, "transfer:" + request.transferId, now, None, true,
                     map["transfer_status" := Text(transfer), "amount" := Number(request.amount),
                         "currency" := Text(currency)])
    ]
  }

  function CollectRecords(t: ToolState, request: CaseRequest, now: int): seq<EvidenceRecord> {
    if request.transferId in t.overrides then t.overrides[request.transferId] else DefaultRecords(request, now)
  }

  class SyntheticToolGateway {
    var effects: map<string, Receipt>
    var attempts: map<string, nat>
    var faults: map<string, Fault>
    var recordsOverride: map<string, seq<EvidenceRecord>>

    ghost function Value(): ToolState
      reads this
    {
      ToolState(effects, attempts, faults, recordsOverride)
    }

    constructor ()
      ensures Value() == ToolState(map[], map[], map[], map[])
    {
      effects, attempts, faults, recordsOverride := map[], map[], map[], map[];
    }

    method SetFault(transferId: string, fault: Fault)
      modifies this
      ensures Value() == old(Value()).(faults := old(faults)[transferId := fault])
    {
      faults := faults[transferId := fault];
    }

    method SetRecords(transferId: string, records: seq<EvidenceRecord>)
      modifies this
      ensures Value() == old(Value()).(overrides := old(recordsOverride)[transferId := records])
    {
      recordsOverride := recordsOverride[transferId := records];
    }

    method Collect(request: CaseRequest, now: int) returns (records: seq<EvidenceRecord>)
      ensures records == CollectRecords(Value(), request, now)
      ensures request.transferId in recordsOverride ==> records == recordsOverride[request.transferId]
    {
      if request.transferId in recordsOverride {
        return recordsOverride[request.transferId];
      }
      records := DefaultRecords(request, now);
    }

    method Execute(action: ProposedAction, effectId: Uuid) returns (answer: ToolAnswer)
      modifies this
      ensures answer == Answer(old(Value()), action, effectId)
      ensures Value() == AfterExecute(old(Value()), action, effectId)
    {
      var key := action.idempotencyKey;
      var attempt := GetOr(attempts, key, 0) + 1;
      attempts := attempts[key := attempt];
      if key in effects {
        return Answered(effects[key].(status := Replayed, attemptCount := attempt));
      }
      var fault := GetOr(faults, action.transferId, UnknownFault);
      if TransientFailure(fault).Some? && attempt == 1 {
        return Failed(ToolFailure(TransientFailure(fault).value, true, false));
      }
      if fault == SchemaDriftFault {
        return Failed(ToolFailure(SchemaDrift, false, false));
      }
      if fault == CommitThenTimeoutFault && attempt == 1 {
        effects := effects[key := EffectReceipt(action, effectId, attempt)];
        return Failed(ToolFailure(CommitThenTimeout, false, true));
      }
      var receipt := EffectReceipt(action, effectId, attempt);
      effects := effects[key := receipt];
      return Answered(receipt);
    }

    method StatusOf(key: string) returns (receipt: Receipt)
      ensures receipt == Status(Value(), key)
    {
      receipt := if key in effects then effects[key] else NotFoundReceipt(key);
    }
  }

  // ----- The ledger promise, whatever the fault -----

  /** A receipt that reports the effect held by a ledger entry. */
  ghost predicate Reports(receipt: Receipt, entry: Receipt) {
    && receipt.status in {Succeeded, Replayed}
    && receipt.effectId == entry.effectId && receipt.response == entry.response
    && receipt.idempotencyKey == entry.idempotencyKey && receipt.toolName == entry.toolName
  }

  /** One execute call never touches another key, never changes an entry once written, and
      tells the truth: it answers exactly about the entry the ledger then holds, a failure
      that left an entry says so, and any other failure leaves none. */
  lemma ExecuteIsPutIfAbsent(t: ToolState, action: ProposedAction, effectId: Uuid)
    ensures
      var t' := AfterExecute(t, action, effectId);
      var answer := Answer(t, action, effectId);
      var key := action.idempotencyKey;
      && t'.effects.Keys <= t.effects.Keys + {key}
      && (forall k | k in t.effects :: k in t'.effects && t'.effects[k] == t.effects[k])
      && (key !in t.effects && key in t'.effects ==>
            exists n :: t'.effects[key] == EffectReceipt(action, effectId, n))
      && (answer.Answered? ==> key in t'.effects)
      && (answer.Answered? && (key in t.effects ==> t.effects[key].status.Succeeded?) ==>
            Reports(answer.receipt, t'.effects[key]))
      && (answer.Answered? ==> (answer.receipt.status.Replayed? <==>
            key in t.effects))
      && (answer.Failed? ==> (answer.failure.committed <==> key in t'.effects))
      && (answer.Failed? && answer.failure.committed ==> !answer.failure.retryable)
  {
    var key := action.idempotencyKey;
    var attempt := GetOr(t.attempts, key, 0) + 1;
    if key !in t.effects && key in AfterExecute(t, action, effectId).effects {
      assert AfterExecute(t, action, effectId).effects[key] == EffectReceipt(action, effectId, attempt);
    }
  }

  /** Asking again under a key the ledger holds always succeeds at once, whatever the
      faults, and leaves the ledger as it is. */
  lemma ReplayAlwaysSucceeds(t: ToolState, action: ProposedAction, effectId: Uuid)
    requires action.idempotencyKey in t.effects
    ensures
      var answer := Answer(t, action, effectId);
      && answer.Answered? && answer.receipt.status.Replayed?
      && answer.receipt.effectId == t.effects[action.idempotencyKey].effectId
      && AfterExecute(t, action, effectId).effects == t.effects
  {
  }

  // ----- What each fault does -----

  /** The failure that the n-th call under a new key meets, fault by fault: a drifted schema
      fails every call, the others the first call only, and a timeout after the commit says
      that it has committed. */
  function FailureUnder(fault: Fault, n: nat): Option<ToolFailure> {
    if fault == SchemaDriftFault then Some(ToolFailure(SchemaDrift, false, false))
    else if n > 1 then None
    else if fault == TimeoutFault then Some(ToolFailure(Timeout, true, false))
    else if fault == RateLimitFault then Some(ToolFailure(TooManyRequests, true, false))
    else if fault == ServerErrorFault then Some(ToolFailure(ServerError, true, false))
    else if fault == CommitThenTimeoutFault then Some(ToolFailure(CommitThenTimeout, false, true))
    else None
  }

  /** The one receipt a committed effect ever has: the tool of the action asked for, its key,
      verified, for that action and its tenant. */
  ghost predicate IsEffect(entry: Receipt, action: ProposedAction, id: Uuid, attempt: nat) {
    && entry.toolName == EffectTool(action.action) && entry.idempotencyKey == action.idempotencyKey
    && entry.status == Succeeded && entry.effectId == Some(id) && entry.attemptCount == attempt
    && entry.response.Some? && entry.response.value.verified
    && entry.response.value.action == action.action && entry.response.value.tenantId == action.tenantId
  }

  /** Only this key's entry is new, and only its count has moved. */
  ghost predicate Counted(t: ToolState, t': ToolState, key: string, n: nat, entry: Option<Receipt>) {
    && t'.attempts == t.attempts[key := n]
    && t'.effects == (if entry.Some? then t.effects[key := entry.value] else t.effects)
    && t'.faults == t.faults && t'.overrides == t.overrides
  }

  /** One execute call, case by case: a key on the ledger is replayed whatever the fault;
      otherwise the call meets the failure of its fault or is answered, and it leaves an effect
      if it is answered or the failure says so. */
  lemma ExecuteByFault(t: ToolState, action: ProposedAction, id: Uuid)
    ensures
      var key, t', answer := action.idempotencyKey, AfterExecute(t, action, id), Answer(t, action, id);
      var n := if key in t.attempts then t.attempts[key] + 1 else 1;
      var failure := FailureUnder(if action.transferId in t.faults then t.faults[action.transferId]
          else UnknownFault, n);
      if key in t.effects then
        && Counted(t, t', key, n, None)
        && answer == Answered(t.effects[key].(status := Replayed, attemptCount := n))
      else if failure.Some? && !failure.value.committed then
        Counted(t, t', key, n, None) && answer == Failed(failure.value)
      else
        && key in t'.effects && Counted(t, t', key, n, Some(t'.effects[key]))
            && IsEffect(t'.effects[key], action, id, n)
        && answer == if failure.Some? then Failed(failure.value) else Answered(t'.effects[key])
  {
  }

  /** A status lookup: the entry, or a receipt that says there is none and carries no effect. */
  lemma StatusTells(t: ToolState, key: string)
    ensures
      if key in t.effects then Status(t, key) == t.effects[key]
      else
        var r := Status(t, key);
        && r.status == NotFound && r.idempotencyKey == key && r.toolName == GetActionStatus
        && r.effectId.None? && r.response.None? && r.attemptCount == 1
  {
  }

  // ----- What is collected -----

  /** Records set for a transfer are what every later collection for it gives, down to none at
      all, and a collection for another transfer does not change. */
  lemma CollectsWhatIsSet(t: ToolState, transferId: string, records: seq<EvidenceRecord>, request: CaseRequest,
      now: int)
    ensures
      var t' := t.(overrides := t.overrides[transferId := records]);
      CollectRecords(t', request, now) ==
      if request.transferId == transferId then records else CollectRecords(t, request, now)
  {
  }

  /** With nothing set, the customer's profile, the customer's KYC and AML record and the
      transfer's record: the tenant's own, authoritative, observed now, good for thirty days,
      for one day and for ever, and stating what the request and its anomaly say. */
  lemma CollectsDefaults(t: ToolState, request: CaseRequest, now: int)
    requires request.transferId !in t.overrides
    ensures
      var records := CollectRecords(t, request, now);
      && |records| == 3
      && (forall i | 0 <= i < 3 ::
            records[i].tenantId == request.tenantId && records[i].authoritative && records[i].observedAt == now)
      && records[0].source == CustomerProfile && records[1].source == KycAml && records[2].source == TransferLedger
      && records[0].recordId == "profile:" + request.customerId && records[1].recordId == "kyc:" + request.customerId
      && records[2].recordId == "transfer:" + request.transferId
      && records[0].expiresAt == Some(now + 2_592_000) && records[1].expiresAt == Some(now + 86_400)
      && records[2].expiresAt == None
      && records[0].facts == map["customer_id" := Text(request.customerId), "profile_status" := Text("active")]
      && records[1].facts.Keys == {"kyc_status", "high_severity_aml_open"}
      && records[1].facts["kyc_status"] == Text(if request.anomalyType == KycExpired then "expired" else "verified")
      && records[1].facts["high_severity_aml_open"] == Flag(request.anomalyType == AmlAlert)
      && records[2].facts.Keys == {"transfer_status", "amount", "currency"}
      && records[2].facts["transfer_status"] ==
         Text(if request.requestedAction == ReleaseTransfer then "held" else "pending_review")
      && records[2].facts["amount"] == Number(request.amount)
      && records[2].facts["currency"] ==
         Text(if request.currency == USD then "USD" else if request.currency == EUR then "EUR" else "GBP")
  {
  }
}
