/** The protocol does let work through: on the default records the policy allows exactly what
    it should, and an approved run acts. */
module Liveness {
  import opened Domain
  import opened Gateway
  import opened Repository
  import opened Protocol
  import opened Invariant
  import opened System
  import opened Theorems
  import opened Driver
  import opened History
  import opened Outcomes
  import Policy

  /** What the action needs of the anomaly, when nobody has set other records. */
  predicate Clearable(request: CaseRequest) {
    match request.requestedAction
    case PlaceHold => true
    case CloseCase => false
    case _ => request.anomalyType !in {KycExpired, AmlAlert}
  }

  lemma DefaultFacts(request: CaseRequest, collectedAt: int, decidedAt: int)
    ensures
      var records := DefaultRecords(request, collectedAt);
      && |records| == 3
      && (forall i | 0 <= i < |records| :: records[i].tenantId == request.tenantId && records[i].authoritative)
      && ((forall i | 0 <= i < |records| :: Policy.Fresh(records[i], decidedAt)) <==> decidedAt <= collectedAt + DAY)
      && Policy.Agree(records)
  {
    var records := DefaultRecords(request, collectedAt);
    hide Policy.Agree;
    assert !Policy.Fresh(records[1], decidedAt) <==> decidedAt > collectedAt + DAY;
    assert records[0].facts.Keys == {"customer_id", "profile_status"};
    assert records[1].facts.Keys == {"kyc_status", "high_severity_aml_open"};
    assert records[2].facts.Keys == {"transfer_status", "amount", "currency"};
    DisjointAgree(records);
  }

  /** Records that speak of different things agree. */
  lemma DisjointAgree(records: seq<EvidenceRecord>)
    requires forall i, j | 0 <= i < j < |records| :: records[i].facts.Keys !! records[j].facts.Keys
    ensures Policy.Agree(records)
  {
    forall i, j, k | 0 <= i < |records| && 0 <= j < |records| && k in records[i].facts && k in records[j].facts
      ensures Policy.SameFact(records[i].facts[k], records[j].facts[k])
    {
      assert k in records[i].facts.Keys && k in records[j].facts.Keys;
      assert i == j;
    }
  }

  lemma DefaultClears(request: CaseRequest, now: int)
    ensures Policy.ActionCleared(request.requestedAction, DefaultRecords(request, now)) <==> Clearable(request)
  {
    var records := DefaultRecords(request, now);
    var kyc := if request.anomalyType.KycExpired? then "expired" else "verified";
    assert records[0].facts.Keys == {"customer_id", "profile_status"};
    assert records[1].facts == map["kyc_status" := Text(kyc),
        "high_severity_aml_open" := Flag(request.anomalyType.AmlAlert?)];
    assert records[2].facts.Keys == {"transfer_status", "amount", "currency"};
    assert records[2].facts["transfer_status"]
        == Text(if request.requestedAction.ReleaseTransfer? then "held" else "pending_review");
  }

  /** The default records are sound evidence exactly for clean notes, an action the anomaly
      does not stand against and a decision within a day; closing a case always needs other
      records. */
  lemma DefaultsSoundIff(request: CaseRequest, collectedAt: int, decidedAt: int)
    ensures
      Policy.EvidenceSound(request, DefaultRecords(request, collectedAt), request.tenantId, decidedAt) <==>
      && !Policy.DetectUntrustedInstruction(request.notes) && Clearable(request) && decidedAt <= collectedAt + DAY
  {
    hide Policy.DetectUntrustedInstruction, Policy.ActionCleared, DefaultRecords, Clearable, Policy.Agree, Policy.Fresh;
    DefaultFacts(request, collectedAt, decidedAt);
    DefaultClears(request, collectedAt);
  }

  /** What the approver signs: the very action the run has proposed. */
  function Consent(w: World, r: Uuid, actorId: string): Approval
    requires r in w.threads && w.threads[r].state.proposedAction.Some?
  {
    Approval(true, actorId, "", Digest(w.threads[r].state.proposedAction.value))
  }

  /** From any state of the invariant: a new case whose action is clearable, a model that
      claims nothing unsupported and an approver who signs the proposed action lead to a
      COMPLETED run with its effect on the ledger, under every fault but schema drift. */
  lemma ApprovedRunActs(w: World, caseId: Uuid, r: Uuid, request: CaseRequest, input: NodeInput, later: NodeInput,
                        actorId: string)
    requires Inv(w) && caseId !in w.repo.cases && r !in w.repo.runs
    requires request.transferId !in w.tools.overrides
    requires GetOr(w.tools.faults, request.transferId, UnknownFault) != SchemaDriftFault
    requires Clearable(request) && !Policy.DetectUntrustedInstruction(request.notes)
    requires input.decidedAt <= input.collectedAt + DAY && ClaimsSupported(input.recommendation, input.policies)
    ensures
      var filed := Act(w, OpenCase(caseId, request, request.tenantId, false));
      StartError(filed, caseId, request.tenantId).None?
    ensures
      var filed := Act(w, OpenCase(caseId, request, request.tenantId, false));
      var waiting := StartCall(filed, r, caseId, request.tenantId, None, input);
      && r in waiting.threads && waiting.threads[r].state.proposedAction.Some?
      && r in waiting.repo.runs && waiting.repo.runs[r].status == AwaitingApproval
      && var done := ApproveCall(waiting, r, Consent(waiting, r, actorId), later);
         && Inv(done) && LeadsTo(w, done)
         && r in done.repo.runs && done.repo.runs[r].status == Completed && HasEffect(done, r)
  {
    hide Inv, StartCall, ApproveCall, Clearable, Policy.DetectUntrustedInstruction, Policy.EvidenceSound,
        DefaultRecords,
         LeadsTo, HasEffect, ClaimsSupported, CheckClaims, Policy.Decide;
    var step := OpenCase(caseId, request, request.tenantId, false);
    ActKeepsInv(w, step);
    LeadsToSelf(w);
    LeadsToStep(w, w, step);
    var filed := Act(w, step);
    DefaultsSoundIff(request, input.collectedAt, input.decidedAt);
    StartAwaitsIff(filed, r, caseId, request.tenantId, None, input);
    StartCallOutcome(filed, r, caseId, request.tenantId, input);
    var waiting := StartCall(filed, r, caseId, request.tenantId, None, input);
    LeadsToTrans(w, filed, waiting);
    RunIsOk(waiting, r);
    WaitingTenant(waiting, r);
    var approval := Consent(waiting, r, actorId);
    ApproveCompletesIff(waiting, r, approval, waiting.repo.runs[r].tenantId, later);
    ApproveCallOutcome(waiting, r, approval, waiting.repo.runs[r].tenantId, later);
    LeadsToTrans(w, waiting, ApproveCall(waiting, r, approval, later));
  }

  lemma WaitingTenant(w: World, r: Uuid)
    requires r in w.repo.runs && w.repo.runs[r].status == AwaitingApproval
    ensures ApprovalError(w, r, w.repo.runs[r].tenantId).None?
  {
  }

  /** What a run has done stays done. */
  lemma EffectStays(w: World, w': World, r: Uuid)
    requires Inv(w) && LeadsTo(w, w') && HasEffect(w, r)
    ensures HasEffect(w', r)
  {
    hide Inv, Run, KeyFor, DoneFrozen;
    var steps :| w' == Run(w, steps);
    LaterExtends(w, steps);
    assert RunExtends(w, w', r);
  }

  /** The evidence a start would collect for a case is sound for its request. */
  ghost predicate SoundFor(w: World, request: CaseRequest, tenant: string, input: NodeInput) {
    Policy.EvidenceSound(request, CollectRecords(w.tools, request, input.collectedAt), tenant, input.decidedAt)
  }

  /** Two runs of one transfer that have both acted, under two keys. */
  ghost predicate BothActed(w: World, original: Uuid, r: Uuid) {
    && HasEffect(w, original) && HasEffect(w, r) && RunKey(w, original) != RunKey(w, r)
    && RequestOf(w, r).transferId == RequestOf(w, original).transferId
  }

  /** Effects are one for each run, not one for each transfer. A replay of a run that has acted
      waits for approval on the same terms as any run, and once answered it has acted beside
      the original exactly when the approval is given, is for exactly the proposed action and
      the schema has not drifted. */
  lemma ReplayActsAgainIff(w: World, original: Uuid, r: Uuid, tenant: string, reason: string, input: NodeInput,
                           approval: Approval, later: NodeInput)
    requires Inv(w) && r !in w.repo.runs && AuthorizationError(w, original, tenant).None? && HasEffect(w, original)
    ensures
      var waiting := ReplayCall(w, original, r, tenant, reason, input);
      && r in waiting.repo.runs && r in waiting.threads && HasEffect(waiting, original)
      && waiting.repo.runs[r].status ==
         (if SoundFor(w, RequestOf(w, original), tenant, input) && ClaimsSupported(input.recommendation, input.policies)
          then AwaitingApproval else Blocked)
      && (waiting.repo.runs[r].status == AwaitingApproval ==>
            && waiting.threads[r].state.proposedAction.Some?
            && var action := waiting.threads[r].state.proposedAction.value;
               BothActed(ApproveCall(waiting, r, approval, later), original, r) <==>
               approval.approved && approval.proposedActionHash == Digest(action)
               && FaultFor(waiting, action) != SchemaDriftFault)
  {
    hide Inv, StartCall, ApproveCall, Policy.EvidenceSound, CollectRecords, LeadsTo, HasEffect, ClaimsSupported,
        CheckClaims,
         Policy.Decide, KeyFor, WithEvent;
    OwnTenant(w, original);
    var noted := Emit(w, original, ReplayRequested(reason));
    ReplayCallOutcome(w, original, r, tenant, reason, input);
    NotedSame(w, original, reason);
    StartAwaitsIff(noted, r, w.repo.runs[original].caseId, tenant, Some(original), input);
    var waiting := ReplayCall(w, original, r, tenant, reason, input);
    assert waiting.repo.runs[r].caseId == w.repo.runs[original].caseId && waiting.repo.cases == w.repo.cases;
    EffectStays(w, waiting, original);
    RunStays(w, waiting, original);
    if waiting.repo.runs[r].status == AwaitingApproval {
      RunIsOk(waiting, r);
      WaitingTenant(waiting, r);
      hide ReplayCall;
      AnsweredBeside(waiting, original, r, approval, later);
    }
  }

  lemma AnsweredBeside(waiting: World, original: Uuid, r: Uuid, approval: Approval, later: NodeInput)
    requires Inv(waiting) && original != r && HasEffect(waiting, original)
    requires r in waiting.repo.runs && AtRest(waiting, r) && waiting.repo.runs[r].status == AwaitingApproval
    requires original in waiting.repo.runs && waiting.repo.runs[original].caseId in waiting.repo.cases
    requires waiting.repo.runs[r].caseId == waiting.repo.runs[original].caseId
    ensures waiting.threads[r].state.proposedAction.Some?
    ensures
      var action := waiting.threads[r].state.proposedAction.value;
      BothActed(ApproveCall(waiting, r, approval, later), original, r) <==>
      approval.approved && approval.proposedActionHash == Digest(action)
          && FaultFor(waiting, action) != SchemaDriftFault
  {
    hide Inv, ApproveCall, LeadsTo, HasEffect, KeyFor;
    WaitingTenant(waiting, r);
    ApproveCompletesIff(waiting, r, approval, waiting.repo.runs[r].tenantId, later);
    ApproveCallOutcome(waiting, r, approval, waiting.repo.runs[r].tenantId, later);
    var done := ApproveCall(waiting, r, approval, later);
    EffectStays(waiting, done, original);
    RunStays(waiting, done, original);
    RunStays(waiting, done, r);
    KeysDiffer(original, RequestOf(done, original).requestedAction, r, RequestOf(done, r).requestedAction);
  }

  lemma OwnTenant(w: World, r: Uuid)
    requires Inv(w) && HasEffect(w, r)
    ensures r in w.repo.runs && w.repo.runs[r].caseId in w.repo.cases
    ensures RequestOf(w, r).tenantId == w.repo.runs[r].tenantId
  {
    hide RunOk;
    assert RunOk(w, r);
    OwnCase(w, r);
  }

  lemma NotedSame(w: World, r: Uuid, reason: string)
    ensures
      var noted := Emit(w, r, ReplayRequested(reason));
      noted.tools == w.tools && noted.repo.runs == w.repo.runs && noted.repo.cases == w.repo.cases
  {
  }

  /** What identifies a run, and its request, stay. */
  lemma RunStays(w: World, w': World, r: Uuid)
    requires Inv(w) && LeadsTo(w, w') && r in w.repo.runs && w.repo.runs[r].caseId in w.repo.cases
    ensures r in w'.repo.runs && w'.repo.runs[r].caseId == w.repo.runs[r].caseId
        && w'.repo.runs[r].caseId in w'.repo.cases
    ensures RequestOf(w', r) == RequestOf(w, r) && RunKey(w', r) == RunKey(w, r)
  {
    hide Inv, Run, KeyFor, DoneFrozen, LogsGrow;
    var steps :| w' == Run(w, steps);
    LaterExtends(w, steps);
    assert RunExtends(w, w', r);
  }

  /** In particular there are histories with a completed run and an effect, so what is proved
      of them is proved of something. */
  lemma SomeRunActs()
    ensures exists steps, r ::
      var w := Run(START, steps);
      r in w.repo.runs && w.repo.runs[r].status == Completed && HasEffect(w, r)
  {
    var request := CaseRequest("t", "c", "x", ProfileMismatch, PlaceHold, 1.0, USD, "");
    var input := NodeInput([], Recommendation(PlaceHold, "", [], []), 0, 0, 0, EffectIds("e", "f", "g"));
    Reachable([]);
    assert Run(START, []) == START;
    hide Inv, StartCall, ApproveCall, HasEffect, Run;
    ApprovedRunActs(START, "1", "2", request, input, input, "a");
    var waiting := StartCall(Act(START, OpenCase("1", request, "t", false)), "2", "1", "t", None, input);
    var done := ApproveCall(waiting, "2", Consent(waiting, "2", "a"), input);
    var steps :| done == Run(START, steps);
    assert "2" in Run(START, steps).repo.runs;
  }
}
