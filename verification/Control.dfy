/** The workflow and the service as the objects they are: a graph engine over a repository, a
    tool gateway and a checkpointer, and the service calls around it. Each method is proved to
    do to its objects what the protocol's functions say. */
module Control {
  import opened Domain
  import opened Gateway
  import opened Repository
  import opened Protocol
  import opened Invariant
  import opened System
  import opened Theorems
  import opened Driver
  import opened Frames
  import opened History
  import opened Webhooks
  import Policy

  class ControlledWorkflow {
    const repository: MemoryRepository
    const tools: SyntheticToolGateway
    /** The checkpointer: the next step and the merged state of every thread. */
    var threads: map<Uuid, Thread>

    ghost function State(): World
      reads this, repository, tools
    {
      World(repository.Value(), tools.Value(), threads)
    }

    constructor (repository: MemoryRepository, tools: SyntheticToolGateway)
      ensures this.repository == repository && this.tools == tools && threads == map[]
    {
      this.repository, this.tools, threads := repository, tools, map[];
    }

    /** Merge a node's update into the checkpoint. */
    method Checkpoint(r: Uuid, pc: Pc, s: WorkflowState)
      requires r in threads
      modifies this
      ensures State() == Goto(old(State()), r, pc, s)
    {
      threads := threads[r := threads[r].(next := pc, state := s)];
    }

    method ValidateNode(r: Uuid)
      requires r in threads
      modifies this, repository
      ensures State() == Validate(old(State()), r)
    {
      var s := threads[r].state;
      if s.request.tenantId != s.authenticatedTenant {
        Checkpoint(r, Raised, s);
        return;
      }
      repository.AppendEvent(r, RequestValidated);
      Checkpoint(r, Ready(RecordCollection), s.(currentNode := Some(IntakeValidation)));
    }

    method CollectNode(r: Uuid, now: int)
      requires r in threads
      modifies this, repository
      ensures State() == Collect(old(State()), r, now)
    {
      var s := threads[r].state;
      var records := tools.Collect(s.request, now);
      repository.AppendEvent(r, RecordsCollected(SourcesOf(records)));
      Checkpoint(r, Ready(PolicyRetrieval), s.(currentNode := Some(RecordCollection), evidence := Some(records)));
    }

    method RetrieveNode(r: Uuid, policies: seq<PolicyCitation>)
      requires r in threads
      modifies this, repository
      ensures State() == Retrieve(old(State()), r, policies)
    {
      var s := threads[r].state;
      repository.AppendEvent(r, PoliciesRetrieved(PolicyIds(policies)));
      Checkpoint(r, Ready(FreshnessChecks), s.(currentNode := Some(PolicyRetrieval), policies := Some(policies)));
    }

    method CheckNode(r: Uuid)
      requires r in threads
      modifies this, repository
      ensures State() == Check(old(State()), r)
    {
      var s := threads[r].state;
      repository.AppendEvent(r, ChecksEvaluated(|Evidence(s)|));
      Checkpoint(r, Ready(PolicyDecision), s.(currentNode := Some(FreshnessChecks)));
    }

    method PolicyNode(r: Uuid, now: int)
      requires r in threads
      modifies this, repository
      ensures State() == DecideNode(old(State()), r, now)
    {
      hide Policy.Decide;
      var s := threads[r].state;
      var decision := Policy.DeterministicDecision(s.request, Evidence(s), s.authenticatedTenant, now);
      repository.AppendEvent(r, DecisionEvaluated(decision.allowed, decision.reasonCodes));
      Checkpoint(r, Ready(LlmRecommendation), s.(currentNode := Some(PolicyDecision), decision := Some(decision)));
    }

    method RecommendNode(r: Uuid, answer: Recommendation)
      requires r in threads
      modifies this, repository
      ensures State() == Recommend(old(State()), r, answer)
    {
      var s := threads[r].state;
      var run := repository.GetRun(r);
      if s.decision.None? || s.policies.None? || run.None? {
        Checkpoint(r, Raised, s);
        return;
      }
      var rec := answer;
      if exists i | 0 <= i < |answer.citedPolicyIds| :: answer.citedPolicyIds[i] !in PolicyIds(s.policies.value) {
        rec := answer.(unsupportedClaims := ["uncited_policy_reference"]);
      }
      var action := ProposedAction(
        s.request.requestedAction, s.request.tenantId, run.value.caseId, s.request.transferId, rec.rationale,
        r + ":" + ActionText(s.request.requestedAction), s.request.requestedAction == ReleaseTransfer);
      repository.AppendEvent(r, RecommendationBound(|rec.unsupportedClaims|));
      Checkpoint(r, Ready(AfterRecommendation(s.decision.value, rec)),
                 s.(currentNode := Some(LlmRecommendation), recommendation := Some(rec),
                     proposedAction := Some(action)));
    }

    method InterruptNode(r: Uuid)
      requires r in threads
      modifies this, repository
      ensures State() == Interrupt(old(State()), r)
    {
      var s := threads[r].state;
      if s.proposedAction.None? {
        Checkpoint(r, Raised, s);
        return;
      }
      repository.AppendEvent(r, PauseEvent(s.proposedAction.value));
      Checkpoint(r, Suspended, s);
    }

    method ResumeNode(r: Uuid, approval: Approval)
      requires r in threads
      modifies this, repository
      ensures State() == Resume(old(State()), r, approval)
    {
      var s := threads[r].state;
      if s.proposedAction.None? {
        Checkpoint(r, Raised, s);
        return;
      }
      var expected := Digest(s.proposedAction.value);
      repository.AppendEvent(r, PauseEvent(s.proposedAction.value));
      var s1 := s.(approval := Some(approval), currentNode := Some(HumanInterrupt));
      if approval.proposedActionHash != expected {
        Checkpoint(r, Ready(BlockedClosure), s1.(blockedReason := Some(ApprovalActionHashMismatch)));
        return;
      }
      repository.SaveApproval(r, approval);
      repository.AppendEvent(r, ApprovalRecorded(approval.approved, approval.actorId));
      Checkpoint(r, if approval.approved then Retrying(1, None, None) else Ready(BlockedClosure), s1);
    }

    /** The execution node: at most three attempts, a status lookup after every failure that
        may have committed, and one settlement. */
    method ExecuteNode(r: Uuid, effectIds: EffectIds)
      requires r in threads && threads[r].next == Retrying(1, None, None)
      modifies this, repository, tools
      ensures State() == Execute(old(State()), r, effectIds)
    {
      hide Settle, Attempts, Attempt, AfterExecute, Answer;
      var s := threads[r].state;
      if s.proposedAction.None? {
        AttemptRaises(State(), r, effectIds);
        Checkpoint(r, Raised, s);
        return;
      }
      var action := s.proposedAction.value;
      var receipt: Option<Receipt> := None;
      var lastError: Option<ToolFailure> := None;
      var attempt := 1;
      ghost var w := State();
      assert w.threads == threads[r := threads[r].(next := Retrying(1, None, None), state := s)];
      while attempt <= 3
        invariant 1 <= attempt <= 3
        invariant threads == old(threads) && r in w.threads
        invariant w == Goto(State(), r, Retrying(attempt, receipt, lastError), s)
        invariant Attempts(w, r, effectIds) == Attempts(old(State()), r, effectIds)
        decreases 3 - attempt
      {
        var effectId := IdAt(effectIds, attempt);
        ghost var next := Attempt(w, r, effectId);
        AttemptsUnfold(w, r, effectIds);
        AttemptFrom(State(), r, attempt, receipt, lastError, s, effectId);
        var answer := tools.Execute(action, effectId);
        if answer.Answered? {
          receipt := Some(answer.receipt);
          w := next;
          break;
        }
        var failure := answer.failure;
        lastError := Some(failure);
        repository.AppendEvent(r, ToolFailureClassified(attempt, failure));
        if action.irreversible || failure.committed {
          var found := tools.StatusOf(action.idempotencyKey);
          receipt := Some(found);
          if found.status != NotFound {
            w := next;
            break;
          }
        }
        w := next;
        if !failure.retryable || attempt == 3 {
          break;
        }
        attempt := attempt + 1;
      }
      AttemptsEnd(w, r, effectIds);
      SettleNode(r, s, receipt, lastError);
    }

    /** What follows the loop of the execution node. */
    method SettleNode(r: Uuid, s: WorkflowState, found: Option<Receipt>, lastError: Option<ToolFailure>)
      requires r in threads
      modifies this, repository
      ensures
        State() == Settle(Goto(old(State()), r, Settling(found, lastError), s), r)
    {
      hide WithEvent, WithReceipt;
      if found.None? || found.value.status !in {Succeeded, Replayed} {
        var reason := if lastError.Some? then ToolFailed(lastError.value.kind) else EffectNotFoundAfterAmbiguity;
        Checkpoint(r, Ready(OutcomeVerification),
                   s.(currentNode := Some(IdempotentExecution), blockedReason := Some(reason), outcomeVerified := false,
                      retryCount := if lastError.Some? then 3 else 0));
        return;
      }
      var receipt := found.value;
      repository.SaveReceipt(r, receipt);
      repository.AppendEvent(r, ReceiptCommitted(receipt.status, receipt.effectId, receipt.attemptCount));
      Checkpoint(r, Ready(OutcomeVerification),
                 s.(currentNode := Some(IdempotentExecution), receipt := Some(receipt),
                    retryCount := if receipt.attemptCount > 0 then receipt.attemptCount - 1 else 0));
    }

    method VerifyNode(r: Uuid)
      requires r in threads
      modifies this, repository
      ensures State() == Verify(old(State()), r)
    {
      var s := threads[r].state;
      if s.blockedReason.Some? || s.receipt.None? {
        Checkpoint(r, Ready(BlockedClosure), s.(outcomeVerified := false, currentNode := Some(OutcomeVerification)));
        return;
      }
      var receipt := s.receipt.value;
      var verified := receipt.response.Some? && receipt.response.value.verified
          && receipt.status in {Succeeded, Replayed};
      repository.AppendEvent(r, OutcomeChecked(verified));
      Checkpoint(r, Ready(if verified then AuditClosure else BlockedClosure),
                 s.(outcomeVerified := verified, currentNode := Some(OutcomeVerification)));
    }

    method CloseNode(r: Uuid)
      requires r in threads
      modifies this, repository
      ensures State() == Close(old(State()), r)
    {
      repository.AppendEvent(r, RunClosed);
      Checkpoint(r, Ended, threads[r].state.(currentNode := Some(AuditClosure)));
    }

    method BlockNode(r: Uuid)
      requires r in threads
      modifies this, repository
      ensures State() == Block(old(State()), r)
    {
      var s := threads[r].state;
      if s.blockedReason.None? && s.decision.None? {
        Checkpoint(r, Raised, s);
        return;
      }
      var reason := if s.blockedReason.Some? then s.blockedReason.value
          else DecisionCodes(s.decision.value.reasonCodes);
      repository.AppendEvent(r, RunStopped(reason));
      Checkpoint(r, Ended, s.(currentNode := Some(BlockedClosure), blockedReason := Some(reason)));
    }

    /** The compiled graph: run the next node until the thread pauses or ends. */
    method Invoke(r: Uuid, input: NodeInput)
      requires r in threads && AtNode(threads[r].next)
      modifies this, repository, tools
      ensures State() == Drive(old(State()), r, input)
    {
      hide Drive, AtNode;
      while Runnable(threads[r].next)
        invariant r in threads && AtNode(threads[r].next)
        invariant Drive(State(), r, input) == Drive(old(State()), r, input)
        decreases Rank(threads[r].next)
      {
        RunNext(r, input);
      }
      DriveStops(State(), r, input);
    }

    /** One turn of the engine. */
    method RunNext(r: Uuid, input: NodeInput)
      requires r in threads && Runnable(threads[r].next) && AtNode(threads[r].next)
      modifies this, repository, tools
      ensures r in threads && AtNode(threads[r].next) && Rank(threads[r].next) < Rank(old(threads[r].next))
      ensures Drive(State(), r, input) == Drive(old(State()), r, input)
    {
      hide Drive, Execute, RunNode;
      if threads[r].next.Ready? {
        RankFalls(State(), r, input);
        DriveOne(State(), r, input);
        ReadyLeadsToNode(State(), r, input);
        Dispatch(r, input);
      } else {
        DriveThroughExecute(State(), r, input);
        ExecuteLeadsToNode(State(), r, input.effectIds);
        ExecuteNode(r, input.effectIds);
      }
    }

    /** The table of nodes. */
    method Dispatch(r: Uuid, input: NodeInput)
      requires r in threads && threads[r].next.Ready?
      modifies this, repository
      ensures State() == RunNode(old(State()), r, input)
    {
      hide Validate, Collect, Retrieve, Check, DecideNode, Recommend, Interrupt, Attempt, Settle, Verify, Close, Block;
      match threads[r].next.node {
        case IntakeValidation => ValidateNode(r);
        case RecordCollection => CollectNode(r, input.collectedAt);
        case PolicyRetrieval => RetrieveNode(r, input.policies);
        case FreshnessChecks => CheckNode(r);
        case PolicyDecision => PolicyNode(r, input.decidedAt);
        case LlmRecommendation => RecommendNode(r, input.recommendation);
        case HumanInterrupt => InterruptNode(r);
        case OutcomeVerification => VerifyNode(r);
        case AuditClosure => CloseNode(r);
        case BlockedClosure => BlockNode(r);
        case IdempotentExecution =>
      }
    }

    /** A new thread, run to its first pause or end. */
    method Start(r: Uuid, tenant: string, request: CaseRequest, input: NodeInput)
      modifies this, repository, tools
      ensures
        State() ==
        Drive(old(State()).(threads := old(threads)[r := Thread(Ready(IntakeValidation),
            InitialState(r, tenant, request), 0)]),
              r, input)
    {
      threads := threads[r := Thread(Ready(IntakeValidation), InitialState(r, tenant, request), 0)];
      Invoke(r, input);
    }

    /** A paused thread, resumed with the approver's decision and run to its end. */
    method ResumeRun(r: Uuid, approval: Approval, input: NodeInput)
      requires r in threads
      modifies this, repository, tools
      ensures State() == Drive(Resume(old(State()), r, approval), r, input)
    {
      ResumeNode(r, approval);
      Invoke(r, input);
    }

    /** The outcome of a thread has been recorded by the service. */
    method Recorded(r: Uuid)
      requires r in threads
      modifies this
      ensures State() ==
        Goto(old(State()), r, if old(threads)[r].next.Suspended? then Waiting else Done, old(threads)[r].state)
    {
      Checkpoint(r, if threads[r].next.Suspended? then Waiting else Done, threads[r].state);
    }
  }

  lemma AttemptsUnfold(w: World, r: Uuid, effectIds: EffectIds)
    requires r in w.threads && w.threads[r].next.Retrying?
    ensures r in Attempt(w, r, IdAt(effectIds, w.threads[r].next.attempt)).threads
    ensures Attempts(w, r, effectIds) == Attempts(Attempt(w, r, IdAt(effectIds, w.threads[r].next.attempt)), r,
        effectIds)
  {
    RankFalls(w, r, AttemptInput(effectIds));
  }

  lemma AttemptRaises(w: World, r: Uuid, effectIds: EffectIds)
    requires r in w.threads && w.threads[r].next.Retrying? && w.threads[r].state.proposedAction.None?
    ensures Execute(w, r, effectIds) == Goto(w, r, Raised, w.threads[r].state)
  {
    AttemptsUnfold(w, r, effectIds);
    AttemptsEnd(Attempt(w, r, IdAt(effectIds, w.threads[r].next.attempt)), r, effectIds);
  }

  /** One attempt, in terms of the objects the loop works on. */
  lemma AttemptFrom(w: World, r: Uuid, attempt: nat, receipt: Option<Receipt>, lastError: Option<ToolFailure>,
                    s: WorkflowState, effectId: Uuid)
    requires r in w.threads && s.proposedAction.Some?
    ensures
      var action := s.proposedAction.value;
      var w1 := w.(tools := AfterExecute(w.tools, action, effectId));
      Attempt(Goto(w, r, Retrying(attempt, receipt, lastError), s), r, effectId) ==
      match Answer(w.tools, action, effectId)
      case Answered(answer) => Goto(w1, r, Settling(Some(answer), lastError), s)
      case Failed(failure) =>
        var lookUp := action.irreversible || failure.committed;
        var found := if lookUp then Some(Status(w1.tools, action.idempotencyKey)) else receipt;
        Goto(Emit(w1, r, ToolFailureClassified(attempt, failure)), r, AfterFailure(attempt, lookUp, found, failure), s)
  {
    hide AfterExecute, Answer, Status, WithEvent;
  }

  lemma AttemptsEnd(w: World, r: Uuid, effectIds: EffectIds)
    requires r in w.threads && !w.threads[r].next.Retrying?
    ensures Attempts(w, r, effectIds) == w
  {
  }

  // ----- Nodes as turns of the engine -----

  /** The engine only ever sees threads between nodes. */
  predicate AtNode(pc: Pc) {
    !pc.Settling? && (pc.Retrying? ==> pc == Retrying(1, None, None))
  }

  lemma ReadyLeadsToNode(w: World, r: Uuid, input: NodeInput)
    requires r in w.threads && w.threads[r].next.Ready?
    ensures r in RunNode(w, r, input).threads && AtNode(RunNode(w, r, input).threads[r].next)
  {
    hide WithEvent, Policy.Decide, CollectRecords;
  }

  lemma {:induction false} AttemptsSettle(w: World, r: Uuid, effectIds: EffectIds)
    requires r in w.threads && w.threads[r].next.Retrying?
    ensures
      var w1 := Attempts(w, r, effectIds);
      r in w1.threads && (w1.threads[r].next.Settling? || w1.threads[r].next.Raised?)
    decreases Rank(w.threads[r].next)
  {
    hide Answer, AfterExecute, WithEvent;
    AttemptsUnfold(w, r, effectIds);
    RankFalls(w, r, AttemptInput(effectIds));
    var w1 := Attempt(w, r, IdAt(effectIds, w.threads[r].next.attempt));
    if w1.threads[r].next.Retrying? {
      AttemptsSettle(w1, r, effectIds);
    }
  }

  lemma ExecuteLeadsToNode(w: World, r: Uuid, effectIds: EffectIds)
    requires r in w.threads && w.threads[r].next.Retrying?
    ensures
      var w1 := Execute(w, r, effectIds);
      r in w1.threads && AtNode(w1.threads[r].next) && Rank(w1.threads[r].next) < Rank(w.threads[r].next)
  {
    hide Attempts, WithEvent, WithReceipt;
    AttemptsSettle(w, r, effectIds);
  }

  // ----- The service -----

  class ControlPlaneService {
    const repository: MemoryRepository
    const workflow: ControlledWorkflow

    /** The service and its workflow share one repository. */
    ghost predicate Valid()
      reads this, workflow
    {
      workflow.repository == repository
    }

    ghost function State(): World
      reads this, repository, workflow, workflow.repository, workflow.tools
    {
      workflow.State()
    }

    constructor (repository: MemoryRepository, workflow: ControlledWorkflow)
      requires workflow.repository == repository
      ensures Valid() && this.repository == repository && this.workflow == workflow
      ensures workflow.State() == START ==> Quiet(State())
    {
      this.repository, this.workflow := repository, workflow;
      new;
      NewSystemIsQuiet();
    }

    method CreateCase(caseId: Uuid, request: CaseRequest, tenant: string, isPublic: bool)
      returns (result: Result<CaseState, ServiceError>)
      requires Valid() && caseId !in repository.cases
      modifies repository
      ensures State() == Act(old(State()), OpenCase(caseId, request, tenant, isPublic))
      ensures result == if request.tenantId != tenant then Err(CrossTenantDenied) else Ok(CaseState(request, isPublic))
      ensures repository.cases ==
        if request.tenantId == tenant then old(repository.cases)[caseId := CaseState(request, isPublic)]
        else old(repository.cases)
      ensures old(Quiet(State())) ==> Quiet(State())
    {
      hide Inv;
      ghost var w := State();
      if Quiet(w) {
        ActKeepsInv(w, OpenCase(caseId, request, tenant, isPublic));
      }
      if request.tenantId != tenant {
        return Err(CrossTenantDenied);
      }
      repository.CreateCase(caseId, CaseState(request, isPublic));
      return Ok(CaseState(request, isPublic));
    }

    /** Write the outcome of the graph back to the run. */
    method RecordOutcomeOf(runId: Uuid, now: int)
      requires Valid() && runId in workflow.threads
      requires workflow.threads[runId].next.Suspended? || workflow.threads[runId].next.Ended?
      modifies repository, workflow
      ensures State() == Record(old(State()), runId, now)
    {
      var t := workflow.threads[runId];
      var status := StatusOf(t.state, t.next.Suspended?);
      var updated := repository.UpdateRun(runId, status, t.state, status in {Completed, Blocked, FailedRun}, now);
      workflow.Recorded(runId);
    }

    method StartRun(runId: Uuid, caseId: Uuid, tenant: string, replayOf: Option<Uuid>, input: NodeInput)
      returns (result: Result<RunRecord, ServiceError>)
      requires Valid() && runId !in repository.runs && Inv(State())
      requires replayOf.Some? ==>
        replayOf.value in repository.runs && repository.runs[replayOf.value].caseId == caseId
        && repository.runs[replayOf.value].tenantId == tenant
      modifies repository, workflow, workflow.tools
      ensures Inv(State()) && (old(Quiet(State())) ==> Quiet(State()))
      ensures
        var w := old(State());
        if caseId !in w.repo.cases then State() == w && result == Err(CaseNotFound)
        else if w.repo.cases[caseId].request.tenantId != tenant then State() == w && result == Err(CrossTenantDenied)
        else
          && StartError(w, caseId, tenant).None?
          && State() == StartCall(w, runId, caseId, tenant, replayOf, input)
          && runId in repository.runs && result == Ok(repository.runs[runId])
          && result.value.status in {AwaitingApproval, Blocked}
    {
      hide Inv, Drive, Record, LeadsTo, HasEffect, StatusOf;
      var c := repository.GetCase(caseId);
      if c.None? {
        return Err(CaseNotFound);
      }
      if c.value.request.tenantId != tenant {
        return Err(CrossTenantDenied);
      }
      StartOutcome(State(), runId, caseId, tenant, replayOf, input);
      if Quiet(State()) {
        StartKeepsQuiet(State(), runId, caseId, tenant, replayOf, input);
      }
      var run := RunRecord(caseId, c.value.request.tenantId, Running, None, None, c.value.isPublicDemo, replayOf);
      repository.CreateRun(runId, run);
      workflow.Start(runId, tenant, c.value.request, input);
      RecordOutcomeOf(runId, input.recordedAt);
      result := Ok(repository.runs[runId]);
    }

    /** Asked of the caller: no other resumption of this very run is under way. */
    method Approve(runId: Uuid, approval: Approval, tenant: string, input: NodeInput)
      returns (result: Result<RunRecord, ServiceError>)
      requires Valid() && Inv(State())
      requires ApprovalError(State(), runId, tenant).None? && runId in workflow.threads ==>
          workflow.threads[runId].next.Waiting?
      modifies repository, workflow, workflow.tools
      ensures Inv(State()) && (old(Quiet(State())) ==> Quiet(State()))
      ensures
        var w := old(State());
        if runId !in w.repo.runs then State() == w && result == Err(RunNotFound)
        else if w.repo.runs[runId].tenantId != tenant then State() == w && result == Err(CrossTenantDenied)
        else if w.repo.runs[runId].status != AwaitingApproval then State() == w && result == Err(NotAwaitingApproval)
        else
          && runId in w.threads && State() == ApproveCall(w, runId, approval, input)
          && runId in repository.runs && result == Ok(repository.runs[runId])
          && result.value.status in {Completed, Blocked}
          && (result.value.status == Completed <==> HasEffect(State(), runId))
    {
      hide Inv, Drive, Record, LeadsTo, HasEffect, Resume;
      var run := repository.GetRun(runId);
      if run.None? {
        return Err(RunNotFound);
      }
      if run.value.tenantId != tenant {
        return Err(CrossTenantDenied);
      }
      if run.value.status != AwaitingApproval {
        return Err(NotAwaitingApproval);
      }
      RunsAndThreads(State());
      if Quiet(State()) {
        ApproveKeepsQuiet(State(), runId, approval, tenant, input);
      }
      ApproveCallOutcome(State(), runId, approval, tenant, input);
      workflow.ResumeRun(runId, approval, input);
      RecordOutcomeOf(runId, input.recordedAt);
      result := Ok(repository.runs[runId]);
    }

    method Replay(original: Uuid, runId: Uuid, tenant: string, reason: string, input: NodeInput)
      returns (result: Result<RunRecord, ServiceError>)
      requires Valid() && runId !in repository.runs && Inv(State())
      modifies repository, workflow, workflow.tools
      ensures Inv(State()) && (old(Quiet(State())) ==> Quiet(State()))
      ensures
        var w := old(State());
        if original !in w.repo.runs then State() == w && result == Err(RunNotFound)
        else if w.repo.runs[original].tenantId != tenant then State() == w && result == Err(CrossTenantDenied)
        else
          && AuthorizationError(w, original, tenant).None?
          && State() == ReplayCall(w, original, runId, tenant, reason, input)
          && runId in repository.runs && result == Ok(repository.runs[runId])
          && result.value.status in {AwaitingApproval, Blocked}
    {
      hide Inv, StartCall;
      var run := repository.GetRun(original);
      if run.None? {
        return Err(RunNotFound);
      }
      if run.value.tenantId != tenant {
        return Err(CrossTenantDenied);
      }
      ReplayStarts(State(), original, tenant, reason);
      if Quiet(State()) {
        NoteKeepsQuiet(State(), original, tenant, reason);
      }
      repository.AppendEvent(original, ReplayRequested(reason));
      result := StartRun(runId, run.value.caseId, tenant, Some(original), input);
    }
  }

  // ----- Signed webhooks -----

  datatype WebhookReply = IdsDiffer | AlreadyClaimed | Accepted(run: RunRecord)

  /** One delivery, taken through without interruption. (What interleaved and interrupted
      deliveries come to is the subject of module Webhooks.) */
  method WebhookCase(service: ControlPlaneService, idempotencyKey: string, eventId: string, request: CaseRequest,
                     caseId: Uuid, runId: Uuid, input: NodeInput)
    returns (reply: WebhookReply)
    requires service.Valid() && Inv(service.State())
    requires caseId !in service.repository.cases && runId !in service.repository.runs
    modifies service.repository, service.workflow, service.workflow.tools
    ensures service.Valid() && Inv(service.State())
    ensures old(Quiet(service.State())) ==> Quiet(service.State())
    ensures
      var w, w' := old(service.State()), service.State();
      if eventId != idempotencyKey then reply == IdsDiffer && w' == w
      else if eventId in w.repo.webhooks then reply == AlreadyClaimed && w' == w
      else
        var filed := Act(w.(repo := WithWebhook(w.repo, eventId)), OpenCase(caseId, request, request.tenantId, false));
        && StartError(filed, caseId, request.tenantId).None?
        && w' == StartCall(filed, runId, caseId, request.tenantId, None, input)
        && w'.repo.webhooks == w.repo.webhooks + {eventId}
        && runId in w'.repo.runs && reply == Accepted(w'.repo.runs[runId])
        && w'.repo.runs[runId].status in {AwaitingApproval, Blocked}
  {
    hide Inv, StartCall, LeadsTo, RunOk;
    if eventId != idempotencyKey {
      return IdsDiffer;
    }
    ghost var w := service.State();
    var claimed := service.repository.ClaimWebhook(eventId);
    if !claimed {
      assert w.repo.webhooks + {eventId} == w.repo.webhooks;
      assert service.State() == w;
      return AlreadyClaimed;
    }
    WebhookKeepsInv(w, eventId);
    var filed := service.CreateCase(caseId, request, request.tenantId, false);
    ActKeepsInv(w.(repo := WithWebhook(w.repo, eventId)), OpenCase(caseId, request, request.tenantId, false));
    if Quiet(w) {
      FilingKeepsQuiet(w, service.State());
    }
    StartCallOutcome(service.State(), runId, caseId, request.tenantId, input);
    StartKeepsWebhooks(service.State(), runId, caseId, request.tenantId, input);
    var run := service.StartRun(runId, caseId, request.tenantId, None, input);
    reply := Accepted(run.value);
  }

  lemma StartKeepsWebhooks(w: World, r: Uuid, caseId: Uuid, tenant: string, input: NodeInput)
    requires Inv(w) && r !in w.repo.runs && StartError(w, caseId, tenant).None?
    ensures StartCall(w, r, caseId, tenant, None, input).repo.webhooks == w.repo.webhooks
  {
    hide Inv, StartCall, AtRest, HasEffect, Run;
    StartCallOutcome(w, r, caseId, tenant, input);
    var steps :| StartCall(w, r, caseId, tenant, None, input) == Run(w, steps);
    RunKeepsWebhooks(w, steps);
  }
}
