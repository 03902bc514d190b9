/** Where the authority for an effect came from: not only is an approval on file, some earlier
    step of the history is the approval call that put it there. */
module Provenance {
  import opened Domain
  import opened Gateway
  import opened Repository
  import opened Protocol
  import opened Invariant
  import opened Preservation
  import opened System
  import opened Theorems
  import opened Driver
  import opened History
  import LedgerUse
  import Steps
  import Outcomes
  import Trail
  import Webhooks
  import Policy

  function ApprovalsOf(w: World, r: Uuid): seq<Approval> {
    GetOr(w.repo.approvals, r, [])
  }

  /** The step is a call of approve for the run, granted in this world. */
  predicate GrantedApproval(w: World, step: Step, r: Uuid, approval: Approval) {
    && step.Approve? && step.runId == r && step.approval == approval
    && ApprovalError(w, r, step.tenant).None? && r in w.threads && w.threads[r].next.Waiting?
  }

  lemma NodeKeepsApprovals(w: World, r: Uuid, input: NodeInput)
    requires r in w.threads
    ensures RunNode(w, r, input).repo.approvals == w.repo.approvals
  {
    hide Policy.Decide, CollectRecords, CheckClaims, ActionFor, Answer, AfterExecute, Status, Settle, WithEvent;
    forall e ensures WithEvent(w.repo, r, e).approvals == w.repo.approvals {
      EventKeepsApprovals(w.repo, r, e);
    }
    if w.threads[r].next.Settling? {
      SettleKeepsApprovals(w, r);
    }
  }

  lemma EventKeepsApprovals(p: RepoState, r: Uuid, e: Event)
    ensures WithEvent(p, r, e).approvals == p.approvals
  {
  }

  lemma SettleKeepsApprovals(w: World, r: Uuid)
    requires r in w.threads && w.threads[r].next.Settling?
    ensures Settle(w, r).repo.approvals == w.repo.approvals
  {
  }

  lemma RecordKeepsApprovals(w: World, r: Uuid, now: int)
    requires r in w.threads
    ensures Record(w, r, now).repo.approvals == w.repo.approvals
  {
  }

  lemma ResumeFilesIt(w: World, q: Uuid, given: Approval, r: Uuid)
    requires q in w.threads
    ensures
      ApprovalsOf(Resume(w, q, given), r) in {ApprovalsOf(w, r), ApprovalsOf(w, r) + if q == r then [given] else []}
  {
  }

  /** An approval is new on file only by such a step. */
  lemma ActFilesApproval(w: World, step: Step, r: Uuid, approval: Approval)
    requires Inv(w) && approval in ApprovalsOf(Act(w, step), r)
    ensures approval in ApprovalsOf(w, r) || GrantedApproval(w, step, r, approval)
  {
    hide Inv, RunNode, Record, Resume, Restart, BeginRun, StartError, ApprovalError, AuthorizationError;
    match step
    case NodeStep(q, input) => if q in w.threads { NodeKeepsApprovals(w, q, input); }
    case RecordOutcome(q, now) => if q in w.threads { RecordKeepsApprovals(w, q, now); }
    case Approve(q, given, tenant) => if q in w.threads { ResumeFilesIt(w, q, given, r); }
    case CutOff(q) => if q in w.threads { Steps.RestartIsApart(w, q); }
    case StartRun(q, caseId, tenant) =>
      if StartError(w, caseId, tenant).None? {
        BeginKeepsApprovals(w, q, caseId, tenant, None);
      }
    case ReplayRun(original, q, tenant, reason) =>
      if AuthorizationError(w, original, tenant).None? {
        NotedRun(w, original, tenant);
        var noted := Emit(w, original, ReplayRequested(reason));
        var caseId := w.repo.runs[original].caseId;
        if StartError(noted, caseId, tenant).None? {
          BeginKeepsApprovals(noted, q, caseId, tenant, Some(original));
        }
      }
    case _ =>
  }

  lemma NotedRun(w: World, r: Uuid, tenant: string)
    requires AuthorizationError(w, r, tenant).None?
    ensures r in w.repo.runs
  {
  }

  lemma BeginKeepsApprovals(w: World, r: Uuid, caseId: Uuid, tenant: string, replayOf: Option<Uuid>)
    requires StartError(w, caseId, tenant).None?
    ensures BeginRun(w, r, caseId, tenant, replayOf).repo.approvals == w.repo.approvals
  {
  }

  /** Every approval on file was put there by a granted call of approve. */
  lemma {:induction false} ApprovalWasGranted(steps: seq<Step>, r: Uuid, approval: Approval) returns (n: nat)
    requires approval in ApprovalsOf(Run(START, steps), r)
    ensures n < |steps| && GrantedApproval(Run(START, steps[..n]), steps[n], r, approval)
  {
    hide Act, GrantedApproval, Inv;
    if steps == [] {
      assert false;
    } else {
      var init := steps[..|steps| - 1];
      Reachable(init);
      ActFilesApproval(Run(START, init), steps[|steps| - 1], r, approval);
      if approval in ApprovalsOf(Run(START, init), r) {
        n := ApprovalWasGranted(init, r, approval);
        assert steps[..n] == init[..n];
      } else {
        n := |steps| - 1;
      }
    }
  }

  /** At step n the run waited, its effect not yet on the ledger, and an actor of its own
      tenant approved exactly the action it had proposed. */
  ghost predicate ApprovedAt(steps: seq<Step>, n: nat, r: Uuid) {
    n < |steps| && steps[n].Approve? && steps[n].runId == r &&
    var w, w' := Run(START, steps[..n]), Run(START, steps);
    && r in w.repo.runs && r in w'.repo.runs && r in w.threads && r in w'.threads
    && w.repo.runs[r].status == AwaitingApproval && !HasEffect(w, r)
    && steps[n].tenant == w'.repo.runs[r].tenantId
    && steps[n].approval.approved
    && w'.threads[r].state.proposedAction.Some?
    && w.threads[r].state.proposedAction == w'.threads[r].state.proposedAction
    && steps[n].approval.proposedActionHash == Digest(w'.threads[r].state.proposedAction.value)
  }

  /** A prefix of a history leads to the whole. */
  lemma PrefixLeads(steps: seq<Step>, n: nat)
    requires n <= |steps|
    ensures Run(START, steps) == Run(Run(START, steps[..n]), steps[n..])
  {
    hide Act, Run;
    RunAppend(START, steps[..n], steps[n..]);
    assert steps == steps[..n] + steps[n..];
  }

  /** A paused run has proposed an action and not acted. */
  lemma PausedHasNotActed(w: World, r: Uuid)
    requires RunOk(w, r) && w.threads[r].next.Waiting?
    ensures w.threads[r].state.proposedAction.Some? && !HasEffect(w, r)
  {
    hide Scan, KeyFor, Grounded, AuditOk;
  }

  lemma GrantedIsApprovedAt(steps: seq<Step>, n: nat, r: Uuid, approval: Approval, action: ProposedAction)
    requires n < |steps| && GrantedApproval(Run(START, steps[..n]), steps[n], r, approval)
    requires LedgerUse.Proposes(Run(START, steps), r, action)
    requires approval.approved && approval.proposedActionHash == Digest(action)
    ensures ApprovedAt(steps, n, r)
  {
    hide Run, RunOk, Act, DoneFrozen, HasEffect, LogsGrow;
    var w := Run(START, steps[..n]);
    ReachableRun(steps[..n], r);
    PausedHasNotActed(w, r);
    LedgerUse.ProposalIsFixed(steps, n, r, w.threads[r].state.proposedAction.value);
    Reachable(steps[..n]);
    LaterExtends(w, steps[n..]);
    PrefixLeads(steps, n);
    assert RunExtends(w, Run(START, steps), r);
  }

  // ----- Where the evidence and the decision came from -----

  /** The step is the run's own, at this node. */
  predicate AtNode(w: World, step: Step, r: Uuid, node: Node) {
    step.NodeStep? && step.runId == r && r in w.threads && w.threads[r].next == Ready(node)
  }

  /** What a step does to what a decision rests on: the collection reads the records as they
      are, the decision judges them at its own time, and nothing else touches either. */
  ghost predicate Grounds(w: World, step: Step, t: Thread, t': Thread, r: Uuid) {
    var s, s' := t.state, t'.state;
    && s'.request == s.request && s'.authenticatedTenant == s.authenticatedTenant
    && s'.evidence ==
       (if AtNode(w, step, r, RecordCollection)
        then Some(CollectRecords(w.tools, s.request, step.input.collectedAt)) else s.evidence)
    && s'.decision ==
       (if AtNode(w, step, r, PolicyDecision)
        then Some(Policy.Decide(s.request, Evidence(s), s.authenticatedTenant, step.input.decidedAt)) else s.decision)
  }

  lemma NodeGrounds(w: World, r: Uuid, input: NodeInput)
    requires r in w.threads
    ensures
      var w' := RunNode(w, r, input);
      r in w'.threads && Grounds(w, NodeStep(r, input), w.threads[r], w'.threads[r], r)
  {
    hide WithEvent, WithReceipt, Policy.Decide, CollectRecords, CheckClaims, ActionFor, Answer, AfterExecute, Status;
  }

  lemma ActGrounds(w: World, step: Step, r: Uuid)
    requires Inv(w) && r in w.threads
    ensures r in Act(w, step).threads && Grounds(w, step, w.threads[r], Act(w, step).threads[r], r)
  {
    hide Inv, RunNode, OnlyRun, StartError, AuthorizationError, ApprovalError, WithEvent, WithRun, Policy.Decide,
        CollectRecords;
    RunsAndThreads(w);
    if (step.NodeStep? || step.Approve? || step.CutOff? || step.RecordOutcome?) && step.runId in w.threads {
      if step.runId != r {
        Webhooks.RunStepIsOnlyRun(w, step);
        OthersThread(w, Act(w, step), step.runId, r);
      } else if step.NodeStep? {
        NodeGrounds(w, r, step.input);
      }
    }
  }

  lemma OthersThread(w: World, w': World, q: Uuid, r: Uuid)
    requires (w' == w || OnlyRun(w, w', q)) && q != r && r in w.threads
    ensures r in w'.threads && w'.threads[r] == w.threads[r]
  {
  }

  /** A run that a step begins knows nothing yet. */
  lemma NewKnowsNothing(w: World, step: Step, r: Uuid)
    requires Inv(w) && r !in w.threads && r in Act(w, step).threads
    ensures Act(w, step).threads[r].state.evidence.None? && Act(w, step).threads[r].state.decision.None?
  {
    hide Inv, RunNode, Resume, Restart, Record, OnlyRun, WithEvent, WithRun, StartError, AuthorizationError,
        ApprovalError;
    if (step.NodeStep? || step.Approve? || step.CutOff? || step.RecordOutcome?) && step.runId in w.threads {
      Webhooks.RunStepIsOnlyRun(w, step);
      NoNewThread(w, Act(w, step), step.runId);
    }
  }

  lemma NoNewThread(w: World, w': World, q: Uuid)
    requires w' == w || OnlyRun(w, w', q)
    ensures w'.threads.Keys == w.threads.Keys
  {
  }

  /** At step m the run's records were collected, and they are its evidence. */
  ghost predicate CollectedAt(steps: seq<Step>, m: nat, r: Uuid) {
    m < |steps| && AtNode(Run(START, steps[..m]), steps[m], r, RecordCollection) &&
    var w' := Run(START, steps);
    r in w'.threads &&
    var s := w'.threads[r].state;
    s.evidence == Some(CollectRecords(Run(START, steps[..m]).tools, s.request, steps[m].input.collectedAt))
  }

  /** At step n the run's decision was taken, on its evidence as it still is. */
  ghost predicate DecidedAt(steps: seq<Step>, n: nat, r: Uuid) {
    n < |steps| && AtNode(Run(START, steps[..n]), steps[n], r, PolicyDecision) &&
    var w, w' := Run(START, steps[..n]), Run(START, steps);
    r in w'.threads &&
    var s := w'.threads[r].state;
    && w.threads[r].state.evidence == s.evidence && s.evidence.Some? && w.threads[r].state.request == s.request
    && s.decision == Some(Policy.Decide(s.request, s.evidence.value, s.authenticatedTenant, steps[n].input.decidedAt))
  }

  lemma {:induction false} EvidenceWasCollected(steps: seq<Step>, r: Uuid) returns (m: nat)
    requires r in Run(START, steps).threads && Run(START, steps).threads[r].state.evidence.Some?
    ensures CollectedAt(steps, m, r)
  {
    hide Act, Inv, CollectRecords;
    if steps == [] {
      assert false;
    } else {
      var init, last := steps[..|steps| - 1], steps[|steps| - 1];
      var w := Run(START, init);
      Reachable(init);
      if r !in w.threads {
        NewKnowsNothing(w, last, r);
        assert false;
      } else {
        ActGrounds(w, last, r);
        if AtNode(w, last, r, RecordCollection) {
          m := |init|;
        } else {
          m := EvidenceWasCollected(init, r);
          assert steps[..m] == init[..m];
        }
      }
    }
  }

  lemma NothingDecidedYet(steps: seq<Step>, r: Uuid)
    requires r in Run(START, steps).threads
    requires Run(START, steps).threads[r].next in {Ready(RecordCollection), Ready(PolicyDecision)}
    ensures Run(START, steps).threads[r].state.decision.None?
    ensures
      Run(START, steps).threads[r].next == Ready(PolicyDecision) ==> Run(START, steps).threads[r].state.evidence.Some?
  {
    hide Run;
    Trail.AuditTrailIsTrue(steps);
    assert Trail.TrailOk(Run(START, steps), r);
  }

  lemma {:induction false} DecisionWasTaken(steps: seq<Step>, r: Uuid) returns (n: nat)
    requires r in Run(START, steps).threads && Run(START, steps).threads[r].state.decision.Some?
    ensures DecidedAt(steps, n, r)
  {
    hide Act, Inv, Policy.Decide, CollectRecords;
    if steps == [] {
      assert false;
    } else {
      var init, last := steps[..|steps| - 1], steps[|steps| - 1];
      var w := Run(START, init);
      Reachable(init);
      if r !in w.threads {
        NewKnowsNothing(w, last, r);
        assert false;
      } else {
        ActGrounds(w, last, r);
        if w.threads[r].next in {Ready(RecordCollection), Ready(PolicyDecision)} {
          NothingDecidedYet(init, r);
        }
        if AtNode(w, last, r, PolicyDecision) {
          n := |init|;
        } else {
          n := DecisionWasTaken(init, r);
          assert steps[..n] == init[..n];
        }
      }
    }
  }

  /** What has been decided is decided. */
  lemma {:induction false} DecidedStays(steps: seq<Step>, p: nat, n: nat, r: Uuid)
    requires p <= n <= |steps|
    requires r in Run(START, steps[..p]).threads && Run(START, steps[..p]).threads[r].state.decision.Some?
    ensures r in Run(START, steps[..n]).threads && Run(START, steps[..n]).threads[r].state.decision.Some?
    decreases n - p
  {
    hide Act, Inv, Policy.Decide, CollectRecords;
    if p < n {
      DecidedStays(steps, p, n - 1, r);
      assert steps[..n][..n - 1] == steps[..n - 1];
      Reachable(steps[..n - 1]);
      ActGrounds(Run(START, steps[..n - 1]), steps[n - 1], r);
    }
  }

  /** The run's records were collected at step m, judged at a later step n and sound then, and
      the decision allowed its action. */
  ghost predicate GroundedAt(steps: seq<Step>, m: nat, n: nat, r: Uuid) {
    && m < n && CollectedAt(steps, m, r) && DecidedAt(steps, n, r)
    && var w := Run(START, steps);
       && r in w.repo.runs && w.repo.runs[r].caseId in w.repo.cases
       && var s := w.threads[r].state;
          Policy.EvidenceSound(RequestOf(w, r), s.evidence.value, s.authenticatedTenant, steps[n].input.decidedAt)
  }

  lemma DecisionIsGrounded(steps: seq<Step>, r: Uuid) returns (m: nat, n: nat)
    requires r in Run(START, steps).threads
    requires var s := Run(START, steps).threads[r].state; s.decision.Some? && s.decision.value.allowed
    ensures GroundedAt(steps, m, n, r)
  {
    hide Run, Act, Inv, RunOk, CollectRecords, Policy.Decide, Policy.EvidenceSound;
    n := DecisionWasTaken(steps, r);
    m := EvidenceWasCollected(steps[..n], r);
    assert steps[..n][..m] == steps[..m];
    ReachableRun(steps, r);
    RequestKept(Run(START, steps), r);
    var s := Run(START, steps).threads[r].state;
    Policy.AllowedIffEvidenceSound(s.request, s.evidence.value, s.authenticatedTenant, steps[n].input.decidedAt);
  }

  lemma RequestKept(w: World, r: Uuid)
    requires RunOk(w, r)
    ensures Known(w, r) && w.threads[r].state.request == RequestOf(w, r)
  {
    hide Scan, PcOk, AuditOk, EntryTraced, KeyFor;
  }

  /** The decision comes before the approval. */
  lemma DecidedBeforeApproved(steps: seq<Step>, n: nat, p: nat, r: Uuid)
    requires DecidedAt(steps, n, r) && ApprovedAt(steps, p, r)
    requires Run(START, steps[..p]).threads[r].state.decision.Some?
    ensures n < p
  {
    hide Run, HasEffect, Policy.Decide;
    if p <= n {
      DecidedStays(steps, p, n, r);
      NothingDecidedYet(steps[..n], r);
      assert false;
    }
  }

  lemma ApprovedIsDecided(steps: seq<Step>, p: nat, r: Uuid)
    requires p <= |steps| && r in Run(START, steps[..p]).repo.runs
    requires Run(START, steps[..p]).repo.runs[r].status == AwaitingApproval
    ensures r in Run(START, steps[..p]).threads && Run(START, steps[..p]).threads[r].state.decision.Some?
  {
    hide Run;
    ReachableRun(steps[..p], r);
    AwaitingIsDecided(Run(START, steps[..p]), r);
  }

  lemma AwaitingIsDecided(w: World, r: Uuid)
    requires RunOk(w, r) && w.repo.runs[r].status == AwaitingApproval
    ensures r in w.threads && w.threads[r].state.decision.Some?
  {
    hide Scan, KeyFor, Grounded, AuditOk;
  }

  /** No ledger entry, at any point of any history, without its authorisation on record (an
      allowed decision, no unsupported claim, one tenant throughout) and, earlier in the
      history and in this order: the collection of the run's records from the tools as they
      then were; the decision, at whose time those records were sound, fresh included; and the
      call by which an actor of the tenant approved exactly this action while the run waited
      and nothing had been committed. */
  lemma EveryEffectAuthorised(steps: seq<Step>, k: string)
    requires k in Run(START, steps).tools.effects
    ensures
      var w := Run(START, steps);
      exists r, m, n, p ::
        && OwnsKey(w, r, k) && Authorises(w, r, w.tools.effects[k])
        && GroundedAt(steps, m, n, r) && n < p && ApprovedAt(steps, p, r)
  {
    hide RunOk, Run, ApprovedAt, GroundedAt, Authorises;
    EntriesAuthorised(steps, k);
    var w := Run(START, steps);
    var r :| OwnsKey(w, r, k) && Authorises(w, r, w.tools.effects[k]);
    var approval := SignedApproval(w, r, w.tools.effects[k]);
    var p := ApprovalWasGranted(steps, r, approval);
    GrantedIsApprovedAt(steps, p, r, approval, w.threads[r].state.proposedAction.value);
    AllowedOne(w, r, w.tools.effects[k]);
    var m, n := DecisionIsGrounded(steps, r);
    InThatOrder(steps, m, n, p, r);
  }

  lemma InThatOrder(steps: seq<Step>, m: nat, n: nat, p: nat, r: Uuid)
    requires GroundedAt(steps, m, n, r) && ApprovedAt(steps, p, r)
    ensures n < p
  {
    hide Run, HasEffect, Policy.EvidenceSound, Policy.Decide, CollectRecords;
    ApprovedIsDecided(steps, p, r);
    DecidedBeforeApproved(steps, n, p, r);
  }

  lemma AllowedOne(w: World, r: Uuid, entry: Receipt)
    requires Authorises(w, r, entry)
    ensures r in w.threads && w.threads[r].state.decision.Some? && w.threads[r].state.decision.value.allowed
  {
  }

  lemma SignedApproval(w: World, r: Uuid, entry: Receipt) returns (approval: Approval)
    requires Authorises(w, r, entry)
    ensures r in w.threads && w.threads[r].state.proposedAction.Some?
    ensures approval in ApprovalsOf(w, r) && approval.approved
    ensures approval.proposedActionHash == Digest(w.threads[r].state.proposedAction.value)
  {
    hide Policy.EvidenceSound, KeyFor;
    var action := w.threads[r].state.proposedAction.value;
    approval :| approval in ApprovalsOf(w, r) && approval.approved && approval.proposedActionHash == Digest(action);
  }

  // ----- Every call ever made -----

  /** Every key the gateway has ever been called with is the key of a run that an approver has
      answered. */
  ghost predicate CallsAnswered(w: World) {
    forall k | k in w.tools.attempts ::
      exists r :: OwnsKey(w, r, k) && r in w.threads && w.threads[r].state.approval.Some?
  }

  lemma NodeCalls(w: World, r: Uuid, input: NodeInput)
    requires r in w.threads
    ensures
      var w' := RunNode(w, r, input);
      && r in w'.threads && w'.threads[r].state.approval == w.threads[r].state.approval
      && (w'.tools.attempts == w.tools.attempts ||
          (w.threads[r].next.Retrying? && w.threads[r].state.proposedAction.Some?
           && w'.tools.attempts.Keys == w.tools.attempts.Keys
               + {w.threads[r].state.proposedAction.value.idempotencyKey}))
  {
    hide WithEvent, WithReceipt, Policy.Decide, CollectRecords, CheckClaims, ActionFor, Answer, Status;
  }

  lemma ExecutingIsAnswered(w: World, r: Uuid)
    requires RunOk(w, r) && w.threads[r].next.Retrying? && w.threads[r].state.proposedAction.Some?
    ensures w.threads[r].state.approval.Some?
    ensures Known(w, r) && w.threads[r].state.proposedAction.value.idempotencyKey == RunKey(w, r)
  {
    hide Scan, KeyFor, Grounded, AuditOk;
  }

  lemma AnswerStays(w: World, step: Step, r: Uuid)
    requires r in w.repo.runs && r in w.threads && w.threads[r].state.approval.Some?
    ensures r in Act(w, step).threads && Act(w, step).threads[r].state.approval.Some?
  {
    hide RunNode;
    if step.NodeStep? && step.runId in w.threads {
      NodeCalls(w, step.runId, step.input);
      Steps.NodeIsApart(w, step.runId, step.input);
    }
  }

  /** Answered runs stay answered, under the same key. */
  lemma AnsweredStays(w: World, step: Step, r: Uuid, k: string)
    requires Inv(w) && OwnsKey(w, r, k) && r in w.threads && w.threads[r].state.approval.Some?
    ensures
      var w' := Act(w, step);
      OwnsKey(w', r, k) && r in w'.threads && w'.threads[r].state.approval.Some?
  {
    hide Inv, Act, DoneFrozen, LogsGrow, KeyFor;
    ActExtends(w, step);
    assert RunExtends(w, Act(w, step), r);
    AnswerStays(w, step, r);
  }

  lemma OnlyNodesCall(w: World, step: Step)
    requires !step.NodeStep?
    ensures Act(w, step).tools.attempts == w.tools.attempts
  {
    hide WithEvent, WithRun, WithStatus, StartError, AuthorizationError, ApprovalError;
  }

  lemma ActCalls(w: World, step: Step)
    requires Inv(w) && CallsAnswered(w)
    ensures CallsAnswered(Act(w, step))
  {
    hide Inv, RunNode, RunOk, OwnsKey;
    var w' := Act(w, step);
    if step.NodeStep? && step.runId in w.threads {
      NodeCalls(w, step.runId, step.input);
    } else if !step.NodeStep? {
      OnlyNodesCall(w, step);
    }
    forall k | k in w'.tools.attempts
      ensures exists r :: OwnsKey(w', r, k) && r in w'.threads && w'.threads[r].state.approval.Some?
    {
      if k in w.tools.attempts {
        var r :| OwnsKey(w, r, k) && r in w.threads && w.threads[r].state.approval.Some?;
        AnsweredStays(w, step, r, k);
      } else {
        RunIsOk(w, step.runId);
        ExecutingIsAnswered(w, step.runId);
        KnownOwns(w, step.runId);
        AnsweredStays(w, step, step.runId, k);
      }
    }
  }

  lemma KnownOwns(w: World, r: Uuid)
    requires Known(w, r)
    ensures OwnsKey(w, r, RunKey(w, r))
  {
  }

  lemma {:induction false} EveryCallAnswered(steps: seq<Step>)
    ensures CallsAnswered(Run(START, steps))
  {
    hide Act, Inv, OwnsKey;
    if steps != [] {
      var init := steps[..|steps| - 1];
      EveryCallAnswered(init);
      Reachable(init);
      ActCalls(Run(START, init), steps[|steps| - 1]);
    }
  }

  /** So nothing is ever executed for a run that still waits: the first call its approval leads
      to is the first call of its key. */
  lemma WaitingIsUncalled(steps: seq<Step>, r: Uuid)
    requires r in Run(START, steps).threads && Run(START, steps).threads[r].next.Waiting?
    ensures
      var w := Run(START, steps);
      && Known(w, r) && RunKey(w, r) !in w.tools.attempts && RunKey(w, r) !in w.tools.effects
      && Outcomes.CallNumber(w.tools, RunKey(w, r)) == 1
  {
    hide Run;
    EveryCallAnswered(steps);
    ReachableRun(steps, r);
    var w := Run(START, steps);
    WaitingUnanswered(w, r);
    if RunKey(w, r) in w.tools.attempts {
      var q :| OwnsKey(w, q, RunKey(w, r)) && q in w.threads && w.threads[q].state.approval.Some?;
      hide KeyFor;
      KeyForInjective(r, RequestOf(w, r).requestedAction, q, RequestOf(w, q).requestedAction);
    }
  }

  lemma WaitingUnanswered(w: World, r: Uuid)
    requires RunOk(w, r) && w.threads[r].next.Waiting?
    ensures Known(w, r) && w.threads[r].state.approval.None? && RunKey(w, r) !in w.tools.effects
  {
    hide Scan, KeyFor, Grounded, AuditOk;
  }
}
