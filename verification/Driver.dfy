/** A whole service call as a run of steps: the graph is driven from node to node until it
    pauses or ends, and the service records the outcome. */
module Driver {
  import opened Domain
  import opened Gateway
  import opened Repository
  import opened Protocol
  import opened Invariant
  import opened Preservation
  import opened System
  import opened Theorems
  import Policy

  predicate Runnable(pc: Pc) {
    (pc.Ready? && pc.node != IdempotentExecution) || pc.Retrying? || pc.Settling?
  }

  /** How many steps may still follow. */
  function Rank(pc: Pc): nat {
    match pc
    case Ready(n) =>
      (match n
       case IntakeValidation => 20
       case RecordCollection => 19
       case PolicyRetrieval => 18
       case FreshnessChecks => 17
       case PolicyDecision => 16
       case LlmRecommendation => 15
       case HumanInterrupt => 14
       case OutcomeVerification => 8
       case AuditClosure => 2
       case BlockedClosure => 1
       case IdempotentExecution => 0)
    case Retrying(k, _, _) => if k < 3 then 13 - k else 10
    case Settling(_, _) => 9
    case _ => 0
  }

  lemma RankFalls(w: World, r: Uuid, input: NodeInput)
    requires r in w.threads && Runnable(w.threads[r].next)
    ensures
      var w', t := RunNode(w, r, input), w.threads[r];
      && r in w'.threads && Rank(w'.threads[r].next) < Rank(t.next)
      && w'.threads[r].state.approval == t.state.approval
      && !w'.threads[r].next.Waiting? && !w'.threads[r].next.Done?
  {
    hide WithEvent, WithReceipt, Policy.Decide, CollectRecords, CheckClaims, ActionFor, Answer, AfterExecute, Status;
  }

  /** The graph runs on until it pauses or ends. */
  function Drive(w: World, r: Uuid, input: NodeInput): World
    requires r in w.threads
    decreases Rank(w.threads[r].next)
  {
    if Runnable(w.threads[r].next) then
      RankFalls(w, r, input);
      Drive(RunNode(w, r, input), r, input)
    else w
  }

  /** All that an attempt takes from outside. */
  function AttemptInput(effectIds: EffectIds): NodeInput {
    NodeInput([], Recommendation(PlaceHold, "", [], []), 0, 0, 0, effectIds)
  }

  /** The execution node from its first attempt to the end of its loop. */
  function Attempts(w: World, r: Uuid, effectIds: EffectIds): World
    requires r in w.threads
    decreases Rank(w.threads[r].next)
  {
    if w.threads[r].next.Retrying? then
      RankFalls(w, r, AttemptInput(effectIds));
      Attempts(Attempt(w, r, IdAt(effectIds, w.threads[r].next.attempt)), r, effectIds)
    else w
  }

  function Execute(w: World, r: Uuid, effectIds: EffectIds): World
    requires r in w.threads
  {
    var w1 := Attempts(w, r, effectIds);
    if r in w1.threads && w1.threads[r].next.Settling? then Settle(w1, r) else w1
  }

  lemma {:induction false} DriveThroughAttempts(w: World, r: Uuid, input: NodeInput)
    requires r in w.threads
    ensures r in Attempts(w, r, input.effectIds).threads
    ensures Drive(Attempts(w, r, input.effectIds), r, input) == Drive(w, r, input)
    decreases Rank(w.threads[r].next)
  {
    if w.threads[r].next.Retrying? {
      RankFalls(w, r, input);
      hide Attempt;
      DriveThroughAttempts(Attempt(w, r, IdAt(input.effectIds, w.threads[r].next.attempt)), r, input);
    }
  }

  /** Driving on after the execution node is driving through it. */
  lemma DriveThroughExecute(w: World, r: Uuid, input: NodeInput)
    requires r in w.threads
    ensures r in Execute(w, r, input.effectIds).threads
    ensures Drive(Execute(w, r, input.effectIds), r, input) == Drive(w, r, input)
  {
    hide Settle, Attempt;
    DriveThroughAttempts(w, r, input);
    var w1 := Attempts(w, r, input.effectIds);
    if w1.threads[r].next.Settling? {
      RankFalls(w1, r, input);
    }
  }

  // ----- Driving, one node at a time -----

  lemma DriveOne(w: World, r: Uuid, input: NodeInput)
    requires r in w.threads && Runnable(w.threads[r].next)
    ensures r in RunNode(w, r, input).threads
    ensures Drive(w, r, input) == Drive(RunNode(w, r, input), r, input)
  {
    RankFalls(w, r, input);
    hide RunNode;
  }

  lemma DriveStops(w: World, r: Uuid, input: NodeInput)
    requires r in w.threads && !Runnable(w.threads[r].next)
    ensures Drive(w, r, input) == w
  {
  }

  // ----- Driving is running -----

  lemma {:induction false} RunAppend(w: World, a: seq<Step>, b: seq<Step>)
    ensures Run(w, a + b) == Run(Run(w, a), b)
  {
    if b == [] {
      assert a + b == a;
    } else {
      var init := b[..|b| - 1];
      RunAppend(w, a, init);
      assert (a + b)[..|a + b| - 1] == a + init;
      assert (a + b)[|a + b| - 1] == b[|b| - 1];
    }
  }

  lemma RunOne(w: World, step: Step)
    ensures Run(w, [step]) == Act(w, step)
  {
    assert [step][..0] == [];
    assert Run(w, []) == w;
  }

  /** Some steps of the whole system lead from the one world to the other. */
  ghost predicate LeadsTo(w: World, w': World) {
    exists steps :: w' == Run(w, steps)
  }

  lemma LeadsToSelf(w: World)
    ensures LeadsTo(w, w)
  {
    assert w == Run(w, []);
  }

  lemma LeadsToTrans(a: World, b: World, c: World)
    requires LeadsTo(a, b) && LeadsTo(b, c)
    ensures LeadsTo(a, c)
  {
    var first :| b == Run(a, first);
    var second :| c == Run(b, second);
    RunAppend(a, first, second);
    assert c == Run(a, first + second);
  }

  lemma LeadsToStep(w: World, w': World, step: Step)
    requires LeadsTo(w, w')
    ensures LeadsTo(w, Act(w', step))
  {
    hide Act;
    var steps :| w' == Run(w, steps);
    RunOne(w', step);
    RunAppend(w, steps, [step]);
    assert Act(w', step) == Run(w, steps + [step]);
  }

  lemma {:induction false} DriveLeads(w0: World, w: World, r: Uuid, input: NodeInput)
    requires LeadsTo(w0, w) && r in w.threads
    ensures LeadsTo(w0, Drive(w, r, input))
    decreases Rank(w.threads[r].next)
  {
    hide LeadsTo;
    if Runnable(w.threads[r].next) {
      RankFalls(w, r, input);
      assert Act(w, NodeStep(r, input)) == RunNode(w, r, input);
      LeadsToStep(w0, w, NodeStep(r, input));
      hide RunNode, Act;
      DriveLeads(w0, RunNode(w, r, input), r, input);
    }
  }

  lemma {:induction false} DriveEnds(w: World, r: Uuid, input: NodeInput)
    requires r in w.threads
    ensures
      var w' := Drive(w, r, input);
      && r in w'.threads && !Runnable(w'.threads[r].next)
      && w'.threads[r].state.approval == w.threads[r].state.approval
      && (!w.threads[r].next.Waiting? && !w.threads[r].next.Done? ==>
            !w'.threads[r].next.Waiting? && !w'.threads[r].next.Done?)
    decreases Rank(w.threads[r].next)
  {
    if Runnable(w.threads[r].next) {
      RankFalls(w, r, input);
      hide RunNode;
      DriveEnds(RunNode(w, r, input), r, input);
    }
  }

  // ----- The service calls -----

  /** start_run once the request is granted. */
  function StartCall(w: World, r: Uuid, caseId: Uuid, tenant: string, replayOf: Option<Uuid>, input: NodeInput): World
    requires StartError(w, caseId, tenant).None?
  {
    var w1 := Drive(BeginRun(w, r, caseId, tenant, replayOf), r, input);
    if r in w1.threads then Record(w1, r, input.recordedAt) else w1
  }

  /** approve once the request is granted. */
  function ApproveCall(w: World, r: Uuid, approval: Approval, input: NodeInput): World
    requires r in w.threads
  {
    var w1 := Drive(Resume(w, r, approval), r, input);
    if r in w1.threads then Record(w1, r, input.recordedAt) else w1
  }

  /** replay once the request is granted: the note, then a start. */
  function ReplayCall(w: World, original: Uuid, r: Uuid, tenant: string, reason: string, input: NodeInput): World
    requires AuthorizationError(w, original, tenant).None?
  {
    var noted := Emit(w, original, ReplayRequested(reason));
    var caseId := w.repo.runs[original].caseId;
    if StartError(noted, caseId, tenant).None? then StartCall(noted, r, caseId, tenant, Some(original), input)
        else noted
  }

  /** From a run just begun, the call leads to a pause or to a blocked end. */
  lemma BegunCall(w0: World, w: World, r: Uuid, input: NodeInput)
    requires Inv(w0) && LeadsTo(w0, w) && r in w.threads && w.threads[r].state.approval.None?
    ensures
      var w1 := Drive(w, r, input);
      && r in w1.threads
      && (!w.threads[r].next.Waiting? && !w.threads[r].next.Done? ==>
          w1.threads[r].next.Suspended? || w1.threads[r].next.Ended?)
      && var w2 := Record(w1, r, input.recordedAt);
         && Inv(w2) && LeadsTo(w0, w2) && AtRest(w2, r) && r in w2.repo.runs
         && w2.repo.runs[r].status in {AwaitingApproval, Blocked} && !HasEffect(w2, r)
  {
    hide Inv, RunOk, LeadsTo, Record;
    DriveEnds(w, r, input);
    DriveLeads(w0, w, r, input);
    Recording(w0, Drive(w, r, input), r, input.recordedAt);
    NotRaised(w0, Drive(w, r, input), r);
  }

  /** After a resumption the call leads to an end, completed exactly if the effect is on the
      ledger. */
  lemma ResumedCall(w0: World, w: World, r: Uuid, input: NodeInput)
    requires Inv(w0) && LeadsTo(w0, w) && r in w.threads && w.threads[r].state.approval.Some?
    ensures
      var w1 := Drive(w, r, input);
      && r in w1.threads
      && (!w.threads[r].next.Waiting? && !w.threads[r].next.Done? ==>
          w1.threads[r].next.Suspended? || w1.threads[r].next.Ended?)
      && var w2 := Record(w1, r, input.recordedAt);
         && Inv(w2) && LeadsTo(w0, w2) && AtRest(w2, r) && r in w2.repo.runs
         && w2.repo.runs[r].status in {Completed, Blocked}
         && (w2.repo.runs[r].status == Completed <==> HasEffect(w2, r))
  {
    hide Inv, RunOk, LeadsTo, Record;
    DriveEnds(w, r, input);
    DriveLeads(w0, w, r, input);
    Recording(w0, Drive(w, r, input), r, input.recordedAt);
    NotRaised(w0, Drive(w, r, input), r);
  }

  lemma NotRaised(w0: World, w: World, r: Uuid)
    requires Inv(w0) && LeadsTo(w0, w) && r in w.threads && !Runnable(w.threads[r].next)
    ensures w.threads[r].next in {Suspended, Waiting, Ended, Done}
  {
    hide Inv, LeadsTo, Scan, KeyFor, Grounded, AuditOk, EntryTraced;
    LeadsToKeeps(w0, w);
    RunIsOk(w, r);
  }

  lemma Recording(w0: World, w1: World, r: Uuid, now: int)
    requires Inv(w0) && LeadsTo(w0, w1) && r in w1.threads && !Runnable(w1.threads[r].next)
    ensures
      var w2 := Record(w1, r, now);
      && Inv(w2) && LeadsTo(w0, w2) && AtRest(w2, r) && r in w2.repo.runs
      && (w1.threads[r].state.approval.None? ==>
            w2.repo.runs[r].status in {AwaitingApproval, Blocked} && !HasEffect(w2, r))
      && (w1.threads[r].state.approval.Some? ==> w2.repo.runs[r].status in {Completed, Blocked})
      && (w1.threads[r].state.approval.Some? ==> (w2.repo.runs[r].status == Completed <==> HasEffect(w2, r)))
  {
    hide Inv, RunOk;
    var w2 := Record(w1, r, now);
    assert w2 == Act(w1, RecordOutcome(r, now));
    LeadsToStep(w0, w1, RecordOutcome(r, now));
    LeadsToKeeps(w0, w1);
    LeadsToKeeps(w0, w2);
    RunIsOk(w1, r);
    assert r in w2.threads;
    RunIsOk(w2, r);
    RunOkKnown(w2, r);
    RecordedRest(w1, r, now);
    RestOutcome(w2, r);
  }

  lemma LeadsToKeeps(w0: World, w: World)
    requires Inv(w0) && LeadsTo(w0, w)
    ensures Inv(w)
  {
    hide Inv, Run;
    var steps :| w == Run(w0, steps);
    RunKeepsInv(w0, steps);
  }

  lemma RecordedRest(w: World, r: Uuid, now: int)
    requires RunOk(w, r) && !Runnable(w.threads[r].next)
    ensures AtRest(Record(w, r, now), r) && Record(w, r, now).threads[r].state == w.threads[r].state
  {
    hide Scan, KeyFor, Grounded, AuditOk, EntryTraced;
  }

  lemma RestOutcome(w: World, r: Uuid)
    requires RunOk(w, r) && AtRest(w, r)
    ensures
      if w.threads[r].state.approval.None? then w.repo.runs[r].status in {AwaitingApproval, Blocked} && !HasEffect(w, r)
      else w.repo.runs[r].status in {Completed, Blocked} && (w.repo.runs[r].status == Completed <==> HasEffect(w, r))
  {
    hide Scan, KeyFor, Grounded, AuditOk;
  }

  /** A start outcome: the new run rests, awaiting approval or blocked, without an effect. */
  ghost predicate Started(w: World, w': World, r: Uuid) {
    && Inv(w') && LeadsTo(w, w') && AtRest(w', r) && r in w'.repo.runs
    && w'.repo.runs[r].status in {AwaitingApproval, Blocked} && !HasEffect(w', r)
  }

  /** What a start does, from a first run or a replay alike. */
  lemma StartOutcome(w: World, r: Uuid, caseId: Uuid, tenant: string, replayOf: Option<Uuid>, input: NodeInput)
    requires Inv(w) && r !in w.repo.runs && StartError(w, caseId, tenant).None?
    requires replayOf.Some? ==>
      replayOf.value in w.repo.runs && w.repo.runs[replayOf.value].caseId == caseId
      && w.repo.runs[replayOf.value].tenantId == tenant
    ensures
      var w1 := Drive(BeginRun(w, r, caseId, tenant, replayOf), r, input);
      var w2 := StartCall(w, r, caseId, tenant, replayOf, input);
      && r in w1.threads && (w1.threads[r].next.Suspended? || w1.threads[r].next.Ended?)
      && Inv(w2) && AtRest(w2, r) && r in w2.repo.runs && w2.repo.runs[r].status in {AwaitingApproval, Blocked}
  {
    hide Inv, LeadsTo, Drive, Record, HasEffect, AtRest;
    BeginRunKeeps(w, r, caseId, tenant, replayOf);
    var w1 := BeginRun(w, r, caseId, tenant, replayOf);
    LeadsToSelf(w1);
    BegunCall(w1, w1, r, input);
  }

  /** Every start_run that is granted leaves the new run awaiting approval or blocked, with no
      effect, and is some run of the system. */
  lemma StartCallOutcome(w: World, r: Uuid, caseId: Uuid, tenant: string, input: NodeInput)
    requires Inv(w) && r !in w.repo.runs && StartError(w, caseId, tenant).None?
    ensures Started(w, StartCall(w, r, caseId, tenant, None, input), r)
  {
    hide Inv, LeadsTo, Drive, Record, HasEffect, AtRest;
    var w1 := BeginRun(w, r, caseId, tenant, None);
    assert w1 == Act(w, StartRun(r, caseId, tenant));
    LeadsToSelf(w);
    LeadsToStep(w, w, StartRun(r, caseId, tenant));
    BegunCall(w, w1, r, input);
  }

  /** Likewise for a granted replay, whose start is never refused. */
  lemma ReplayCallOutcome(w: World, original: Uuid, r: Uuid, tenant: string, reason: string, input: NodeInput)
    requires Inv(w) && r !in w.repo.runs && AuthorizationError(w, original, tenant).None?
    ensures StartError(Emit(w, original, ReplayRequested(reason)), w.repo.runs[original].caseId, tenant).None?
    ensures Started(w, ReplayCall(w, original, r, tenant, reason, input), r)
  {
    hide Inv, LeadsTo, Drive, Record, HasEffect, AtRest;
    ReplayStarts(w, original, tenant, reason);
    var noted := Emit(w, original, ReplayRequested(reason));
    var w1 := BeginRun(noted, r, w.repo.runs[original].caseId, tenant, Some(original));
    assert w1 == Act(w, ReplayRun(original, r, tenant, reason));
    LeadsToSelf(w);
    LeadsToStep(w, w, ReplayRun(original, r, tenant, reason));
    BegunCall(w, w1, r, input);
  }

  lemma WaitingResumes(w: World, r: Uuid, approval: Approval)
    requires RunOk(w, r) && AtRest(w, r) && w.repo.runs[r].status == AwaitingApproval
    ensures w.threads[r].next.Waiting?
    ensures
      && r in Resume(w, r, approval).threads
      && var t := Resume(w, r, approval).threads[r];
         t.state.approval.Some? && t.next in {Retrying(1, None, None), Ready(BlockedClosure)}
  {
    hide Scan, KeyFor, Grounded, AuditOk, WithEvent, WithApproval;
  }

  /** Every approve that is granted ends the run: completed if and only if its effect is on
      the ledger, blocked otherwise. */
  lemma ApproveCallOutcome(w: World, r: Uuid, approval: Approval, tenant: string, input: NodeInput)
    requires Inv(w) && ApprovalError(w, r, tenant).None? && AtRest(w, r)
    ensures r in Resume(w, r, approval).threads
    ensures
      var w1 := Drive(Resume(w, r, approval), r, input);
      var w' := ApproveCall(w, r, approval, input);
      && r in w1.threads && (w1.threads[r].next.Suspended? || w1.threads[r].next.Ended?)
      && Inv(w') && LeadsTo(w, w') && AtRest(w', r) && r in w'.repo.runs
      && w'.repo.runs[r].status in {Completed, Blocked}
      && (w'.repo.runs[r].status == Completed <==> HasEffect(w', r))
  {
    hide Inv, LeadsTo, Drive, Record, HasEffect, RunOk, Resume;
    RunIsOk(w, r);
    WaitingResumes(w, r, approval);
    assert Resume(w, r, approval) == Act(w, Approve(r, approval, tenant));
    LeadsToSelf(w);
    LeadsToStep(w, w, Approve(r, approval, tenant));
    ResumedCall(w, Resume(w, r, approval), r, input);
  }
}
