/** What the steps from outside bring about, told by the history alone: which cases and runs
    were let in and as what, what the tools were set to, what a cut-off undoes. */
module Steps {
  import opened Domain
  import opened Gateway
  import opened Repository
  import opened Protocol
  import opened Invariant
  import opened Preservation
  import opened System
  import opened Theorems
  import Policy

  // ----- What a step of one run leaves -----

  ghost predicate Apart(w: World, w': World) {
    && w'.repo.cases == w.repo.cases && w'.tools.faults == w.tools.faults && w'.tools.overrides == w.tools.overrides
  }

  /** What a run was admitted as. */
  ghost predicate Same(run: RunRecord, run': RunRecord) {
    && run'.caseId == run.caseId && run'.tenantId == run.tenantId
    && run'.isPublicDemo == run.isPublicDemo && run'.replayOf == run.replayOf
  }

  ghost predicate OneMoves(w: World, w': World, r: Uuid) {
    && Apart(w, w') && w'.repo.runs == w.repo.runs
    && r in w'.threads && w'.threads == w.threads[r := w'.threads[r]]
  }

  ghost predicate SameRuns(w: World, w': World) {
    && w'.repo.runs.Keys == w.repo.runs.Keys
    && forall r | r in w.repo.runs :: Same(w.repo.runs[r], w'.repo.runs[r])
  }

  lemma GotoIsApart(w: World, r: Uuid, pc: Pc, s: WorkflowState)
    requires r in w.threads
    ensures OneMoves(w, Goto(w, r, pc, s), r)
  {
  }

  lemma StayIsApart(w: World, r: Uuid)
    requires r in w.threads
    ensures OneMoves(w, w, r)
  {
    assert w.threads == w.threads[r := w.threads[r]];
  }

  lemma NoteIsApart(w: World, r: Uuid, e: Event, pc: Pc, s: WorkflowState)
    requires r in w.threads
    ensures r in Emit(w, r, e).threads && OneMoves(w, Goto(Emit(w, r, e), r, pc, s), r)
  {
  }

  lemma AttemptIsApart(w: World, r: Uuid, id: Uuid)
    requires r in w.threads && w.threads[r].next.Retrying?
    ensures OneMoves(w, Attempt(w, r, id), r)
  {
    hide Answer, Status;
  }

  lemma SettleIsApart(w: World, r: Uuid)
    requires r in w.threads && w.threads[r].next.Settling?
    ensures OneMoves(w, Settle(w, r), r)
  {
  }

  lemma NodeIsApart(w: World, r: Uuid, input: NodeInput)
    requires r in w.threads
    ensures OneMoves(w, RunNode(w, r, input), r)
  {
    hide Policy.Decide, CollectRecords, CheckClaims, ActionFor, Emit, Goto, Attempt, Settle, OneMoves;
    forall pc, s ensures OneMoves(w, Goto(w, r, pc, s), r) {
      GotoIsApart(w, r, pc, s);
    }
    forall e, pc, s ensures r in Emit(w, r, e).threads && OneMoves(w, Goto(Emit(w, r, e), r, pc, s), r) {
      NoteIsApart(w, r, e, pc, s);
    }
    match w.threads[r].next
    case Retrying(k, _, _) => AttemptIsApart(w, r, IdAt(input.effectIds, k));
    case Settling(_, _) => SettleIsApart(w, r);
    case _ => StayIsApart(w, r);
  }

  lemma ResumeIsApart(w: World, r: Uuid, approval: Approval)
    requires r in w.threads
    ensures Resume(w, r, approval).repo.runs == w.repo.runs
  {
  }

  lemma RestartIsApart(w: World, r: Uuid)
    requires r in w.threads
    ensures Restart(w, r).repo == w.repo
  {
  }

  lemma RecordIsApart(w: World, r: Uuid, now: int)
    requires r in w.threads
    ensures Apart(w, Record(w, r, now)) && SameRuns(w, Record(w, r, now))
  {
  }

  // ----- Cases -----

  /** An actor opens the case for its own tenant. */
  predicate OpensCase(step: Step, c: Uuid) {
    step.OpenCase? && step.caseId == c && step.request.tenantId == step.tenant
  }

  lemma ActCases(w: World, step: Step, c: Uuid)
    ensures
      Find(Act(w, step).repo.cases, c) ==
      if c !in w.repo.cases && OpensCase(step, c) then Some(CaseState(step.request, step.isPublic))
      else Find(w.repo.cases, c)
  {
    hide RunNode, Record;
    match step
    case NodeStep(r, input) => if r in w.threads { NodeIsApart(w, r, input); }
    case RecordOutcome(r, now) => if r in w.threads { RecordIsApart(w, r, now); }
    case _ =>
  }

  /** The n-th step is the first that opens the case. */
  ghost predicate FirstToOpen(steps: seq<Step>, n: nat, c: Uuid) {
    n < |steps| && OpensCase(steps[n], c) && forall m | 0 <= m < n :: !OpensCase(steps[m], c)
  }

  /** A case is there exactly if an actor of its tenant has opened it, and it holds the request
      and the visibility that the first one gave. */
  lemma {:induction false} CasesWereOpened(steps: seq<Step>, c: Uuid)
    ensures
      var cases := Run(START, steps).repo.cases;
      && (c in cases <==> exists n: nat :: FirstToOpen(steps, n, c))
      && forall n: nat | FirstToOpen(steps, n, c) ::
           c in cases && cases[c].request == steps[n].request && cases[c].isPublicDemo == steps[n].isPublic
  {
    hide Act;
    if steps != [] {
      var init, last := steps[..|steps| - 1], steps[|steps| - 1];
      CasesWereOpened(init, c);
      ActCases(Run(START, init), last, c);
      forall n: nat | n < |init| ensures FirstToOpen(steps, n, c) <==> FirstToOpen(init, n, c) {
      }
      var before := Run(START, init).repo.cases;
      if c in before {
        var n: nat :| FirstToOpen(init, n, c);
        assert !FirstToOpen(steps, |init|, c);
      } else {
        NothingOpened(init, |init|, c);
        assert FirstToOpen(steps, |init|, c) <==> OpensCase(last, c);
      }
    }
  }

  lemma {:induction false} NothingOpened(steps: seq<Step>, k: nat, c: Uuid)
    requires k <= |steps| && forall n: nat :: !FirstToOpen(steps, n, c)
    ensures forall m | 0 <= m < k :: !OpensCase(steps[m], c)
  {
    if k > 0 {
      NothingOpened(steps, k - 1, c);
      assert !FirstToOpen(steps, k - 1, c);
    }
  }

  // ----- Runs -----

  /** The step starts or replays a run under a new identifier, for an actor of the tenant that
      owns the case and, for a replay, the original. */
  ghost predicate Admits(w: World, step: Step, r: Uuid) {
    && r !in w.repo.runs
    && match step
       case StartRun(q, caseId, tenant) =>
         q == r && caseId in w.repo.cases && w.repo.cases[caseId].request.tenantId == tenant
       case ReplayRun(original, q, tenant, _) =>
         && q == r && original in w.repo.runs && w.repo.runs[original].tenantId == tenant
         && w.repo.runs[original].caseId in w.repo.cases
         && w.repo.cases[w.repo.runs[original].caseId].request.tenantId == tenant
       case _ => false
  }

  /** The run is of the case named, or of the original's, and of its tenant and visibility, and
      it remembers the original. */
  ghost predicate AdmittedAs(w: World, step: Step, run: RunRecord) {
    && (step.StartRun? ==> run.caseId == step.caseId && run.replayOf.None?)
    && (step.ReplayRun? ==>
          && run.replayOf == Some(step.original)
          && step.original in w.repo.runs && run.caseId == w.repo.runs[step.original].caseId)
    && run.caseId in w.repo.cases && run.tenantId == w.repo.cases[run.caseId].request.tenantId
    && run.isPublicDemo == w.repo.cases[run.caseId].isPublicDemo
  }

  lemma BeginAdmits(w: World, q: Uuid, caseId: Uuid, tenant: string, replayOf: Option<Uuid>)
    requires StartError(w, caseId, tenant).None?
    ensures
      var runs, c := BeginRun(w, q, caseId, tenant, replayOf).repo.runs, w.repo.cases[caseId];
      && q in runs && runs == w.repo.runs[q := runs[q]]
      && runs[q].caseId == caseId && runs[q].replayOf == replayOf && runs[q].tenantId == c.request.tenantId
      && runs[q].isPublicDemo == c.isPublicDemo && runs[q].status == Running && runs[q].finishedAt.None?
  {
  }

  lemma ActRuns(w: World, step: Step, r: Uuid)
    ensures
      var runs := Act(w, step).repo.runs;
      if r in w.repo.runs then r in runs && Same(w.repo.runs[r], runs[r])
      else
        && (r in runs <==> Admits(w, step, r))
        && (r in runs ==> AdmittedAs(w, step, runs[r]) && runs[r].status == Running && runs[r].finishedAt.None?)
  {
    hide RunNode, Record, BeginRun, Resume, Restart;
    match step
    case StartRun(q, caseId, tenant) =>
      if StartError(w, caseId, tenant).None? { BeginAdmits(w, q, caseId, tenant, None); }
    case ReplayRun(original, q, tenant, reason) =>
      if AuthorizationError(w, original, tenant).None? {
        var noted := Emit(w, original, ReplayRequested(reason));
        var caseId := w.repo.runs[original].caseId;
        if StartError(noted, caseId, tenant).None? { BeginAdmits(noted, q, caseId, tenant, Some(original)); }
      }
    case Approve(q, approval, _) => if q in w.threads { ResumeIsApart(w, q, approval); }
    case CutOff(q) => if q in w.threads { RestartIsApart(w, q); }
    case NodeStep(q, input) => if q in w.threads { NodeIsApart(w, q, input); }
    case RecordOutcome(q, now) => if q in w.threads { RecordIsApart(w, q, now); }
    case _ =>
  }

  /** A run is there exactly if one step of the history was granted it, and it stays what that
      step made it. */
  lemma {:induction false} RunsWereAdmitted(steps: seq<Step>, r: Uuid)
    ensures
      var runs := Run(START, steps).repo.runs;
      && (r in runs <==> exists n | 0 <= n < |steps| :: Admits(Run(START, steps[..n]), steps[n], r))
      && (r in runs ==>
            exists n | 0 <= n < |steps| ::
              && Admits(Run(START, steps[..n]), steps[n], r)
              && AdmittedAs(Run(START, steps[..n]), steps[n], runs[r]))
  {
    hide Act, Admits, AdmittedAs;
    if steps != [] {
      var init, last := steps[..|steps| - 1], steps[|steps| - 1];
      var before, runs := Run(START, init), Run(START, steps).repo.runs;
      RunsWereAdmitted(init, r);
      ActRuns(before, last, r);
      forall n | 0 <= n < |init| ensures steps[..n] == init[..n] {
      }
      if r in before.repo.runs {
        var n :| 0 <= n < |init| && Admits(Run(START, init[..n]), init[n], r)
            && AdmittedAs(Run(START, init[..n]), init[n], before.repo.runs[r]);
        StaysAdmitted(Run(START, init[..n]), init[n], before.repo.runs[r], runs[r]);
        assert Admits(Run(START, steps[..n]), steps[n], r);
      } else if r in runs {
        assert Admits(Run(START, steps[..|init|]), steps[|init|], r);
      }
    }
  }

  lemma StaysAdmitted(w: World, step: Step, run: RunRecord, run': RunRecord)
    requires AdmittedAs(w, step, run) && Same(run, run')
    ensures AdmittedAs(w, step, run')
  {
  }

  // ----- What the tools were set to -----

  predicate SetsFault(step: Step, transferId: string) {
    step.SetFault? && step.transferId == transferId
  }

  predicate SetsRecords(step: Step, transferId: string) {
    step.SetRecords? && step.transferId == transferId
  }

  lemma ActSettings(w: World, step: Step, transferId: string)
    ensures
      var t, t' := w.tools, Act(w, step).tools;
      && Find(t'.faults, transferId) ==
         (if SetsFault(step, transferId) then Some(step.fault) else Find(t.faults, transferId))
      && Find(t'.overrides, transferId) ==
         (if SetsRecords(step, transferId) then Some(step.records) else Find(t.overrides, transferId))
  {
    hide RunNode, Record;
    match step
    case NodeStep(r, input) => if r in w.threads { NodeIsApart(w, r, input); }
    case RecordOutcome(r, now) => if r in w.threads { RecordIsApart(w, r, now); }
    case _ =>
  }

  /** The n-th step is the last that sets the fault, or the records, of the transfer. */
  ghost predicate LastFault(steps: seq<Step>, n: nat, transferId: string) {
    n < |steps| && SetsFault(steps[n], transferId) && forall m | n < m < |steps| :: !SetsFault(steps[m], transferId)
  }

  ghost predicate LastRecords(steps: seq<Step>, n: nat, transferId: string) {
    && n < |steps| && SetsRecords(steps[n], transferId)
    && forall m | n < m < |steps| :: !SetsRecords(steps[m], transferId)
  }

  /** The fault a tool call meets and the records a collection gives are the ones set last for
      the transfer, whatever else has happened, and none if none was ever set. */
  lemma {:induction false} SettingsAreTheLast(steps: seq<Step>, transferId: string)
    ensures
      var faults := Run(START, steps).tools.faults;
      && (transferId in faults ==> exists n: nat :: LastFault(steps, n, transferId))
      && forall n: nat | LastFault(steps, n, transferId) :: transferId in faults && faults[transferId] == steps[n].fault
    ensures
      var overrides := Run(START, steps).tools.overrides;
      && (transferId in overrides ==> exists n: nat :: LastRecords(steps, n, transferId))
      && forall n: nat | LastRecords(steps, n, transferId) ::
           transferId in overrides && overrides[transferId] == steps[n].records
  {
    if steps != [] {
      var init, last := steps[..|steps| - 1], steps[|steps| - 1];
      SettingsAreTheLast(init, transferId);
      ActSettings(Run(START, init), last, transferId);
      LastMoves(init, last, transferId);
      hide Act, LastFault, LastRecords;
      assert steps == init + [last];
      assert LastFault(steps, |init|, transferId) <==> SetsFault(last, transferId);
      assert LastRecords(steps, |init|, transferId) <==> SetsRecords(last, transferId);
      if n: nat :| LastFault(init, n, transferId) {
        assert !SetsFault(last, transferId) ==> LastFault(steps, n, transferId);
      }
      if n: nat :| LastRecords(init, n, transferId) {
        assert !SetsRecords(last, transferId) ==> LastRecords(steps, n, transferId);
      }
    }
  }

  lemma LastMoves(init: seq<Step>, last: Step, transferId: string)
    ensures
      var steps := init + [last];
      && (forall n: nat :: LastFault(steps, n, transferId) <==>
            if SetsFault(last, transferId) then n == |init| else LastFault(init, n, transferId))
      && (forall n: nat :: LastRecords(steps, n, transferId) <==>
            if SetsRecords(last, transferId) then n == |init| else LastRecords(init, n, transferId))
  {
    var steps := init + [last];
    assert steps[|init|] == last && forall m | 0 <= m < |init| :: steps[m] == init[m];
    forall n: nat ensures LastFault(steps, n, transferId) <==>
        if SetsFault(last, transferId) then n == |init| else LastFault(init, n, transferId) {
      assert LastFault(init, n, transferId) && !SetsFault(last, transferId) ==> LastFault(steps, n, transferId);
    }
    forall n: nat ensures LastRecords(steps, n, transferId) <==>
        if SetsRecords(last, transferId) then n == |init| else LastRecords(init, n, transferId) {
    }
  }

  // ----- Replay notes -----

  ghost predicate Noted(w: World, r: Uuid, reason: string) {
    ReplayRequested(reason) in GetOr(w.repo.events, r, [])
  }

  /** The step is a replay of the run with this reason, by an actor of its tenant and under a
      new identifier. */
  predicate AsksReplay(w: World, step: Step, r: Uuid, reason: string) {
    && step.ReplayRun? && step.original == r && step.reason == reason && step.runId !in w.repo.runs
    && r in w.repo.runs && w.repo.runs[r].tenantId == step.tenant
  }

  lemma EmitNotes(w: World, q: Uuid, e: Event, r: Uuid, reason: string)
    ensures Noted(Emit(w, q, e), r, reason) <==> Noted(w, r, reason) || (q == r && e == ReplayRequested(reason))
  {
  }

  lemma GotoNotes(w: World, q: Uuid, pc: Pc, s: WorkflowState, r: Uuid, reason: string)
    requires q in w.threads
    ensures Noted(Goto(w, q, pc, s), r, reason) == Noted(w, r, reason)
  {
  }

  lemma AttemptNotes(w: World, q: Uuid, id: Uuid, r: Uuid, reason: string)
    requires q in w.threads && w.threads[q].next.Retrying?
    ensures Noted(Attempt(w, q, id), r, reason) == Noted(w, r, reason)
  {
    hide Answer, AfterExecute, Status;
  }

  lemma SettleNotes(w: World, q: Uuid, r: Uuid, reason: string)
    requires q in w.threads && w.threads[q].next.Settling?
    ensures Noted(Settle(w, q), r, reason) == Noted(w, r, reason)
  {
  }

  lemma ResumeNotes(w: World, q: Uuid, approval: Approval, r: Uuid, reason: string)
    requires q in w.threads
    ensures Noted(Resume(w, q, approval), r, reason) == Noted(w, r, reason)
  {
    var s := w.threads[q].state;
    if s.proposedAction.Some? {
      var action := s.proposedAction.value;
      var paused := Emit(w, q, PauseEvent(action));
      var filed := paused.(repo := WithApproval(paused.repo, q, approval));
      var note := ApprovalRecorded(approval.approved, approval.actorId);
      EmitNotes(w, q, PauseEvent(action), r, reason);
      FilingNotes(paused, q, approval, r, reason);
      EmitNotes(filed, q, note, r, reason);
      assert q in paused.threads && q in Emit(filed, q, note).threads;
      hide Noted, Emit;
      var next := Resume(w, q, approval).threads[q];
      if approval.proposedActionHash != Digest(action) {
        GotoNotes(paused, q, next.next, next.state, r, reason);
        assert Resume(w, q, approval) == Goto(paused, q, next.next, next.state);
      } else {
        GotoNotes(Emit(filed, q, note), q, next.next, next.state, r, reason);
        assert Resume(w, q, approval) == Goto(Emit(filed, q, note), q, next.next, next.state);
      }
    }
  }

  /** An approval is not a note. */
  lemma FilingNotes(w: World, q: Uuid, approval: Approval, r: Uuid, reason: string)
    ensures Noted(w.(repo := WithApproval(w.repo, q, approval)), r, reason) == Noted(w, r, reason)
  {
  }

  lemma NodeNotes(w: World, q: Uuid, input: NodeInput, r: Uuid, reason: string)
    requires q in w.threads
    ensures Noted(RunNode(w, q, input), r, reason) == Noted(w, r, reason)
  {
    hide Policy.Decide, CollectRecords, CheckClaims, ActionFor, Emit, Goto, Attempt, Settle, Noted;
    forall w1: World, pc, s | q in w1.threads
      ensures Noted(Goto(w1, q, pc, s), r, reason) == Noted(w1, r, reason)
    {
      GotoNotes(w1, q, pc, s, r, reason);
    }
    forall e
      ensures q in Emit(w, q, e).threads
      ensures Noted(Emit(w, q, e), r, reason) <==> Noted(w, r, reason) || (q == r && e == ReplayRequested(reason))
    {
      NoteIsApart(w, q, e, Done, w.threads[q].state);
      EmitNotes(w, q, e, r, reason);
    }
    match w.threads[q].next
    case Retrying(k, _, _) => AttemptNotes(w, q, IdAt(input.effectIds, k), r, reason);
    case Settling(_, _) => SettleNotes(w, q, r, reason);
    case _ =>
  }

  lemma ActNotes(w: World, step: Step, r: Uuid, reason: string)
    ensures Noted(Act(w, step), r, reason) <==> Noted(w, r, reason) || AsksReplay(w, step, r, reason)
  {
    hide RunNode, Resume;
    match step
    case NodeStep(q, input) => if q in w.threads { NodeNotes(w, q, input, r, reason); }
    case Approve(q, approval, _) => if q in w.threads { ResumeNotes(w, q, approval, r, reason); }
    case _ =>
  }

  /** The n-th step of the history is such a replay. */
  ghost predicate AskedAt(steps: seq<Step>, n: nat, r: Uuid, reason: string) {
    n < |steps| && AsksReplay(Run(START, steps[..n]), steps[n], r, reason)
  }

  lemma AskedBefore(init: seq<Step>, last: Step, n: nat, r: Uuid, reason: string)
    ensures
      AskedAt(init + [last], n, r, reason) <==>
      if n < |init| then AskedAt(init, n, r, reason)
      else n == |init| && AsksReplay(Run(START, init), last, r, reason)
  {
    hide Run, AsksReplay;
    if n <= |init| {
      assert (init + [last])[..n] == init[..n];
      assert init[..|init|] == init;
    }
  }

  /** A replay note stands in the log of a run exactly if a replay with that reason was granted
      to an actor of its tenant. */
  lemma {:induction false} NotesWereReplays(steps: seq<Step>, r: Uuid, reason: string)
    ensures Noted(Run(START, steps), r, reason) <==> exists n: nat :: AskedAt(steps, n, r, reason)
  {
    if steps != [] {
      var init, last := steps[..|steps| - 1], steps[|steps| - 1];
      NotesWereReplays(init, r, reason);
      ActNotes(Run(START, init), last, r, reason);
      forall n: nat ensures AskedAt(steps, n, r, reason) <==>
          if n < |init| then AskedAt(init, n, r, reason)
          else n == |init| && AsksReplay(Run(START, init), last, r, reason) {
        AskedBefore(init, last, n, r, reason);
        assert steps == init + [last];
      }
      hide Act, AsksReplay, Noted, AskedAt;
      assert AskedAt(steps, |init|, r, reason) <==> AsksReplay(Run(START, init), last, r, reason);
      if n: nat :| AskedAt(init, n, r, reason) {
        assert n < |init| ==> AskedAt(steps, n, r, reason);
      }
    }
  }

  // ----- What a cut-off undoes -----

  predicate Executing(pc: Pc) {
    pc.Retrying? || pc.Settling? || pc == Ready(OutcomeVerification)
  }

  /** The execution node of the run has this state to go back to, or the run is past it. */
  ghost predicate GoesBackTo(w: World, r: Uuid, s: WorkflowState) {
    && r in w.threads && r in w.repo.runs
    && if Executing(w.threads[r].next) then
         w.threads[r].state.(receipt := None, blockedReason := None, outcomeVerified := false, retryCount := 0,
                             currentNode := Some(HumanInterrupt)) == s
       else w.threads[r].next in {Ready(AuditClosure), Ready(BlockedClosure), Ended, Done, Raised}
  }

  lemma NodeKeepsGoal(w: World, r: Uuid, input: NodeInput, s: WorkflowState)
    requires GoesBackTo(w, r, s)
    ensures GoesBackTo(RunNode(w, r, input), r, s)
  {
    hide AfterExecute, Answer, Status;
    NodeIsApart(w, r, input);
  }

  lemma RecordKeepsGoal(w: World, q: Uuid, now: int, r: Uuid, s: WorkflowState)
    requires GoesBackTo(w, r, s) && q in w.threads
    ensures GoesBackTo(Record(w, q, now), r, s)
  {
  }

  lemma ActKeepsGoal(w: World, step: Step, r: Uuid, s: WorkflowState)
    requires GoesBackTo(w, r, s)
    ensures GoesBackTo(Act(w, step), r, s)
  {
    hide RunNode, Record;
    match step
    case NodeStep(q, input) =>
      if q == r { NodeKeepsGoal(w, r, input, s); }
      else if q in w.threads {
        NodeIsApart(w, q, input);
      }
    case RecordOutcome(q, now) => if q in w.threads { RecordKeepsGoal(w, q, now, r, s); }
    case _ =>
  }

  lemma {:induction false} RunKeepsGoal(w: World, steps: seq<Step>, r: Uuid, s: WorkflowState)
    requires GoesBackTo(w, r, s)
    ensures GoesBackTo(Run(w, steps), r, s)
  {
    hide Act, GoesBackTo;
    if steps != [] {
      RunKeepsGoal(w, steps[..|steps| - 1], r, s);
      ActKeepsGoal(Run(w, steps[..|steps| - 1]), steps[|steps| - 1], r, s);
    }
  }

  lemma TakenUp(w: World, r: Uuid, approval: Approval, tenant: string)
    requires RunOk(w, r) && w.threads[r].next.Waiting?
    requires Act(w, Approve(r, approval, tenant)).threads[r].next == Retrying(1, None, None)
    ensures
      var w1 := Act(w, Approve(r, approval, tenant));
      GoesBackTo(w1, r, w1.threads[r].state)
  {
    hide Scan, KeyFor, Grounded, AuditOk, EntryTraced;
    assert Untouched(View(w, r));
  }

  lemma CutOffGoesBack(w: World, r: Uuid, s: WorkflowState)
    requires GoesBackTo(w, r, s)
    ensures
      Act(w, CutOff(r)) ==
      if Executing(w.threads[r].next) then
        w.(threads := w.threads[r := Thread(Retrying(1, None, None), s, w.threads[r].restarts + 1)])
      else w
  {
  }

  /** Cutting off an execution, however far it has come and whatever else has happened since its
      approval was taken up, makes the run what it was at that moment, one restart more, and
      leaves everything else, the ledger and the log included, as it is; a run that is not
      executing is not changed. */
  lemma CutOffUndoes(before: seq<Step>, after: seq<Step>, r: Uuid, approval: Approval, tenant: string)
    requires r in Run(START, before).threads && Run(START, before).threads[r].next.Waiting?
    requires Act(Run(START, before), Approve(r, approval, tenant)).threads[r].next == Retrying(1, None, None)
    ensures
      var approved := Act(Run(START, before), Approve(r, approval, tenant));
      var w := Run(approved, after);
      && r in w.threads && r in approved.threads
      && Act(w, CutOff(r)) ==
         if Executing(w.threads[r].next) then
           w.(threads := w.threads[r := approved.threads[r].(restarts := w.threads[r].restarts + 1)])
         else w
  {
    hide Run, RunOk, Executing;
    ReachableRun(before, r);
    var approved := Act(Run(START, before), Approve(r, approval, tenant));
    TakenUp(Run(START, before), r, approval, tenant);
    RunKeepsGoal(approved, after, r, approved.threads[r].state);
    CutOffGoesBack(Run(approved, after), r, approved.threads[r].state);
    hide Act;
  }
}
