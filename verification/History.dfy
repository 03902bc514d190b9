/** What later steps may do to what is already there: nothing is ever taken back. */
module History {
  import opened Domain
  import opened Gateway
  import opened Repository
  import opened Protocol
  import opened Invariant
  import opened Preservation
  import opened System
  import opened Audit
  import opened Theorems

  /** Ledger entries never change, logs, approvals and receipts only grow, and what
      identifies a run stays. */
  ghost predicate Extends(w: World, w': World) {
    && (forall k | k in w.tools.effects :: k in w'.tools.effects && w'.tools.effects[k] == w.tools.effects[k])
    && (forall c | c in w.repo.cases :: c in w'.repo.cases && w'.repo.cases[c] == w.repo.cases[c])
    && (forall r | r in w.repo.runs :: r in w'.repo.runs && RunExtends(w, w', r))
  }

  ghost predicate RunExtends(w: World, w': World, r: Uuid)
    requires r in w.repo.runs && r in w'.repo.runs
  {
    && w'.repo.runs[r].caseId == w.repo.runs[r].caseId
    && w'.repo.runs[r].tenantId == w.repo.runs[r].tenantId
    && w'.repo.runs[r].replayOf == w.repo.runs[r].replayOf
    && LogsGrow(w.repo, w'.repo, r)
  }

  ghost predicate LogsGrow(p: RepoState, p': RepoState, r: Uuid) {
    && GetOr(p.events, r, []) <= GetOr(p'.events, r, [])
    && GetOr(p.approvals, r, []) <= GetOr(p'.approvals, r, [])
    && GetOr(p.receipts, r, []) <= GetOr(p'.receipts, r, [])
  }

  /** Nothing about the run has changed but for replay notes in its log. */
  ghost predicate Frozen(w: World, w': World, r: Uuid) {
    && r in w.repo.runs && r in w'.repo.runs && w'.repo.runs[r] == w.repo.runs[r]
    && r in w.threads && r in w'.threads && w'.threads[r] == w.threads[r]
    && GetOr(w'.repo.approvals, r, []) == GetOr(w.repo.approvals, r, [])
    && GetOr(w'.repo.receipts, r, []) == GetOr(w.repo.receipts, r, [])
    && Kinds(GetOr(w'.repo.events, r, [])) == Kinds(GetOr(w.repo.events, r, []))
  }

  ghost predicate DoneFrozen(w: World, w': World) {
    forall r | r in w.threads && w.threads[r].next.Done? :: Frozen(w, w', r)
  }

  // ----- One step -----

  lemma EmitGrows(w: World, r: Uuid, e: Event)
    ensures LogsGrow(w.repo, Emit(w, r, e).repo, r) && LogsGrow(w.repo, w.repo, r)
  {
  }

  lemma SettleAppends(w: World, r: Uuid)
    requires r in w.threads && w.threads[r].next.Settling?
    ensures LogsGrow(w.repo, Settle(w, r).repo, r)
  {
  }

  lemma AttemptAppends(w: World, r: Uuid, effectId: Uuid)
    requires r in w.threads && w.threads[r].next.Retrying?
    ensures LogsGrow(w.repo, Attempt(w, r, effectId).repo, r)
  {
    hide Answer, AfterExecute;
  }

  /** A node step only adds to its run's log, approvals and receipts. */
  lemma NodeAppends(w: World, r: Uuid, input: NodeInput)
    requires r in w.threads
    ensures LogsGrow(w.repo, RunNode(w, r, input).repo, r)
  {
    hide Policy.Decide, CollectRecords, CheckClaims, Answer, AfterExecute, ActionFor, LogsGrow, WithEvent;
    EmitGrows(w, r, RunClosed);
    forall e ensures LogsGrow(w.repo, Emit(w, r, e).repo, r) {
      EmitGrows(w, r, e);
    }
    if w.threads[r].next.Settling? {
      SettleAppends(w, r);
    } else if w.threads[r].next.Retrying? {
      AttemptAppends(w, r, IdAt(input.effectIds, w.threads[r].next.attempt));
    }
  }

  lemma NodeKeepsEntries(w: World, r: Uuid, input: NodeInput)
    requires Known(w, r)
    ensures
      var w' := RunNode(w, r, input);
      forall k | k in w.tools.effects :: k in w'.tools.effects && w'.tools.effects[k] == w.tools.effects[k]
  {
    hide Policy.Decide, CollectRecords, CheckClaims, ActionFor;
    if w.threads[r].next.Retrying? && w.threads[r].state.proposedAction.Some? {
      ExecuteIsPutIfAbsent(w.tools, w.threads[r].state.proposedAction.value,
          IdAt(input.effectIds, w.threads[r].next.attempt));
    }
  }

  /** A step of one run leaves every other run alone. */
  lemma OthersExtend(w: World, w': World, r: Uuid, q: Uuid)
    requires OnlyRun(w, w', r) && q != r && q in w.repo.runs
    ensures q in w'.repo.runs && RunExtends(w, w', q)
    ensures q in w.threads ==> Frozen(w, w', q)
  {
    assert Find(w'.repo.events, q) == Find(w.repo.events, q);
    assert Find(w'.repo.approvals, q) == Find(w.repo.approvals, q);
    assert Find(w'.repo.receipts, q) == Find(w.repo.receipts, q);
  }

  lemma OneRunStep(w: World, w': World, r: Uuid)
    requires w.repo.runs.Keys == w.threads.Keys && r in w.repo.runs
    requires OnlyRun(w, w', r) && LogsGrow(w.repo, w'.repo, r)
    requires w.threads[r].next.Done? ==> Frozen(w, w', r)
    requires forall k | k in w.tools.effects :: k in w'.tools.effects && w'.tools.effects[k] == w.tools.effects[k]
    ensures Extends(w, w') && DoneFrozen(w, w')
  {
    hide LogsGrow, Frozen;
    assert RunExtends(w, w', r);
    hide RunExtends;
    forall q | q in w.repo.runs ensures q in w'.repo.runs && RunExtends(w, w', q)
        && (w.threads[q].next.Done? ==> Frozen(w, w', q)) {
      if q != r {
        OthersExtend(w, w', r, q);
      }
    }
  }

  lemma SelfFrozen(w: World, r: Uuid)
    requires r in w.repo.runs && r in w.threads
    ensures Frozen(w, w, r) && LogsGrow(w.repo, w.repo, r)
  {
  }

  lemma NodeStepExtends(w: World, r: Uuid, input: NodeInput)
    requires w.repo.runs.Keys == w.threads.Keys && RunOk(w, r)
    ensures Extends(w, RunNode(w, r, input)) && DoneFrozen(w, RunNode(w, r, input))
  {
    RunOkKnown(w, r);
    SelfFrozen(w, r);
    NodeAppends(w, r, input);
    NodeKeepsEntries(w, r, input);
    assert w.threads[r].next.Done? ==> RunNode(w, r, input) == w;
    hide RunOk, RunNode;
    RunNodeKeeps(w, r, input);
    OneRunStep(w, RunNode(w, r, input), r);
  }

  lemma ResumeExtends(w: World, r: Uuid, approval: Approval)
    requires w.repo.runs.Keys == w.threads.Keys && RunOk(w, r) && w.threads[r].next == Waiting
    ensures Extends(w, Resume(w, r, approval)) && DoneFrozen(w, Resume(w, r, approval))
  {
    hide RunOk, Scan;
    RunOkKnown(w, r);
    assert LogsGrow(w.repo, Resume(w, r, approval).repo, r);
    assert Resume(w, r, approval).tools == w.tools;
    hide RunOk, Resume;
    ResumeKeeps(w, r, approval);
    OneRunStep(w, Resume(w, r, approval), r);
  }

  lemma RestartExtends(w: World, r: Uuid)
    requires w.repo.runs.Keys == w.threads.Keys && RunOk(w, r)
    ensures Extends(w, Restart(w, r)) && DoneFrozen(w, Restart(w, r))
  {
    RunOkKnown(w, r);
    SelfFrozen(w, r);
    assert LogsGrow(w.repo, Restart(w, r).repo, r);
    assert w.threads[r].next.Done? ==> Restart(w, r) == w;
    hide RunOk;
    RestartKeeps(w, r);
    OneRunStep(w, Restart(w, r), r);
  }

  lemma RecordExtends(w: World, r: Uuid, now: int)
    requires w.repo.runs.Keys == w.threads.Keys && RunOk(w, r)
    ensures Extends(w, Record(w, r, now)) && DoneFrozen(w, Record(w, r, now))
  {
    RunOkKnown(w, r);
    SelfFrozen(w, r);
    assert LogsGrow(w.repo, Record(w, r, now).repo, r);
    assert w.threads[r].next.Done? ==> Record(w, r, now) == w;
    assert Record(w, r, now).tools == w.tools;
    hide RunOk, Record;
    RecordKeeps(w, r, now);
    OneRunStep(w, Record(w, r, now), r);
  }

  lemma NoteFreezes(w: World, r: Uuid, reason: string)
    requires r in w.repo.runs && r in w.threads
    ensures
      var w' := Emit(w, r, ReplayRequested(reason));
      && Frozen(w, w', r)
      && GetOr(w'.repo.events, r, []) == GetOr(w.repo.events, r, []) + [ReplayRequested(reason)]
  {
    var log := GetOr(w.repo.events, r, []);
    assert (log + [ReplayRequested(reason)])[..|log|] == log;
    assert Kinds(log) + [] == Kinds(log);
  }

  /** A replay note changes the original's log by that note and nothing else. */
  lemma NoteExtends(w: World, r: Uuid, reason: string)
    requires w.repo.runs.Keys == w.threads.Keys && RunOk(w, r)
    ensures
      var w' := Emit(w, r, ReplayRequested(reason));
      Extends(w, w') && DoneFrozen(w, w')
  {
    RunOkKnown(w, r);
    NoteFreezes(w, r, reason);
    EmitGrows(w, r, ReplayRequested(reason));
    hide RunOk, LogsGrow, Frozen;
    NoteKeeps(w, r, reason);
    OneRunStep(w, Emit(w, r, ReplayRequested(reason)), r);
  }

  lemma GrowsExtends(w: World, w': World)
    requires w.repo.runs.Keys == w.threads.Keys && Grows(w, w')
    ensures Extends(w, w') && DoneFrozen(w, w')
  {
  }

  lemma ExtendsTrans(a: World, b: World, c: World)
    requires Extends(a, b) && DoneFrozen(a, b) && Extends(b, c) && DoneFrozen(b, c)
    ensures Extends(a, c) && DoneFrozen(a, c)
  {
    forall r | r in a.repo.runs ensures r in c.repo.runs && RunExtends(a, c, r) {
      assert RunExtends(a, b, r) && RunExtends(b, c, r);
    }
    forall r | r in a.threads && a.threads[r].next.Done? ensures Frozen(a, c, r) {
      assert Frozen(a, b, r);
    }
  }

  lemma ReplayExtends(w: World, original: Uuid, runId: Uuid, tenant: string, reason: string)
    requires Inv(w) && runId !in w.repo.runs && AuthorizationError(w, original, tenant).None?
    ensures
      var w' := Act(w, ReplayRun(original, runId, tenant, reason));
      Extends(w, w') && DoneFrozen(w, w')
  {
    hide Inv, RunOk, Extends, DoneFrozen, BeginRun, Grows, RunsOnly;
    var noted := Emit(w, original, ReplayRequested(reason));
    RunIsOk(w, original);
    ReplayStarts(w, original, tenant, reason);
    RunsAndThreads(w);
    RunsAndThreads(noted);
    NoteExtends(w, original, reason);
    BeginRunGrows(noted, runId, w.repo.runs[original].caseId, tenant, Some(original));
    GrowsExtends(noted, BeginRun(noted, runId, w.repo.runs[original].caseId, tenant, Some(original)));
    ExtendsTrans(w, noted, Act(w, ReplayRun(original, runId, tenant, reason)));
  }

  lemma RunsAndThreads(w: World)
    requires Inv(w)
    ensures w.repo.runs.Keys == w.threads.Keys && RunsOnly(w)
  {
  }

  lemma ActExtends(w: World, step: Step)
    requires Inv(w)
    ensures Extends(w, Act(w, step)) && DoneFrozen(w, Act(w, step))
  {
    hide Inv, RunOk, Extends, DoneFrozen, RunsOnly, RunNode, Resume, Restart, Record;
    RunsAndThreads(w);
    GrowsExtends(w, w);
    match step
    case OpenCase(caseId, request, tenant, isPublic) => GrowsExtends(w, Act(w, step));
    case StartRun(runId, caseId, tenant) =>
      if runId !in w.repo.runs && StartError(w, caseId, tenant).None? {
        BeginRunGrows(w, runId, caseId, tenant, None);
        GrowsExtends(w, Act(w, step));
      }
    case ReplayRun(original, runId, tenant, reason) =>
      if runId !in w.repo.runs && AuthorizationError(w, original, tenant).None? {
        ReplayExtends(w, original, runId, tenant, reason);
      }
    case SetFault(_, _) => GrowsExtends(w, Act(w, step));
    case SetRecords(_, _) => GrowsExtends(w, Act(w, step));
    case _ => RunStepExtends(w, step);
  }

  lemma RunStepExtends(w: World, step: Step)
    requires Inv(w) && (step.NodeStep? || step.Approve? || step.CutOff? || step.RecordOutcome?)
    ensures Extends(w, Act(w, step)) && DoneFrozen(w, Act(w, step))
  {
    hide Inv, RunOk, Extends, DoneFrozen, RunNode, Resume, Restart, Record, RunsOnly;
    var r := step.runId;
    RunsAndThreads(w);
    GrowsExtends(w, w);
    if r in w.threads {
      RunIsOk(w, r);
      match step
      case NodeStep(_, input) => NodeStepExtends(w, r, input);
      case Approve(_, approval, tenant) =>
        if w.threads[r].next.Waiting? {
          ResumeExtends(w, r, approval);
        }
      case CutOff(_) => RestartExtends(w, r);
      case RecordOutcome(_, now) => RecordExtends(w, r, now);
    }
  }

  // ----- Any number of steps -----

  /** Whatever happens later: ledger entries stay as they are, logs only grow, and a run that
      is over never changes again. */
  lemma {:induction false} LaterExtends(w: World, steps: seq<Step>)
    requires Inv(w)
    ensures Extends(w, Run(w, steps)) && DoneFrozen(w, Run(w, steps))
  {
    RunsAndThreads(w);
    GrowsExtends(w, w);
    if steps != [] {
      var init := steps[..|steps| - 1];
      LaterExtends(w, init);
      RunKeepsInv(w, init);
      ActExtends(Run(w, init), steps[|steps| - 1]);
      hide Inv, Act, Extends, DoneFrozen;
      ExtendsTrans(w, Run(w, init), Run(w, steps));
    }
  }

  // ----- Replays -----

  /** The place of a run in the order of creation. */
  function Position(order: seq<Uuid>, r: Uuid): nat
    requires r in order
  {
    if order[|order| - 1] == r then |order| - 1 else Position(order[..|order| - 1], r)
  }

  lemma {:induction false} PositionAt(order: seq<Uuid>, r: Uuid)
    requires r in order
    ensures Position(order, r) < |order| && order[Position(order, r)] == r
  {
    if order[|order| - 1] != r {
      PositionAt(order[..|order| - 1], r);
    }
  }

  lemma ParentEarlier(w: World, r: Uuid)
    requires OrderOk(w) && r in w.repo.runs && w.repo.runs[r].replayOf.Some?
    ensures
      var p := w.repo.runs[r].replayOf.value;
      p in w.repo.runs && Replays(w, r, p) && Position(w.repo.runOrder, p) < Position(w.repo.runOrder, r)
  {
    var order := w.repo.runOrder;
    PositionAt(order, r);
    var i := Position(order, r);
    var j :| 0 <= j < i && Replays(w, order[i], order[j]);
    PositionAt(order, order[j]);
  }

  /** Following replay_of from a run. It ends because every parent is older. */
  ghost function Root(w: World, r: Uuid): (root: Uuid)
    requires OrderOk(w) && r in w.repo.runs
    ensures root in w.repo.runs && w.repo.runs[root].replayOf.None?
    ensures w.repo.runs[root].caseId == w.repo.runs[r].caseId && w.repo.runs[root].tenantId == w.repo.runs[r].tenantId
    decreases Position(w.repo.runOrder, r)
  {
    if w.repo.runs[r].replayOf.None? then r
    else
      ParentEarlier(w, r);
      Root(w, w.repo.runs[r].replayOf.value)
  }

  /** Replays form a forest: every chain of replays leads to a first run of the same case and
      tenant. */
  lemma ReplaysFormAForest(steps: seq<Step>, r: Uuid)
    requires r in Run(START, steps).repo.runs
    ensures
      var w := Run(START, steps);
      && OrderOk(w)
      && w.repo.runs[Root(w, r)].replayOf.None?
      && w.repo.runs[Root(w, r)].caseId == w.repo.runs[r].caseId
      && (w.repo.runs[r].replayOf.Some? ==>
            var p := w.repo.runs[r].replayOf.value;
            Replays(w, r, p) && p != r && Root(w, p) == Root(w, r))
  {
    hide RunOk, Run;
    Reachable(steps);
    var w := Run(START, steps);
    if w.repo.runs[r].replayOf.Some? {
      ParentEarlier(w, r);
    }
  }

  // ----- Cut-off executions -----

  /** Once the effect is on the ledger, running the execution node again succeeds on its first
      call with the same effect, whatever the fault, and leaves the ledger alone. */
  lemma RerunSucceedsAtOnce(steps: seq<Step>, r: Uuid, input: NodeInput)
    requires
      var w := Run(START, steps);
      r in w.threads && w.threads[r].next.Retrying? && HasEffect(w, r)
    ensures
      var w := Run(START, steps);
      var w' := RunNode(w, r, input);
      && w'.tools.effects == w.tools.effects
      && w'.threads[r].next.Settling? && Holds(w'.threads[r].next.receipt)
      && w'.threads[r].next.receipt.value.status == Replayed
      && w'.threads[r].next.receipt.value.effectId == w.tools.effects[RunKey(w, r)].effectId
  {
    hide Run, Scan, KeyFor, Grounded, Answer, AfterExecute;
    var w := Run(START, steps);
    ReachableRun(steps, r);
    ReplayAlwaysSucceeds(w.tools, w.threads[r].state.proposedAction.value,
        IdAt(input.effectIds, w.threads[r].next.attempt));
  }
}
