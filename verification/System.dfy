/** The whole control plane as a transition system: any number of cases, runs, approvals,
    replays, webhook deliveries, fault changes and cut-off executions, interleaved node by
    node and attempt by attempt. */
module System {
  import opened Domain
  import opened Gateway
  import opened Repository
  import opened Protocol
  import opened Invariant
  import opened Preservation

  datatype Step =
    | OpenCase(caseId: Uuid, request: CaseRequest, tenant: string, isPublic: bool)
    | StartRun(runId: Uuid, caseId: Uuid, tenant: string)
    | ReplayRun(original: Uuid, runId: Uuid, tenant: string, reason: string)
    | NodeStep(runId: Uuid, input: NodeInput)
    | Approve(runId: Uuid, approval: Approval, tenant: string)
    | CutOff(runId: Uuid)
    | RecordOutcome(runId: Uuid, now: int)
    | SetFault(transferId: string, fault: Fault)
    | SetRecords(transferId: string, records: seq<EvidenceRecord>)

  /** One step. A request the service refuses, and an identifier that is not fresh, change
      nothing; an approval is taken up only while no other one for the run is in flight. */
  function Act(w: World, step: Step): World {
    match step
    case OpenCase(caseId, request, tenant, isPublic) =>
      if caseId in w.repo.cases || request.tenantId != tenant then w
      else w.(repo := WithCase(w.repo, caseId, CaseState(request, isPublic)))
    case StartRun(runId, caseId, tenant) =>
      if runId in w.repo.runs || StartError(w, caseId, tenant).Some? then w
      else BeginRun(w, runId, caseId, tenant, None)
    case ReplayRun(original, runId, tenant, reason) =>
      if runId in w.repo.runs || AuthorizationError(w, original, tenant).Some? then w
      else
        var noted := Emit(w, original, ReplayRequested(reason));
        var caseId := w.repo.runs[original].caseId;
        if StartError(noted, caseId, tenant).Some? then noted
        else BeginRun(noted, runId, caseId, tenant, Some(original))
    case NodeStep(runId, input) => if runId in w.threads then RunNode(w, runId, input) else w
    case Approve(runId, approval, tenant) =>
      if ApprovalError(w, runId, tenant).Some? || runId !in w.threads || !w.threads[runId].next.Waiting? then w
      else Resume(w, runId, approval)
    case CutOff(runId) => if runId in w.threads then Restart(w, runId) else w
    case RecordOutcome(runId, now) => if runId in w.threads then Record(w, runId, now) else w
    case SetFault(transferId, fault) => w.(tools := w.tools.(faults := w.tools.faults[transferId := fault]))
    case SetRecords(transferId, records) =>
      w.(tools := w.tools.(overrides := w.tools.overrides[transferId := records]))
  }

  const START := World(EMPTY, ToolState(map[], map[], map[], map[]), map[])

  function Run(w: World, steps: seq<Step>): World {
    if steps == [] then w else Act(Run(w, steps[..|steps| - 1]), steps[|steps| - 1])
  }

  // ----- Every step keeps the invariant -----

  /** Everything there was is still there as it was; there may be more. */
  ghost predicate Grows(w: World, w': World) {
    && (forall r | r in w.repo.runs :: r in w'.repo.runs && w'.repo.runs[r] == w.repo.runs[r])
    && (forall r | r in w.threads :: r in w'.threads && w'.threads[r] == w.threads[r])
    && (forall c | c in w.repo.cases :: c in w'.repo.cases && w'.repo.cases[c] == w.repo.cases[c])
    && w'.repo.events == w.repo.events && w'.repo.approvals == w.repo.approvals && w'.repo.receipts == w.repo.receipts
    && w'.tools.effects == w.tools.effects
  }

  lemma GrowsKeepsRun(w: World, w': World, r: Uuid)
    requires Grows(w, w') && RunOk(w, r)
    ensures RunOk(w', r) && View(w', r) == View(w, r)
  {
    hide Scan;
    assert View(w', r) == View(w, r);
  }

  lemma GrowsKeepsRuns(w: World, w': World)
    requires Grows(w, w') && forall r | r in w.repo.runs :: RunOk(w, r)
    ensures forall r | r in w.repo.runs :: RunOk(w', r)
  {
    forall r | r in w.repo.runs ensures RunOk(w', r) {
      GrowsKeepsRun(w, w', r);
    }
  }

  lemma OpenCaseKeeps(w: World, caseId: Uuid, c: CaseState)
    requires Inv(w) && caseId !in w.repo.cases
    ensures Inv(w.(repo := WithCase(w.repo, caseId, c)))
  {
    hide RunOk;
    var w' := w.(repo := WithCase(w.repo, caseId, c));
    GrowsKeepsRuns(w, w');
    LedgerOwnedKept(w, w');
    OrderSame(w, w');
  }

  lemma LedgerOwnedKept(w: World, w': World)
    requires LedgerOwned(w) && Grows(w, w')
    ensures LedgerOwned(w')
  {
    forall k | k in w'.tools.effects ensures exists q | q in w'.repo.runs :: OwnsKey(w', q, k) {
      var q :| q in w.repo.runs && OwnsKey(w, q, k);
      assert OwnsKey(w', q, k);
    }
  }

  lemma OrderSame(w: World, w': World)
    requires OrderOk(w) && w'.repo.runs == w.repo.runs && w'.repo.runOrder == w.repo.runOrder
    ensures OrderOk(w')
  {
    var order := w.repo.runOrder;
    forall i | 0 <= i < |order| && w'.repo.runs[order[i]].replayOf.Some?
      ensures exists j | 0 <= j < i :: Replays(w', order[i], order[j])
    {
      var j :| 0 <= j < i && Replays(w, order[i], order[j]);
      assert Replays(w', order[i], order[j]);
    }
  }

  /** The key of a new run is not on the ledger. */
  lemma NewKeyFree(w: World, r: Uuid, action: ActionName)
    requires Inv(w) && r !in w.repo.runs
    ensures KeyFor(r, action) !in w.tools.effects
  {
    var k := KeyFor(r, action);
    if k in w.tools.effects {
      var q :| q in w.repo.runs && OwnsKey(w, q, k);
      KeyForInjective(q, RequestOf(w, q).requestedAction, r, action);
    }
  }

  lemma BeginRunNew(w: World, r: Uuid, caseId: Uuid, tenant: string, replayOf: Option<Uuid>)
    requires Inv(w) && r !in w.repo.runs && StartError(w, caseId, tenant).None?
    ensures RunOk(BeginRun(w, r, caseId, tenant, replayOf), r)
  {
    var c := w.repo.cases[caseId];
    var w' := BeginRun(w, r, caseId, tenant, replayOf);
    NewKeyFree(w, r, c.request.requestedAction);
    hide ViewOk, OrderOk, LedgerOwned;
    assert r !in w.repo.events && r !in w.repo.approvals && r !in w.repo.receipts;
    NewRunOk(View(w', r), c, r, caseId, tenant, replayOf);
  }

  lemma NewRunOk(v: RunView, c: CaseState, r: Uuid, caseId: Uuid, tenant: string, replayOf: Option<Uuid>)
    requires c.request.tenantId == tenant
    requires v == RunView(r, c.request, c.isPublicDemo,
                          RunRecord(caseId, tenant, Running, None, None, c.isPublicDemo, replayOf), Tally(0, 0), [], [],
                          Thread(Ready(IntakeValidation), InitialState(r, tenant, c.request), 0), None)
    ensures ViewOk(v)
  {
  }

  lemma BeginRunOrder(w: World, r: Uuid, caseId: Uuid, tenant: string, replayOf: Option<Uuid>)
    requires Inv(w) && r !in w.repo.runs && StartError(w, caseId, tenant).None?
    requires replayOf.Some? ==>
      replayOf.value in w.repo.runs && w.repo.runs[replayOf.value].caseId == caseId
      && w.repo.runs[replayOf.value].tenantId == tenant
    ensures OrderOk(BeginRun(w, r, caseId, tenant, replayOf))
  {
    hide RunOk, LedgerOwned;
    var w' := BeginRun(w, r, caseId, tenant, replayOf);
    var order, order' := w.repo.runOrder, w'.repo.runOrder;
    forall i | 0 <= i < |order'| && w'.repo.runs[order'[i]].replayOf.Some?
      ensures exists j | 0 <= j < i :: Replays(w', order'[i], order'[j])
    {
      if i < |order| {
        assert order[i] in w.repo.runs;
        var j :| 0 <= j < i && Replays(w, order[i], order[j]);
        assert Replays(w', order'[i], order'[j]);
      } else {
        assert replayOf.value in order;
        var j :| 0 <= j < |order| && order[j] == replayOf.value;
        assert Replays(w', order'[i], order'[j]);
      }
    }
    forall q ensures q in w'.repo.runs <==> q in order' {
      assert q in order' <==> q in order || q == r;
    }
  }

  lemma BeginRunGrows(w: World, r: Uuid, caseId: Uuid, tenant: string, replayOf: Option<Uuid>)
    requires w.repo.runs.Keys == w.threads.Keys && RunsOnly(w)
    requires r !in w.repo.runs && StartError(w, caseId, tenant).None?
    ensures
      var w' := BeginRun(w, r, caseId, tenant, replayOf);
      && Grows(w, w') && RunsOnly(w') && w'.repo.runs.Keys == w'.threads.Keys == w.repo.runs.Keys + {r}
  {
  }

  lemma BeginRunKeeps(w: World, r: Uuid, caseId: Uuid, tenant: string, replayOf: Option<Uuid>)
    requires Inv(w) && r !in w.repo.runs && StartError(w, caseId, tenant).None?
    requires replayOf.Some? ==>
      replayOf.value in w.repo.runs && w.repo.runs[replayOf.value].caseId == caseId
      && w.repo.runs[replayOf.value].tenantId == tenant
    ensures Inv(BeginRun(w, r, caseId, tenant, replayOf))
  {
    hide BeginRun, OrderOk, LedgerOwned, RunOk, RunsOnly;
    var w' := BeginRun(w, r, caseId, tenant, replayOf);
    BeginRunGrows(w, r, caseId, tenant, replayOf);
    BeginRunNew(w, r, caseId, tenant, replayOf);
    BeginRunOrder(w, r, caseId, tenant, replayOf);
    GrowsKeepsRuns(w, w');
    LedgerOwnedKept(w, w');
  }

  lemma RunIsOk(w: World, r: Uuid)
    requires Inv(w) && (r in w.repo.runs || r in w.threads)
    ensures RunOk(w, r) && r in w.repo.runs
  {
    hide RunOk, OrderOk, LedgerOwned;
  }

  lemma SameRunKeeps(w: World, w': World, r: Uuid)
    requires Inv(w) && r in w.repo.runs && OnlyRun(w, w', r) && RunOk(w', r)
    ensures Inv(w')
  {
    StepKeepsInv(w, w', r);
  }

  /** A replay of a run the actor may see is never refused by the start of the new run. */
  lemma ReplayStarts(w: World, original: Uuid, tenant: string, reason: string)
    requires Inv(w) && AuthorizationError(w, original, tenant).None?
    ensures
      var noted := Emit(w, original, ReplayRequested(reason));
      Inv(noted) && StartError(noted, w.repo.runs[original].caseId, tenant).None?
  {
    assert RunOk(w, original);
    OwnCase(w, original);
    hide Inv, RunOk;
    NoteKeeps(w, original, reason);
    StepKeepsInv(w, Emit(w, original, ReplayRequested(reason)), original);
  }

  /** A run is of a case of its own tenant. */
  lemma OwnCase(w: World, r: Uuid)
    requires RunOk(w, r)
    ensures r in w.repo.runs && w.repo.runs[r].caseId in w.repo.cases
    ensures w.repo.cases[w.repo.runs[r].caseId].request.tenantId == w.repo.runs[r].tenantId
  {
    hide Scan, PcOk, AuditOk, EntryTraced, KeyFor;
  }

  lemma ToolSettingsKeep(w: World, faults: map<string, Fault>, overrides: map<string, seq<EvidenceRecord>>)
    requires Inv(w)
    ensures Inv(w.(tools := w.tools.(faults := faults, overrides := overrides)))
  {
    hide RunOk;
    var w' := w.(tools := w.tools.(faults := faults, overrides := overrides));
    GrowsKeepsRuns(w, w');
    LedgerOwnedKept(w, w');
    OrderSame(w, w');
  }

  lemma ActKeepsInv(w: World, step: Step)
    requires Inv(w)
    ensures Inv(Act(w, step))
  {
    hide Inv, RunOk, BeginRun, RunNode, Resume, Restart, Record;
    match step
    case OpenCase(caseId, request, tenant, isPublic) =>
      if caseId !in w.repo.cases {
        OpenCaseKeeps(w, caseId, CaseState(request, isPublic));
      }
    case StartRun(runId, caseId, tenant) =>
      if runId !in w.repo.runs && StartError(w, caseId, tenant).None? {
        BeginRunKeeps(w, runId, caseId, tenant, None);
      }
    case ReplayRun(original, runId, tenant, reason) =>
      if runId !in w.repo.runs && AuthorizationError(w, original, tenant).None? {
        ReplayStarts(w, original, tenant, reason);
        BeginRunKeeps(Emit(w, original, ReplayRequested(reason)), runId, w.repo.runs[original].caseId, tenant,
            Some(original));
      }
    case SetFault(transferId, fault) => ToolSettingsKeep(w, w.tools.faults[transferId := fault], w.tools.overrides);
    case SetRecords(transferId, records) => ToolSettingsKeep(w, w.tools.faults,
        w.tools.overrides[transferId := records]);
    case _ => RunStepKeepsInv(w, step);
  }

  lemma RunStepKeepsInv(w: World, step: Step)
    requires Inv(w) && (step.NodeStep? || step.Approve? || step.CutOff? || step.RecordOutcome?)
    ensures Inv(Act(w, step))
  {
    hide RunOk, Inv, OnlyRun, RunNode, Resume, Restart, Record;
    var r := step.runId;
    if r in w.threads {
      RunIsOk(w, r);
      match step
      case NodeStep(_, input) =>
        RunNodeKeeps(w, r, input);
        SameRunKeeps(w, RunNode(w, r, input), r);
      case Approve(_, approval, tenant) =>
        if w.threads[r].next.Waiting? {
          ResumeKeeps(w, r, approval);
          SameRunKeeps(w, Resume(w, r, approval), r);
        }
      case CutOff(_) =>
        RestartKeeps(w, r);
        SameRunKeeps(w, Restart(w, r), r);
      case RecordOutcome(_, now) =>
        RecordKeeps(w, r, now);
        SameRunKeeps(w, Record(w, r, now), r);
    }
  }

  /** The invariant holds after any steps whatever. */
  lemma {:induction false} RunKeepsInv(w: World, steps: seq<Step>)
    requires Inv(w)
    ensures Inv(Run(w, steps))
  {
    if steps != [] {
      RunKeepsInv(w, steps[..|steps| - 1]);
      ActKeepsInv(Run(w, steps[..|steps| - 1]), steps[|steps| - 1]);
    }
  }

  lemma {:induction false} Reachable(steps: seq<Step>)
    ensures Inv(Run(START, steps))
  {
    RunKeepsInv(START, steps);
  }
}
