/** What a whole service call leaves alone: everything of every other run. A replay in
    particular leaves its original as it was, but for one note. */
module Frames {
  import opened Domain
  import opened Gateway
  import opened Repository
  import opened Protocol
  import opened Invariant
  import opened Preservation
  import opened System
  import opened Theorems
  import opened Driver
  import opened History
  import opened Outcomes
  import Policy

  /** The record, checkpoint, log, approvals and receipts of a run, and what the ledger holds
      for it, are the same. */
  ghost predicate LeftAlone(w: World, w': World, q: Uuid) {
    && q in w.repo.runs && q in w'.repo.runs && w'.repo.runs[q] == w.repo.runs[q]
    && q in w.threads && q in w'.threads && w'.threads[q] == w.threads[q]
    && GetOr(w'.repo.events, q, []) == GetOr(w.repo.events, q, [])
    && GetOr(w'.repo.approvals, q, []) == GetOr(w.repo.approvals, q, [])
    && GetOr(w'.repo.receipts, q, []) == GetOr(w.repo.receipts, q, [])
    && EffectOf(w', q) == EffectOf(w, q)
  }

  /** The run's own entry on the ledger, if there is one. */
  function EffectOf(w: World, q: Uuid): Option<Receipt> {
    if HasEffect(w, q) then Some(w.tools.effects[RunKey(w, q)]) else None
  }

  ghost predicate OthersLeftAlone(w: World, w': World, r: Uuid) {
    forall q | q in w.repo.runs && q != r :: LeftAlone(w, w', q)
  }

  // ----- A thread driven on -----

  lemma {:induction false} DriveOnlyRun(w: World, r: Uuid, input: NodeInput)
    requires RunOk(w, r)
    ensures r in w.threads
    ensures RunOk(Drive(w, r, input), r) && OnlyRun(w, Drive(w, r, input), r)
    decreases if r in w.threads then Rank(w.threads[r].next) else 0
  {
    hide RunOk, OnlyRun, RunNode;
    RunOkKnown(w, r);
    if Runnable(w.threads[r].next) {
      RankFalls(w, r, input);
      RunNodeKeeps(w, r, input);
      DriveOnlyRun(RunNode(w, r, input), r, input);
      OnlyRunTrans(w, RunNode(w, r, input), Drive(w, r, input), r);
    } else {
      OnlyRunRefl(w, r);
    }
  }

  /** Driven to its pause or end, and the outcome recorded. */
  lemma CallOnlyRun(w: World, r: Uuid, input: NodeInput)
    requires RunOk(w, r)
    ensures r in w.threads && r in Drive(w, r, input).threads
    ensures OnlyRun(w, Record(Drive(w, r, input), r, input.recordedAt), r)
  {
    hide RunOk, OnlyRun, Drive, Record;
    DriveOnlyRun(w, r, input);
    var w1 := Drive(w, r, input);
    RunOkKnown(w1, r);
    RecordKeeps(w1, r, input.recordedAt);
    OnlyRunTrans(w, w1, Record(w1, r, input.recordedAt), r);
  }

  lemma OnlyRunLeaves(w: World, w': World, r: Uuid, q: Uuid)
    requires OnlyRun(w, w', r) && q != r && Known(w, q)
    ensures LeftAlone(w, w', q)
  {
    assert Find(w'.repo.events, q) == Find(w.repo.events, q);
    assert Find(w'.repo.approvals, q) == Find(w.repo.approvals, q);
    assert Find(w'.repo.receipts, q) == Find(w.repo.receipts, q);
    KeysDiffer(q, RequestOf(w, q).requestedAction, r, RequestOf(w, r).requestedAction);
    hide KeyFor;
    assert RunKey(w', q) == RunKey(w, q);
    assert Find(w'.tools.effects, RunKey(w, q)) == Find(w.tools.effects, RunKey(w, q));
  }

  lemma OnlyRunLeavesOthers(w: World, w': World, r: Uuid)
    requires Inv(w) && OnlyRun(w, w', r)
    ensures OthersLeftAlone(w, w', r)
  {
    hide RunOk, OnlyRun, LeftAlone;
    forall q | q in w.repo.runs && q != r ensures LeftAlone(w, w', q) {
      assert RunOk(w, q);
      RunOkKnown(w, q);
      OnlyRunLeaves(w, w', r, q);
    }
  }

  lemma LeftAloneTrans(a: World, b: World, c: World, q: Uuid)
    requires LeftAlone(a, b, q) && LeftAlone(b, c, q)
    ensures LeftAlone(a, c, q)
  {
  }

  lemma GrowsLeaves(w: World, w': World, q: Uuid)
    requires Grows(w, w') && Known(w, q)
    ensures LeftAlone(w, w', q)
  {
  }

  // ----- The calls -----

  /** A start touches no run there was before. */
  lemma StartLeavesOthers(w: World, r: Uuid, caseId: Uuid, tenant: string, replayOf: Option<Uuid>, input: NodeInput)
    requires Inv(w) && r !in w.repo.runs && StartError(w, caseId, tenant).None?
    requires replayOf.Some? ==>
      replayOf.value in w.repo.runs && w.repo.runs[replayOf.value].caseId == caseId
      && w.repo.runs[replayOf.value].tenantId == tenant
    ensures OthersLeftAlone(w, StartCall(w, r, caseId, tenant, replayOf, input), r)
  {
    hide Inv, RunOk, LeftAlone, OnlyRun, Drive, Record, Grows, RunsOnly;
    var w1 := BeginRun(w, r, caseId, tenant, replayOf);
    var w2 := StartCall(w, r, caseId, tenant, replayOf, input);
    RunsAndThreads(w);
    BeginRunGrows(w, r, caseId, tenant, replayOf);
    BeginRunKeeps(w, r, caseId, tenant, replayOf);
    RunIsOk(w1, r);
    CallOnlyRun(w1, r, input);
    OnlyRunLeavesOthers(w1, w2, r);
    hide BeginRun, StartCall;
    forall q | q in w.repo.runs && q != r ensures LeftAlone(w, w2, q) {
      RunIsOk(w, q);
      RunOkKnown(w, q);
      GrowsLeaves(w, w1, q);
      StillThere(w, w1, q);
      LeftAloneTrans(w, w1, w2, q);
    }
  }

  lemma StillThere(w: World, w': World, q: Uuid)
    requires LeftAlone(w, w', q)
    ensures q in w'.repo.runs && q in w'.threads
  {
  }

  /** An approval touches no other run. */
  lemma ApproveLeavesOthers(w: World, r: Uuid, approval: Approval, input: NodeInput)
    requires Inv(w) && r in w.threads && w.threads[r].next == Waiting
    ensures OthersLeftAlone(w, ApproveCall(w, r, approval, input), r)
  {
    hide Inv, RunOk, LeftAlone, OnlyRun, Drive, Record, Resume;
    RunIsOk(w, r);
    ResumeKeeps(w, r, approval);
    CallOnlyRun(Resume(w, r, approval), r, input);
    OnlyRunTrans(w, Resume(w, r, approval), ApproveCall(w, r, approval, input), r);
    OnlyRunLeavesOthers(w, ApproveCall(w, r, approval, input), r);
  }

  // ----- Between calls -----

  /** No call is in flight: every run waits for its approval or is over. */
  ghost predicate Quiet(w: World) {
    Inv(w) && forall r | r in w.threads :: AtRest(w, r)
  }

  lemma NewSystemIsQuiet()
    ensures Quiet(START)
  {
    Reachable([]);
  }

  lemma OthersRest(w: World, w': World, r: Uuid)
    requires Quiet(w) && Inv(w') && OthersLeftAlone(w, w', r) && AtRest(w', r)
    requires w'.threads.Keys <= w.threads.Keys + {r}
    ensures Quiet(w')
  {
    hide Inv;
    RunsAndThreads(w);
    forall q | q in w'.threads ensures AtRest(w', q) {
      assert q != r ==> LeftAlone(w, w', q);
    }
  }

  /** A start that is called between calls ends between calls. */
  lemma StartKeepsQuiet(w: World, r: Uuid, caseId: Uuid, tenant: string, replayOf: Option<Uuid>, input: NodeInput)
    requires Quiet(w) && r !in w.repo.runs && StartError(w, caseId, tenant).None?
    requires replayOf.Some? ==>
      replayOf.value in w.repo.runs && w.repo.runs[replayOf.value].caseId == caseId
      && w.repo.runs[replayOf.value].tenantId == tenant
    ensures Quiet(StartCall(w, r, caseId, tenant, replayOf, input))
  {
    hide Inv, OthersLeftAlone, OnlyRun, RunOk, BeginRun, Drive, Record, RunsOnly, Grows, LeadsTo;
    StartLeavesOthers(w, r, caseId, tenant, replayOf, input);
    StartOutcome(w, r, caseId, tenant, replayOf, input);
    RunsAndThreads(w);
    BeginRunGrows(w, r, caseId, tenant, replayOf);
    var w1 := BeginRun(w, r, caseId, tenant, replayOf);
    BeginRunKeeps(w, r, caseId, tenant, replayOf);
    RunIsOk(w1, r);
    CallOnlyRun(w1, r, input);
    SameThreads(w1, StartCall(w, r, caseId, tenant, replayOf, input), r);
    OthersRest(w, StartCall(w, r, caseId, tenant, replayOf, input), r);
  }

  lemma SameThreads(w: World, w': World, r: Uuid)
    requires OnlyRun(w, w', r)
    ensures w'.threads.Keys == w.threads.Keys
  {
  }

  lemma ApproveKeepsQuiet(w: World, r: Uuid, approval: Approval, tenant: string, input: NodeInput)
    requires Quiet(w) && ApprovalError(w, r, tenant).None?
    ensures r in w.threads && Quiet(ApproveCall(w, r, approval, input))
  {
    hide Inv, OthersLeftAlone, OnlyRun, RunOk, Resume, Drive, Record, LeadsTo;
    RunsAndThreads(w);
    RunIsOk(w, r);
    WaitingResumes(w, r, approval);
    ApproveLeavesOthers(w, r, approval, input);
    ApproveCallOutcome(w, r, approval, tenant, input);
    ResumeKeeps(w, r, approval);
    CallOnlyRun(Resume(w, r, approval), r, input);
    SameThreads(w, Resume(w, r, approval), r);
    SameThreads(Resume(w, r, approval), ApproveCall(w, r, approval, input), r);
    OthersRest(w, ApproveCall(w, r, approval, input), r);
  }

  lemma NoteKeepsQuiet(w: World, r: Uuid, tenant: string, reason: string)
    requires Quiet(w) && AuthorizationError(w, r, tenant).None?
    ensures Quiet(Emit(w, r, ReplayRequested(reason)))
  {
    hide Inv;
    ReplayStarts(w, r, tenant, reason);
  }

  /** A case or a claimed event more changes nothing for the runs. */
  lemma FilingKeepsQuiet(w: World, w': World)
    requires Quiet(w) && Inv(w') && w'.threads == w.threads
    ensures Quiet(w')
  {
  }

  // ----- Replays -----

  /** The record, checkpoint, approvals and receipts of a run are the same, what the ledger
      holds for it too, and its log has grown by exactly one note. */
  ghost predicate OnlyNoted(w: World, w': World, q: Uuid, note: Event) {
    && q in w.repo.runs && q in w'.repo.runs && w'.repo.runs[q] == w.repo.runs[q]
    && q in w.threads && q in w'.threads && w'.threads[q] == w.threads[q]
    && GetOr(w'.repo.events, q, []) == GetOr(w.repo.events, q, []) + [note]
    && GetOr(w'.repo.approvals, q, []) == GetOr(w.repo.approvals, q, [])
    && GetOr(w'.repo.receipts, q, []) == GetOr(w.repo.receipts, q, [])
    && EffectOf(w', q) == EffectOf(w, q)
  }

  lemma NoteIsAll(w: World, r: Uuid, reason: string)
    requires r in w.repo.runs && r in w.threads
    ensures OnlyNoted(w, Emit(w, r, ReplayRequested(reason)), r, ReplayRequested(reason))
  {
  }

  lemma NotedThenLeft(w: World, noted: World, w': World, q: Uuid, note: Event)
    requires OnlyNoted(w, noted, q, note) && LeftAlone(noted, w', q)
    ensures OnlyNoted(w, w', q, note)
  {
  }

  lemma NotedMeans(w: World, w': World, q: Uuid, note: Event)
    requires OnlyNoted(w, w', q, note)
    ensures q in w'.repo.runs && w'.repo.runs[q] == w.repo.runs[q]
  {
  }

  /** The whole of a granted replay, with the start inside it and whatever the new run comes
      to: of the original, whether it is over or still waiting, it leaves everything as it was
      but for the note; every other run it leaves alone; and the new run replays the original. */
  lemma ReplayLeavesOriginal(w: World, original: Uuid, r: Uuid, tenant: string, reason: string, input: NodeInput)
    requires Inv(w) && r !in w.repo.runs && AuthorizationError(w, original, tenant).None?
    ensures
      var w' := ReplayCall(w, original, r, tenant, reason, input);
      && OnlyNoted(w, w', original, ReplayRequested(reason))
      && (forall q | q in w.repo.runs && q != original :: LeftAlone(w, w', q))
      && Replays(w', r, original) && w'.tools == w.tools
  {
    hide Inv, RunOk, LeftAlone, OnlyNoted, OnlyRun, StartCall, BeginRun, Policy.EvidenceSound, Policy.Decide,
        CollectRecords,
         ClaimsSupported, CheckClaims;
    var noted := Emit(w, original, ReplayRequested(reason));
    ReplayStarts(w, original, tenant, reason);
    RunIsOk(w, original);
    RunOkKnown(w, original);
    NoteIsAll(w, original, reason);
    NoteKeeps(w, original, reason);
    OnlyRunLeavesOthers(w, noted, original);
    var caseId := w.repo.runs[original].caseId;
    StartLeavesOthers(noted, r, caseId, tenant, Some(original), input);
    var w' := ReplayCall(w, original, r, tenant, reason, input);
    NotedThenLeft(w, noted, w', original, ReplayRequested(reason));
    StartAwaitsIff(noted, r, caseId, tenant, Some(original), input);
    NotedMeans(w, w', original, ReplayRequested(reason));
    forall q | q in w.repo.runs && q != original ensures LeftAlone(w, w', q) {
      StillThere(w, noted, q);
      LeftAloneTrans(w, noted, w', q);
    }
  }
}
