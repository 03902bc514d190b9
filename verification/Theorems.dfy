/** What the control plane promises over whole runs. Every statement is about the world
    after any steps from the empty start, in any interleaving. */
module Theorems {
  import opened Domain
  import opened Gateway
  import opened Repository
  import opened Protocol
  import opened Invariant
  import opened Preservation
  import opened System
  import opened Audit
  import Policy

  /** No service call is in flight for the run. */
  ghost predicate AtRest(w: World, r: Uuid) {
    r in w.threads && (w.threads[r].next.Waiting? || w.threads[r].next.Done?)
  }

  /** The effect of the run is on the ledger. */
  predicate HasEffect(w: World, r: Uuid) {
    r in w.repo.runs && w.repo.runs[r].caseId in w.repo.cases && RunKey(w, r) in w.tools.effects
  }

  function Committed(w: World): set<Uuid> {
    set r | r in w.repo.runs && HasEffect(w, r)
  }

  function CompletedRuns(w: World): set<Uuid> {
    set r | r in w.repo.runs && w.repo.runs[r].status == Completed
  }

  lemma ReachableRun(steps: seq<Step>, r: Uuid)
    requires r in Run(START, steps).repo.runs || r in Run(START, steps).threads
    ensures RunOk(Run(START, steps), r)
  {
    hide RunOk, OrderOk, LedgerOwned, Run;
    Reachable(steps);
  }

  // ----- Status and ledger -----

  /** The key of a run, and nothing for any other identifier. */
  function KeyOf(w: World, r: Uuid): string {
    if r in w.repo.runs && w.repo.runs[r].caseId in w.repo.cases then RunKey(w, r) else ""
  }

  lemma {:induction false} KeysOfRunsDistinct(w: World, rs: set<Uuid>)
    requires forall r | r in rs :: HasEffect(w, r)
    ensures |set r | r in rs :: KeyOf(w, r)| == |rs|
  {
    hide KeyFor, ActionText;
    if rs != {} {
      var r :| r in rs;
      var rest := rs - {r};
      KeysOfRunsDistinct(w, rest);
      var keys := set q | q in rest :: KeyOf(w, q);
      if KeyOf(w, r) in keys {
        var q :| q in rest && KeyOf(w, q) == KeyOf(w, r);
        KeyForInjective(r, RequestOf(w, r).requestedAction, q, RequestOf(w, q).requestedAction);
      }
      assert (set q | q in rs :: KeyOf(w, q)) == keys + {KeyOf(w, r)};
    }
  }

  /** The ledger has exactly one entry for each run with an effect. */
  lemma LedgerCount(w: World)
    requires Inv(w)
    ensures |w.tools.effects| == |Committed(w)|
  {
    hide RunOk, OrderOk, KeyFor;
    KeysOfRunsDistinct(w, Committed(w));
    var keys := set r | r in Committed(w) :: KeyOf(w, r);
    forall k ensures k in keys <==> k in w.tools.effects.Keys {
      if k in w.tools.effects {
        var q :| q in w.repo.runs && OwnsKey(w, q, k);
        assert q in Committed(w) && KeyOf(w, q) == k;
      }
    }
    assert keys == w.tools.effects.Keys;
  }

  lemma RestStatus(w: World, r: Uuid)
    requires RunOk(w, r) && AtRest(w, r)
    ensures w.repo.runs[r].status == Completed <==> HasEffect(w, r)
  {
    hide Scan, KeyFor, Grounded;
  }

  /** Between service calls a run is completed exactly when its effect is on the ledger, and
      when every run is at rest the ledger has as many entries as there are completed runs. */
  lemma LedgerAgreesWithStatus(steps: seq<Step>)
    ensures
      var w := Run(START, steps);
      && (forall r | AtRest(w, r) :: r in w.repo.runs && (w.repo.runs[r].status == Completed <==> HasEffect(w, r)))
      && |w.tools.effects| == |Committed(w)| <= |w.repo.runs|
      && ((forall r | r in w.repo.runs :: AtRest(w, r)) ==> |w.tools.effects| == |CompletedRuns(w)|)
  {
    hide Run, Inv, RunOk, HasEffect, Committed;
    Reachable(steps);
    var w := Run(START, steps);
    LedgerCount(w);
    forall r | AtRest(w, r) ensures r in w.repo.runs && (w.repo.runs[r].status == Completed <==> HasEffect(w, r)) {
      ReachableRun(steps, r);
      RunOkKnown(w, r);
      RestStatus(w, r);
    }
    CommittedRuns(w);
  }

  lemma RunOkKnown(w: World, r: Uuid)
    requires RunOk(w, r)
    ensures Known(w, r)
  {
  }

  lemma CommittedRuns(w: World)
    requires forall r | AtRest(w, r) :: r in w.repo.runs && (w.repo.runs[r].status == Completed <==> HasEffect(w, r))
    ensures |Committed(w)| <= |w.repo.runs|
    ensures (forall r | r in w.repo.runs :: AtRest(w, r)) ==> Committed(w) == CompletedRuns(w)
  {
    hide HasEffect;
    SubsetSize(Committed(w), w.repo.runs.Keys);
    if forall r | r in w.repo.runs :: AtRest(w, r) {
      assert Committed(w) == CompletedRuns(w);
    }
  }

  lemma {:induction false} SubsetSize<T>(a: set<T>, b: set<T>)
    requires a <= b
    ensures |a| <= |b|
  {
    if a != {} {
      var x :| x in a;
      SubsetSize(a - {x}, b - {x});
    }
  }

  function RunsOfCase(w: World, c: Uuid): set<Uuid> {
    set r | r in w.repo.runs && w.repo.runs[r].caseId == c
  }

  /** The runs of a case that have acted, and the keys they have acted under. */
  function ActedRunsOfCase(w: World, c: Uuid): set<Uuid> {
    set r | r in RunsOfCase(w, c) && HasEffect(w, r)
  }

  function EffectsOfCase(w: World, c: Uuid): set<string> {
    set r | r in ActedRunsOfCase(w, c) :: KeyOf(w, r)
  }

  /** Every ledger entry is an effect of one case and of no other. */
  lemma EffectsHaveOneCase(steps: seq<Step>, k: string)
    requires k in Run(START, steps).tools.effects
    ensures
      var w := Run(START, steps);
      exists c :: c in w.repo.cases && k in EffectsOfCase(w, c) && forall d | k in EffectsOfCase(w, d) :: d == c
  {
    hide Run, RunOk, KeyFor;
    Reachable(steps);
    var w := Run(START, steps);
    var r :| r in w.repo.runs && OwnsKey(w, r, k);
    var c := w.repo.runs[r].caseId;
    assert r in ActedRunsOfCase(w, c) && KeyOf(w, r) == k;
    forall d | k in EffectsOfCase(w, d) ensures d == c {
      var q :| q in ActedRunsOfCase(w, d) && KeyOf(w, q) == k;
      KeyForInjective(r, RequestOf(w, r).requestedAction, q, RequestOf(w, q).requestedAction);
    }
  }

  /** A case has on the ledger exactly one entry for each of its runs that has acted, never
      more than it has runs; and with its runs at rest, one for each that is completed. */
  lemma EffectsOfCaseCounted(steps: seq<Step>, c: Uuid)
    ensures
      var w := Run(START, steps);
      && EffectsOfCase(w, c) <= w.tools.effects.Keys
      && |EffectsOfCase(w, c)| == |ActedRunsOfCase(w, c)| <= |RunsOfCase(w, c)|
      && ((forall r | r in RunsOfCase(w, c) :: AtRest(w, r)) ==>
            |EffectsOfCase(w, c)| == |set r | r in RunsOfCase(w, c) && w.repo.runs[r].status == Completed|)
  {
    hide Run, KeyFor, Inv;
    var w := Run(START, steps);
    KeysOfRunsDistinct(w, ActedRunsOfCase(w, c));
    SubsetSize(ActedRunsOfCase(w, c), RunsOfCase(w, c));
    LedgerAgreesWithStatus(steps);
    if forall r | r in RunsOfCase(w, c) :: AtRest(w, r) {
      assert ActedRunsOfCase(w, c) == set r | r in RunsOfCase(w, c) && w.repo.runs[r].status == Completed;
    }
  }

  // ----- Authorisation -----

  /** The action is the one the request asks for, on its transfer and case, with this reason,
      irreversible exactly if it releases the transfer, under the run's key. */
  ghost predicate AsRequested(action: ProposedAction, r: Uuid, request: CaseRequest, caseId: Uuid, reason: string) {
    && action.action == request.requestedAction && action.tenantId == request.tenantId
    && action.caseId == caseId && action.transferId == request.transferId && action.reason == reason
    && (action.irreversible <==> request.requestedAction == ReleaseTransfer)
    && action.idempotencyKey == r + ":" + ActionText(request.requestedAction)
  }

  /** The entry is a verified effect of the tool and the tenant the request asks for. */
  ghost predicate EffectAsRequested(entry: Receipt, r: Uuid, request: CaseRequest) {
    && entry.toolName == EffectTool(request.requestedAction) && entry.status == Succeeded && entry.effectId.Some?
    && entry.idempotencyKey == r + ":" + ActionText(request.requestedAction)
    && entry.response == Some(EffectResponse(true, request.requestedAction, request.tenantId))
  }

  /** In every history, whatever a run has proposed is what was requested. */
  lemma ProposedAsRequested(steps: seq<Step>, r: Uuid)
    requires r in Run(START, steps).threads && Run(START, steps).threads[r].state.proposedAction.Some?
    ensures
      var w := Run(START, steps);
      && Known(w, r) && w.threads[r].state.recommendation.Some?
      && w.threads[r].state.request == RequestOf(w, r)
      && AsRequested(w.threads[r].state.proposedAction.value, r, RequestOf(w, r), w.repo.runs[r].caseId,
                     w.threads[r].state.recommendation.value.rationale)
  {
    hide Run, Scan, Grounded, KeyFor;
    ReachableRun(steps, r);
    ProposedIsBound(Run(START, steps), r);
    hide ViewOk, ActionText;
    assert KeyFor(r, RequestOf(Run(START, steps), r).requestedAction) ==
           r + ":" + ActionText(RequestOf(Run(START, steps), r).requestedAction) by {
      KeyIsText(r, RequestOf(Run(START, steps), r).requestedAction);
    }
  }

  lemma KeyIsText(r: Uuid, action: ActionName)
    ensures KeyFor(r, action) == r + ":" + ActionText(action)
  {
  }

  /** Everything that must be on record before an effect: an allowed decision the policy
      engine gave on sound evidence (module Provenance says when), no unsupported claim, a
      saved approval of exactly this action, and one tenant throughout. */
  ghost predicate Authorises(w: World, r: Uuid, entry: Receipt) {
    && Known(w, r)
    && var s := w.threads[r].state;
       var request := RequestOf(w, r);
       && s.decision.Some? && s.decision.value.allowed
       && (exists now :: Policy.EvidenceSound(request, Evidence(s), s.authenticatedTenant, now))
       && s.recommendation.Some? && s.recommendation.value.unsupportedClaims == []
       && s.proposedAction.Some?
       && var action := s.proposedAction.value;
          && AsRequested(action, r, request, w.repo.runs[r].caseId, s.recommendation.value.rationale)
          && ApprovedIn(GetOr(w.repo.approvals, r, []), action)
          && request.tenantId == w.repo.runs[r].tenantId == s.authenticatedTenant
          && EffectAsRequested(entry, r, request)
          && (forall i | 0 <= i < |GetOr(w.repo.receipts, r, [])| :: Reports(GetOr(w.repo.receipts, r, [])[i], entry))
  }

  lemma EntryAuthorised(w: World, r: Uuid, k: string)
    requires RunOk(w, r) && OwnsKey(w, r, k) && k in w.tools.effects
    ensures Authorises(w, r, w.tools.effects[k])
  {
    hide Scan, Policy.Decide, Policy.EvidenceSound, PcOk, AuditOk, ActionText;
    var v := View(w, r);
    assert v.entry == Some(w.tools.effects[k]);
    var s := w.threads[r].state;
    var now :| s.decision.value == Policy.Decide(s.request, Evidence(s), s.authenticatedTenant, now);
    Policy.AllowedIffEvidenceSound(s.request, Evidence(s), s.authenticatedTenant, now);
  }

  /** At no point of any history is there a ledger entry without its authorisation already
      on record: the approval is saved before the commit. */
  lemma EntriesAuthorised(steps: seq<Step>, k: string)
    requires k in Run(START, steps).tools.effects
    ensures
      var w := Run(START, steps);
      exists r :: OwnsKey(w, r, k) && Authorises(w, r, w.tools.effects[k])
  {
    hide RunOk, Run, Authorises;
    Reachable(steps);
    var w := Run(START, steps);
    var r :| r in w.repo.runs && OwnsKey(w, r, k);
    EntryAuthorised(w, r, k);
  }

  // ----- Keys -----

  lemma ProposedIsBound(w: World, r: Uuid)
    requires RunOk(w, r) && w.threads[r].state.proposedAction.Some?
    ensures Bound(View(w, r))
  {
    hide Scan, Grounded, KeyFor, AuditOk, Identity;
  }

  /** Two proposed actions with one idempotency key are the same action of the same run, so
      the ledger is never asked to bind a key to a second action. */
  lemma KeyDeterminesAction(steps: seq<Step>, r: Uuid, q: Uuid)
    requires
      var w := Run(START, steps);
      && r in w.threads && q in w.threads
      && w.threads[r].state.proposedAction.Some? && w.threads[q].state.proposedAction.Some?
      && w.threads[r].state.proposedAction.value.idempotencyKey
          == w.threads[q].state.proposedAction.value.idempotencyKey
    ensures
      var w := Run(START, steps);
      r == q && w.threads[r].state.proposedAction == w.threads[q].state.proposedAction
  {
    hide Run, KeyFor;
    var w := Run(START, steps);
    ReachableRun(steps, r);
    ReachableRun(steps, q);
    ProposedIsBound(w, r);
    ProposedIsBound(w, q);
    hide Scan, Grounded, ViewOk;
    KeyForInjective(r, View(w, r).request.requestedAction, q, View(w, q).request.requestedAction);
  }

  // ----- Status -----

  /** No node ever raises, and a run that is at rest has one of the statuses its caller may
      see; it carries a finish time exactly when it is over. */
  lemma StatusesAreSettled(steps: seq<Step>, r: Uuid)
    requires r in Run(START, steps).repo.runs
    ensures
      var w := Run(START, steps);
      && r in w.threads && !w.threads[r].next.Raised?
      && (w.threads[r].next.Waiting? ==> w.repo.runs[r].status == AwaitingApproval)
      && (w.threads[r].next.Done? ==> w.repo.runs[r].status in {Completed, Blocked})
      && (w.repo.runs[r].finishedAt.Some? <==> w.threads[r].next.Done?)
      && (w.repo.runs[r].status in {Completed, Blocked} <==> w.threads[r].next.Done?)
      && w.repo.runs[r].status in {Running, AwaitingApproval, Completed, Blocked}
      && (AtRest(w, r) ==> w.repo.runs[r].state == Some(w.threads[r].state))
      && (w.threads[r].next.Ready? && w.threads[r].state.approval.None? ==> w.repo.runs[r].status == Running)
  {
    ReachableRun(steps, r);
    hide Scan, Run, KeyFor, Grounded, EntryTraced, Identity;
  }

  /** What the service records is never the fall-through status Running: a pause is recorded
      as awaiting approval and an end as completed or blocked. */
  lemma NeverRecordsRunning(steps: seq<Step>, r: Uuid)
    requires r in Run(START, steps).threads
    requires Run(START, steps).threads[r].next.Suspended? || Run(START, steps).threads[r].next.Ended?
    ensures
      var t := Run(START, steps).threads[r];
      && StatusOf(t.state, t.next.Suspended?) != Running
      && (t.next.Ended? ==>
            StatusOf(t.state, false) == (if HasEffect(Run(START, steps), r) then Completed else Blocked))
  {
    ReachableRun(steps, r);
    hide Scan, Run, KeyFor, Grounded, EntryTraced, Identity;
  }

  // ----- The audit log -----

  lemma KindCounts(t: Tally, e: Event)
    ensures NextTally(t, e).closures == t.closures + multiset(KindOf(e))[Closure] + multiset(KindOf(e))[Stop]
    ensures NextTally(t, e).effects == t.effects + multiset(KindOf(e))[Effect]
  {
  }

  lemma {:induction false} TallyCounts(log: seq<Event>)
    ensures Scan(log).closures == multiset(Kinds(log))[Closure] + multiset(Kinds(log))[Stop]
    ensures Scan(log).effects == multiset(Kinds(log))[Effect]
  {
    if log != [] {
      hide NextTally, KindOf;
      var init, e := log[..|log| - 1], log[|log| - 1];
      TallyCounts(init);
      KindCounts(Scan(init), e);
      assert multiset(Kinds(log)) == multiset(Kinds(init)) + multiset(KindOf(e));
    }
  }

  /** At every point, cut off or not: one closure event exactly when the graph has ended, and
      as many effect events as saved receipts. */
  lemma AuditCounts(steps: seq<Step>, r: Uuid)
    requires r in Run(START, steps).repo.runs
    ensures
      var w := Run(START, steps);
      var word := multiset(Kinds(GetOr(w.repo.events, r, [])));
      && r in w.threads
      && word[Closure] + word[Stop] == (if w.threads[r].next.Ended? || w.threads[r].next.Done? then 1 else 0)
      && word[Effect] == |GetOr(w.repo.receipts, r, [])|
  {
    hide Run, KeyFor, Grounded, PcOk, EntryTraced;
    var w := Run(START, steps);
    ReachableRun(steps, r);
    TallyCounts(GetOr(w.repo.events, r, []));
  }
}
