/** Signed case webhooks (api.py): each delivery claims its event id and, if it is the first,
    files a case and then starts a run of it. Deliveries interleave freely with each other and with
    everything else the system does, and a delivery may stop after any of its steps. */
module Webhooks {
  import opened Domain
  import opened Repository
  import opened Protocol
  import opened Invariant
  import opened System
  import opened History
  import opened Driver
  import Preservation

  datatype Progress = Received | Rejected | Duplicate | Claimed | Filed(caseId: Uuid)
      | Opened(caseId: Uuid, runId: Uuid)

  datatype Delivery = Delivery(idempotencyKey: string, eventId: string, request: CaseRequest, progress: Progress)

  /** The handlers at work beside the system. */
  datatype Site = Site(w: World, deliveries: map<Uuid, Delivery>)

  datatype Move =
    | Other(step: Step)
    | Receive(id: Uuid, idempotencyKey: string, eventId: string, request: CaseRequest)
    | Claim(id: Uuid)
    | File(id: Uuid, caseId: Uuid)
    | Open(id: Uuid, runId: Uuid)

  function AtStage(s: Site, id: Uuid, progress: Progress): map<Uuid, Delivery>
    requires id in s.deliveries
  {
    s.deliveries[id := s.deliveries[id].(progress := progress)]
  }

  function Next(s: Site, move: Move): Site {
    match move
    case Other(step) => s.(w := Act(s.w, step))
    case Receive(id, key, eventId, request) =>
      if id in s.deliveries then s
      else s.(deliveries := s.deliveries[id := Delivery(key, eventId, request, Received)])
    case Claim(id) =>
      if id !in s.deliveries || !s.deliveries[id].progress.Received? then s
      else
        var d := s.deliveries[id];
        if d.eventId != d.idempotencyKey then s.(deliveries := AtStage(s, id, Rejected))
        else if d.eventId in s.w.repo.webhooks then s.(deliveries := AtStage(s, id, Duplicate))
        else Site(s.w.(repo := WithWebhook(s.w.repo, d.eventId)), AtStage(s, id, Claimed))
    case File(id, caseId) =>
      if id !in s.deliveries || !s.deliveries[id].progress.Claimed? || caseId in s.w.repo.cases then s
      else
        var request := s.deliveries[id].request;
        Site(Act(s.w, OpenCase(caseId, request, request.tenantId, false)), AtStage(s, id, Filed(caseId)))
    case Open(id, runId) =>
      if id !in s.deliveries || !s.deliveries[id].progress.Filed? || runId in s.w.repo.runs then s
      else
        var d := s.deliveries[id];
        Site(Act(s.w, StartRun(runId, d.progress.caseId, d.request.tenantId)),
            AtStage(s, id, Opened(d.progress.caseId, runId)))
  }

  const FRESH := Site(START, map[])

  function Moves(s: Site, moves: seq<Move>): Site {
    if moves == [] then s else Next(Moves(s, moves[..|moves| - 1]), moves[|moves| - 1])
  }

  /** The delivery has won its event id. */
  predicate Won(s: Site, id: Uuid) {
    id in s.deliveries && (s.deliveries[id].progress.Claimed? || HasCase(s.deliveries[id].progress))
  }

  predicate HasCase(p: Progress) {
    p.Filed? || p.Opened?
  }

  predicate Processed(s: Site, id: Uuid) {
    Won(s, id) || (id in s.deliveries && s.deliveries[id].progress.Duplicate?)
  }

  /** A delivery has filed its own request, and started a first run of that case. */
  ghost predicate OpenedOk(s: Site, id: Uuid) {
    Won(s, id) && HasCase(s.deliveries[id].progress) ==>
      var p := s.deliveries[id].progress;
      && p.caseId in s.w.repo.cases && s.w.repo.cases[p.caseId].request == s.deliveries[id].request
      && (p.Opened? ==>
            p.runId in s.w.repo.runs && s.w.repo.runs[p.runId].caseId == p.caseId
                && s.w.repo.runs[p.runId].replayOf.None?)
  }

  /** Two deliveries that got as far as filing a case filed different ones, and started
      different runs. */
  ghost predicate Apart(s: Site, a: Uuid, b: Uuid) {
    Won(s, a) && Won(s, b) && HasCase(s.deliveries[a].progress) && HasCase(s.deliveries[b].progress) && a != b ==>
      var p, q := s.deliveries[a].progress, s.deliveries[b].progress;
      p.caseId != q.caseId && (p.Opened? && q.Opened? ==> p.runId != q.runId)
  }

  ghost predicate Holders(s: Site) {
    && (forall id | Processed(s, id) :: s.deliveries[id].eventId in s.w.repo.webhooks)
    && (forall e | e in s.w.repo.webhooks :: exists id :: Won(s, id) && s.deliveries[id].eventId == e)
  }

  ghost predicate HeldOnce(s: Site) {
    forall a, b | Won(s, a) && Won(s, b) && s.deliveries[a].eventId == s.deliveries[b].eventId :: a == b
  }

  ghost predicate SiteInv(s: Site) {
    && Inv(s.w)
    && Holders(s) && HeldOnce(s)
    && (forall id :: OpenedOk(s, id))
    && (forall a, b :: Apart(s, a, b))
  }

  lemma ActKeepsWebhooks(w: World, step: Step)
    requires Inv(w)
    ensures Act(w, step).repo.webhooks == w.repo.webhooks
  {
    hide Inv, RunOk, RunNode, Resume, Restart, Record;
    if (step.NodeStep? || step.Approve? || step.CutOff? || step.RecordOutcome?) && step.runId in w.threads {
      RunStepIsOnlyRun(w, step);
    }
  }

  lemma RunStepIsOnlyRun(w: World, step: Step)
    requires Inv(w) && (step.NodeStep? || step.Approve? || step.CutOff? || step.RecordOutcome?)
        && step.runId in w.threads
    ensures Act(w, step) == w || OnlyRun(w, Act(w, step), step.runId)
  {
    hide Inv, RunOk, RunNode, Resume, Restart, Record, OnlyRun;
    var r := step.runId;
    RunIsOk(w, r);
    match step
    case NodeStep(_, input) => Preservation.RunNodeKeeps(w, r, input);
    case Approve(_, approval, tenant) =>
      if w.threads[r].next.Waiting? {
        Preservation.ResumeKeeps(w, r, approval);
      }
    case CutOff(_) => Preservation.RestartKeeps(w, r);
    case RecordOutcome(_, now) => Preservation.RecordKeeps(w, r, now);
  }

  lemma {:induction false} RunKeepsWebhooks(w: World, steps: seq<Step>)
    requires Inv(w)
    ensures Run(w, steps).repo.webhooks == w.repo.webhooks
  {
    hide Inv, Act;
    if steps != [] {
      RunKeepsWebhooks(w, steps[..|steps| - 1]);
      RunKeepsInv(w, steps[..|steps| - 1]);
      ActKeepsWebhooks(Run(w, steps[..|steps| - 1]), steps[|steps| - 1]);
    }
  }

  lemma OtherKeeps(s: Site, step: Step)
    requires SiteInv(s)
    ensures SiteInv(Next(s, Other(step)))
  {
    var s' := Next(s, Other(step));
    hide Inv, Act;
    ActKeepsInv(s.w, step);
    ActKeepsWebhooks(s.w, step);
    ActExtends(s.w, step);
    assert forall id :: Won(s', id) <==> Won(s, id);
    forall id ensures OpenedOk(s', id) {
      assert OpenedOk(s, id);
    }
    forall a, b ensures Apart(s', a, b) {
      assert Apart(s, a, b);
    }
    forall e | e in s'.w.repo.webhooks ensures exists id :: Won(s', id) && s'.deliveries[id].eventId == e {
      var id :| Won(s, id) && s.deliveries[id].eventId == e;
      assert Won(s', id);
    }
  }

  lemma ReceiveKeeps(s: Site, id: Uuid, key: string, eventId: string, request: CaseRequest)
    requires SiteInv(s)
    ensures SiteInv(Next(s, Receive(id, key, eventId, request)))
  {
    hide Inv;
    var s' := Next(s, Receive(id, key, eventId, request));
    assert forall q :: Won(s', q) <==> Won(s, q);
    assert forall q :: Won(s, q) ==> s'.deliveries[q] == s.deliveries[q];
    forall e | e in s'.w.repo.webhooks ensures exists q :: Won(s', q) && s'.deliveries[q].eventId == e {
      var q :| Won(s, q) && s.deliveries[q].eventId == e;
      assert Won(s', q);
    }
    forall q ensures OpenedOk(s', q) {
      assert OpenedOk(s, q);
    }
    forall a, b ensures Apart(s', a, b) {
      assert Apart(s, a, b);
    }
  }

  lemma WebhookKeepsInv(w: World, eventId: string)
    requires Inv(w)
    ensures Inv(w.(repo := WithWebhook(w.repo, eventId)))
  {
    hide RunOk;
    var w' := w.(repo := WithWebhook(w.repo, eventId));
    GrowsKeepsRuns(w, w');
    LedgerOwnedKept(w, w');
    OrderSame(w, w');
  }

  /** A claim decides about its own delivery... */
  lemma ClaimDecides(s: Site, id: Uuid)
    requires id in s.deliveries && s.deliveries[id].progress.Received?
    ensures
      var s', e := Next(s, Claim(id)), s.deliveries[id].eventId;
      && s'.w.repo.cases == s.w.repo.cases && s'.w.repo.runs == s.w.repo.runs
      && id in s'.deliveries && s'.deliveries[id].eventId == e && !HasCase(s'.deliveries[id].progress)
      && (Won(s', id) ==> e !in s.w.repo.webhooks)
      && s'.w.repo.webhooks == (if Won(s', id) then s.w.repo.webhooks + {e} else s.w.repo.webhooks)
      && (Processed(s', id) ==> e in s'.w.repo.webhooks)
  {
  }

  /** ... and touches no other. */
  lemma ClaimFrame(s: Site, id: Uuid)
    requires id in s.deliveries && s.deliveries[id].progress.Received?
    ensures
      var s' := Next(s, Claim(id));
      && s'.deliveries.Keys == s.deliveries.Keys
      && (forall q | q in s.deliveries && q != id :: s'.deliveries[q] == s.deliveries[q])
      && !Won(s, id) && !Processed(s, id)
  {
    hide Act;
  }

  lemma ClaimOthers(s: Site, s': Site, id: Uuid)
    requires s'.deliveries.Keys == s.deliveries.Keys
    requires forall q | q in s.deliveries && q != id :: s'.deliveries[q] == s.deliveries[q]
    ensures forall q | q != id :: (Won(s', q) <==> Won(s, q)) && (Processed(s', q) <==> Processed(s, q))
  {
  }

  lemma ClaimKeeps(s: Site, id: Uuid)
    requires SiteInv(s)
    ensures SiteInv(Next(s, Claim(id)))
  {
    hide Inv, Holders, HeldOnce, OpenedOk, Apart, Won;
    if id in s.deliveries && s.deliveries[id].progress.Received? {
      ClaimKeepsInv(s, id);
      ClaimHolders(s, id);
      hide Next;
      forall q ensures OpenedOk(Next(s, Claim(id)), q) {
        ClaimOpensNothing(s, id, q);
      }
      forall a, b ensures Apart(Next(s, Claim(id)), a, b) {
        ClaimKeepsApart(s, id, a, b);
      }
    }
  }

  lemma ClaimKeepsInv(s: Site, id: Uuid)
    requires Inv(s.w) && id in s.deliveries && s.deliveries[id].progress.Received?
    ensures Inv(Next(s, Claim(id)).w)
  {
    hide Inv;
    WebhookKeepsInv(s.w, s.deliveries[id].eventId);
  }

  lemma ClaimOpensNothing(s: Site, id: Uuid, q: Uuid)
    requires id in s.deliveries && s.deliveries[id].progress.Received? && OpenedOk(s, q)
    ensures OpenedOk(Next(s, Claim(id)), q)
  {
    hide Next;
    ClaimDecides(s, id);
    ClaimFrame(s, id);
  }

  lemma ClaimKeepsApart(s: Site, id: Uuid, a: Uuid, b: Uuid)
    requires id in s.deliveries && s.deliveries[id].progress.Received? && Apart(s, a, b)
    ensures Apart(Next(s, Claim(id)), a, b)
  {
    hide Next;
    ClaimDecides(s, id);
    ClaimFrame(s, id);
  }

  /** The claimed event ids are those of the winners, each with one winner. */
  lemma ClaimHolders(s: Site, id: Uuid)
    requires Holders(s) && HeldOnce(s)
    requires id in s.deliveries && s.deliveries[id].progress.Received?
    ensures Holders(Next(s, Claim(id))) && HeldOnce(Next(s, Claim(id)))
  {
    var s' := Next(s, Claim(id));
    ClaimDecides(s, id);
    ClaimFrame(s, id);
    hide Next;
    ClaimOthers(s, s', id);
    WonIsProcessed(s);
    hide Won, Processed;
    forall e | e in s'.w.repo.webhooks ensures exists q :: Won(s', q) && s'.deliveries[q].eventId == e {
      if e in s.w.repo.webhooks {
        var q :| Won(s, q) && s.deliveries[q].eventId == e;
        assert Won(s', q);
      } else {
        assert Won(s', id);
      }
    }
    forall a, b | Won(s', a) && Won(s', b) && s'.deliveries[a].eventId == s'.deliveries[b].eventId ensures a == b {
      assert a != id ==> Won(s, a) && Processed(s, a);
      assert b != id ==> Won(s, b) && Processed(s, b);
    }
  }

  lemma WonIsProcessed(s: Site)
    ensures forall q | Won(s, q) :: Processed(s, q) && q in s.deliveries
    ensures forall q | Processed(s, q) :: q in s.deliveries
  {
  }

  /** What filing a case adds to the world. */
  lemma FileWorld(w: World, caseId: Uuid, request: CaseRequest)
    requires Inv(w) && caseId !in w.repo.cases
    ensures
      var w' := Act(w, OpenCase(caseId, request, request.tenantId, false));
      && Inv(w') && w'.repo.webhooks == w.repo.webhooks && Extends(w, w')
      && caseId in w'.repo.cases && w'.repo.cases[caseId].request == request
  {
    hide Inv, Extends, DoneFrozen;
    var step := OpenCase(caseId, request, request.tenantId, false);
    ActKeepsInv(w, step);
    ActExtends(w, step);
  }

  /** What starting its first run adds. */
  lemma OpenWorld(w: World, caseId: Uuid, runId: Uuid)
    requires Inv(w) && caseId in w.repo.cases && runId !in w.repo.runs
    ensures
      var w' := Act(w, StartRun(runId, caseId, w.repo.cases[caseId].request.tenantId));
      && Inv(w') && w'.repo.webhooks == w.repo.webhooks && Extends(w, w')
      && runId in w'.repo.runs && w'.repo.runs[runId].caseId == caseId && w'.repo.runs[runId].replayOf.None?
  {
    hide Inv, Extends, DoneFrozen;
    var step := StartRun(runId, caseId, w.repo.cases[caseId].request.tenantId);
    ActKeepsInv(w, step);
    ActExtends(w, step);
  }

  /** A delivery that goes on has won before and after, and the others are where they were. */
  lemma GoesOn(s: Site, s': Site, id: Uuid)
    requires Holders(s) && HeldOnce(s) && Won(s, id) && s'.w.repo.webhooks == s.w.repo.webhooks
    requires Won(s', id) && s'.deliveries == AtStage(s, id, s'.deliveries[id].progress)
    ensures Holders(s') && HeldOnce(s')
    ensures forall q :: Won(s', q) <==> Won(s, q)
  {
    hide Holders, HeldOnce;
    SameHolders(s, s');
  }

  lemma FileKeeps(s: Site, id: Uuid, caseId: Uuid)
    requires SiteInv(s)
    ensures SiteInv(Next(s, File(id, caseId)))
  {
    hide Inv, Act;
    var s' := Next(s, File(id, caseId));
    if id in s.deliveries && s.deliveries[id].progress.Claimed? && caseId !in s.w.repo.cases {
      FileWorld(s.w, caseId, s.deliveries[id].request);
      GoesOn(s, s', id);
      hide Holders, HeldOnce, Won;
      forall q ensures OpenedOk(s', q) {
        assert OpenedOk(s, q);
      }
      forall a, b ensures Apart(s', a, b) {
        assert Apart(s, a, b) && OpenedOk(s, a) && OpenedOk(s, b);
      }
    }
  }

  lemma OpenKeeps(s: Site, id: Uuid, runId: Uuid)
    requires SiteInv(s)
    ensures SiteInv(Next(s, Open(id, runId)))
  {
    hide Inv, Act, OpenedOk, Apart;
    var s' := Next(s, Open(id, runId));
    if id in s.deliveries && s.deliveries[id].progress.Filed? && runId !in s.w.repo.runs {
      FiledCase(s, id);
      OpenWorld(s.w, s.deliveries[id].progress.caseId, runId);
      GoesOn(s, s', id);
      hide Holders, HeldOnce, Next;
      forall q ensures OpenedOk(s', q) {
        OpenKeepsOpened(s, id, runId, q);
      }
      forall a, b ensures Apart(s', a, b) {
        OpenKeepsApart(s, id, runId, a, b);
      }
    }
  }

  lemma FiledCase(s: Site, id: Uuid)
    requires id in s.deliveries && s.deliveries[id].progress.Filed? && OpenedOk(s, id)
    ensures s.deliveries[id].progress.caseId in s.w.repo.cases
    ensures s.w.repo.cases[s.deliveries[id].progress.caseId].request == s.deliveries[id].request
  {
  }

  lemma OpenKeepsOpened(s: Site, id: Uuid, runId: Uuid, q: Uuid)
    requires Inv(s.w) && OpenedOk(s, id) && OpenedOk(s, q)
    requires id in s.deliveries && s.deliveries[id].progress.Filed? && runId !in s.w.repo.runs
    ensures OpenedOk(Next(s, Open(id, runId)), q)
  {
    hide Inv, Act;
    OpenWorld(s.w, s.deliveries[id].progress.caseId, runId);
  }

  lemma OpenKeepsApart(s: Site, id: Uuid, runId: Uuid, a: Uuid, b: Uuid)
    requires OpenedOk(s, a) && OpenedOk(s, b) && Apart(s, a, b)
    requires id in s.deliveries && s.deliveries[id].progress.Filed? && runId !in s.w.repo.runs
    ensures Apart(Next(s, Open(id, runId)), a, b)
  {
    hide Act;
  }

  lemma SameHolders(s: Site, s': Site)
    requires Holders(s) && HeldOnce(s) && s'.w.repo.webhooks == s.w.repo.webhooks
    requires forall q :: Won(s', q) <==> Won(s, q)
    requires forall q :: Processed(s', q) <==> Processed(s, q)
    requires forall q | Processed(s, q) :: q in s'.deliveries && s'.deliveries[q].eventId == s.deliveries[q].eventId
    ensures Holders(s') && HeldOnce(s')
  {
    forall e | e in s'.w.repo.webhooks ensures exists q :: Won(s', q) && s'.deliveries[q].eventId == e {
      var q :| Won(s, q) && s.deliveries[q].eventId == e;
      assert Won(s', q) && Processed(s, q);
    }
    forall a, b | Won(s', a) && Won(s', b) && s'.deliveries[a].eventId == s'.deliveries[b].eventId ensures a == b {
      assert Processed(s, a) && Processed(s, b);
    }
  }

  lemma {:induction false} MovesKeep(s: Site, moves: seq<Move>)
    requires SiteInv(s)
    ensures SiteInv(Moves(s, moves))
  {
    hide SiteInv, Next;
    if moves != [] {
      var before, move := Moves(s, moves[..|moves| - 1]), moves[|moves| - 1];
      MovesKeep(s, moves[..|moves| - 1]);
      match move
      case Other(step) => OtherKeeps(before, step);
      case Receive(id, key, eventId, request) => ReceiveKeeps(before, id, key, eventId, request);
      case Claim(id) => ClaimKeeps(before, id);
      case File(id, caseId) => FileKeeps(before, id, caseId);
      case Open(id, runId) => OpenKeeps(before, id, runId);
    }
  }

  // ----- Which deliveries get through -----

  /** Deliveries whose header differs from their event id are refused, and only those. */
  ghost predicate Screened(s: Site) {
    forall id | id in s.deliveries ::
      var d := s.deliveries[id];
      d.progress.Received? || (d.progress.Rejected? <==> d.eventId != d.idempotencyKey)
  }

  lemma NextScreens(s: Site, move: Move)
    requires Screened(s)
    ensures Screened(Next(s, move))
  {
    hide Act;
  }

  lemma {:induction false} MovesScreen(moves: seq<Move>)
    ensures Screened(Moves(FRESH, moves))
  {
    hide Next;
    if moves != [] {
      MovesScreen(moves[..|moves| - 1]);
      NextScreens(Moves(FRESH, moves[..|moves| - 1]), moves[|moves| - 1]);
    }
  }

  /** A claim, case by case: differing ids are refused and change nothing; a claimed event is a
      duplicate and changes nothing; any other delivery wins, and its event is claimed. */
  lemma ClaimOutcome(s: Site, id: Uuid)
    requires id in s.deliveries && s.deliveries[id].progress.Received?
    ensures
      var s', d := Next(s, Claim(id)), s.deliveries[id];
      && id in s'.deliveries
      && if d.eventId != d.idempotencyKey then s'.deliveries[id] == d.(progress := Rejected) && s'.w == s.w
         else if d.eventId in s.w.repo.webhooks then s'.deliveries[id] == d.(progress := Duplicate) && s'.w == s.w
         else
           && s'.deliveries[id] == d.(progress := Claimed)
           && s'.w == s.w.(repo := s.w.repo.(webhooks := s.w.repo.webhooks + {d.eventId}))
  {
  }

  /** A first delivery with equal ids, moved on undisturbed and its run driven to its pause or
      end and recorded, does just what the handler does in one go: claim, file, start. */
  lemma DeliveryIsTheHandler(s: Site, id: Uuid, caseId: Uuid, runId: Uuid, input: NodeInput)
    requires Inv(s.w) && id in s.deliveries && s.deliveries[id].progress.Received?
    requires s.deliveries[id].eventId == s.deliveries[id].idempotencyKey
    requires s.deliveries[id].eventId !in s.w.repo.webhooks && caseId !in s.w.repo.cases && runId !in s.w.repo.runs
    ensures
      var d, s' := s.deliveries[id], Next(Next(Next(s, Claim(id)), File(id, caseId)), Open(id, runId));
      var claimed := s.w.(repo := WithWebhook(s.w.repo, d.eventId));
      var filed := Act(claimed, OpenCase(caseId, d.request, d.request.tenantId, false));
      && id in s'.deliveries && s'.deliveries[id].progress == Opened(caseId, runId)
      && StartError(filed, caseId, d.request.tenantId).None? && runId in s'.w.threads
      && runId in Drive(s'.w, runId, input).threads
      && Record(Drive(s'.w, runId, input), runId, input.recordedAt) ==
         StartCall(filed, runId, caseId, d.request.tenantId, None, input)
  {
    hide Inv, Drive, Record, RunNode, Resume, Restart, LeadsTo;
    var d := s.deliveries[id];
    var claimed := s.w.(repo := WithWebhook(s.w.repo, d.eventId));
    WebhookKeepsInv(s.w, d.eventId);
    var step := OpenCase(caseId, d.request, d.request.tenantId, false);
    ActKeepsInv(claimed, step);
    StartOutcome(Act(claimed, step), runId, caseId, d.request.tenantId, None, input);
  }

  // ----- At most once per event -----

  function Winners(s: Site): set<Uuid> {
    set id | id in s.deliveries && Won(s, id)
  }

  function ProcessedEvents(s: Site): set<string> {
    set id | id in s.deliveries && Processed(s, id) :: s.deliveries[id].eventId
  }

  lemma {:induction false} DistinctEvents(s: Site, ids: set<Uuid>)
    requires forall id | id in ids :: id in s.deliveries
    requires forall a, b | a in ids && b in ids && s.deliveries[a].eventId == s.deliveries[b].eventId :: a == b
    ensures |set id | id in ids && id in s.deliveries :: s.deliveries[id].eventId| == |ids|
  {
    if ids != {} {
      var a :| a in ids;
      DistinctEvents(s, ids - {a});
      var rest := set id | id in ids - {a} && id in s.deliveries :: s.deliveries[id].eventId;
      assert s.deliveries[a].eventId !in rest;
      assert (set id | id in ids && id in s.deliveries :: s.deliveries[id].eventId) == rest + {s.deliveries[a].eventId};
    }
  }

  /** Over any deliveries in any interleaving: exactly one claim wins for every distinct event
      id processed, so there are as many wins as distinct ids, and each id leads to at most
      one case and one run. */
  lemma EachEventOnce(moves: seq<Move>)
    ensures
      var s := Moves(FRESH, moves);
      && ProcessedEvents(s) == s.w.repo.webhooks
      && |Winners(s)| == |ProcessedEvents(s)|
      && (forall a, b | Won(s, a) && Won(s, b) && s.deliveries[a].eventId == s.deliveries[b].eventId :: a == b)
      && (forall a, b :: Apart(s, a, b))
      && (forall id :: OpenedOk(s, id))
      && Screened(s)
  {
    MovesScreen(moves);
    hide Next, Inv, Screened;
    assert SiteInv(FRESH) by {
      Reachable([]);
    }
    MovesKeep(FRESH, moves);
    hide Moves, OpenedOk, Apart;
    WinnersCounted(Moves(FRESH, moves));
  }

  lemma WinnersCounted(s: Site)
    requires SiteInv(s)
    ensures ProcessedEvents(s) == s.w.repo.webhooks && |Winners(s)| == |ProcessedEvents(s)|
  {
    hide Inv, OpenedOk, Apart;
    DistinctEvents(s, Winners(s));
    var won := set id | id in Winners(s) && id in s.deliveries :: s.deliveries[id].eventId;
    forall e ensures e in won <==> e in s.w.repo.webhooks {
      if e in s.w.repo.webhooks {
        var id :| Won(s, id) && s.deliveries[id].eventId == e;
        assert id in Winners(s);
      }
      if e in won {
        var id :| id in Winners(s) && s.deliveries[id].eventId == e;
        assert Processed(s, id);
      }
    }
    assert won == s.w.repo.webhooks;
    forall e ensures e in ProcessedEvents(s) <==> e in s.w.repo.webhooks {
      if e in s.w.repo.webhooks {
        var id :| Won(s, id) && s.deliveries[id].eventId == e;
        assert Processed(s, id);
      }
    }
    assert ProcessedEvents(s) == s.w.repo.webhooks;
  }
}
