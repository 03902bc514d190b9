/** The audit log of a run whose execution was cut off and started over, any number of times:
    still a word of a fixed grammar, with one round of retries for each start. */
module Cuts {
  import opened Domain
  import opened Gateway
  import opened Repository
  import opened Protocol
  import opened Invariant
  import opened Preservation
  import opened System
  import opened Theorems
  import opened Audit
  import opened History
  import Policy
  import Webhooks

  // ----- The grammar -----

  /** What one start of the execution writes: at most three retries, and the effect if it got
      that far. */
  ghost predicate Round(word: seq<Kind>) {
    exists j: nat :: j <= 3 && (word == Retries(j) || word == Retries(j) + [Effect])
  }

  ghost predicate Rounds(word: seq<Kind>, n: nat)
    decreases n
  {
    if n == 0 then word == []
    else exists k :: 0 <= k <= |word| && Rounds(word[..k], n - 1) && Round(word[k..])
  }

  /** An approved run with so many rounds cut off, and what the current one has written. */
  ghost predicate Body(word: seq<Kind>, cuts: nat, current: seq<Kind>) {
    exists before :: Rounds(before, cuts) && word == APPROVED + before + current
  }

  /** The same, the last round being at most three retries and then the tail. */
  ghost predicate Tail(word: seq<Kind>, cuts: nat, tail: seq<Kind>) {
    exists j: nat :: j <= 3 && Body(word, cuts, Retries(j) + tail)
  }

  /** What the current round has written, by where the run is. */
  ghost predicate Current(t: Thread, current: seq<Kind>) {
    match t.next
    case Retrying(k, _, _) => 1 <= k <= 3 && current == Retries(k - 1)
    case Settling(_, _) => exists j: nat :: j <= 3 && current == Retries(j)
    case _ => exists j: nat :: j <= 3 && current == Retries(j) + if t.state.receipt.Some? then [Effect] else []
  }

  ghost predicate WordOk(t: Thread, word: seq<Kind>) {
    match t.next
    case Ready(n) =>
      (match n
       case IdempotentExecution => true
       case OutcomeVerification => exists c :: Current(t, c) && Body(word, t.restarts, c)
       case AuditClosure => Tail(word, t.restarts, [Effect, Verification])
       case BlockedClosure => (t.restarts == 0 && (word == TRUNK || word == RESUMED)) || Tail(word, t.restarts, [])
       case _ => t.restarts == 0 && word == TRUNK[..TrunkIndex(n)])
    case Retrying(_, _, _) => exists c :: Current(t, c) && Body(word, t.restarts, c)
    case Settling(_, _) => exists c :: Current(t, c) && Body(word, t.restarts, c)
    case Suspended => t.restarts == 0 && word == TRUNK + [Pause]
    case Waiting => t.restarts == 0 && word == TRUNK + [Pause]
    case Ended => EndOk(t, word)
    case Done => EndOk(t, word)
    case Raised => true
  }

  ghost predicate EndOk(t: Thread, word: seq<Kind>) {
    if t.state.currentNode == Some(AuditClosure) then Tail(word, t.restarts, [Effect, Verification, Closure])
    else (t.restarts == 0 && (word == TRUNK + [Stop] || word == RESUMED + [Stop])) || Tail(word, t.restarts, [Stop])
  }

  // ----- Words that grow -----

  lemma BodyGrows(word: seq<Kind>, cuts: nat, current: seq<Kind>, k: Kind)
    requires Body(word, cuts, current)
    ensures Body(word + [k], cuts, current + [k])
  {
    hide Rounds;
    var before :| Rounds(before, cuts) && word == APPROVED + before + current;
    assert word + [k] == APPROVED + before + (current + [k]);
  }

  lemma TailGrows(word: seq<Kind>, cuts: nat, tail: seq<Kind>, k: Kind)
    requires Tail(word, cuts, tail)
    ensures Tail(word + [k], cuts, tail + [k])
  {
    hide Body;
    var j: nat :| j <= 3 && Body(word, cuts, Retries(j) + tail);
    BodyGrows(word, cuts, Retries(j) + tail, k);
    assert Retries(j) + tail + [k] == Retries(j) + (tail + [k]);
  }

  /** An approval just taken up: no round yet. */
  lemma JustApproved()
    ensures Body(APPROVED, 0, Retries(0)) && Tail(APPROVED, 0, [])
  {
    assert Rounds([], 0) && APPROVED == APPROVED + [] + [] && Retries(0) == [] && Retries(0) + [] == [];
    assert Body(APPROVED, 0, Retries(0) + []);
  }

  /** A cut closes the current round and opens an empty one. */
  lemma CutBody(word: seq<Kind>, cuts: nat, current: seq<Kind>)
    requires Body(word, cuts, current) && Round(current)
    ensures Body(word, cuts + 1, Retries(0))
  {
    hide Round;
    var before :| Rounds(before, cuts) && word == APPROVED + before + current;
    var longer := before + current;
    assert longer[..|before|] == before && longer[|before|..] == current;
    assert Rounds(longer, cuts + 1);
    hide Rounds;
    assert word == APPROVED + longer + [];
  }

  lemma CurrentIsRound(t: Thread, current: seq<Kind>)
    requires Current(t, current) && InExecution(t.next)
    ensures Round(current)
  {
    if !t.next.Retrying? {
      var j: nat :| j <= 3 && (current == Retries(j) || current == Retries(j) + [Effect]
          || current == Retries(j) + []);
      assert Retries(j) + [] == Retries(j);
    }
  }

  // ----- One step of a run -----

  ghost predicate LogWord(w: World, r: Uuid) {
    r in w.threads && WordOk(w.threads[r], Kinds(GetOr(w.repo.events, r, [])))
  }

  function WordOf(w: World, r: Uuid): seq<Kind> {
    Kinds(GetOr(w.repo.events, r, []))
  }

  lemma Written(w: World, r: Uuid, e: Event, pc: Pc, s: WorkflowState)
    requires r in w.threads && WordOk(w.threads[r].(next := pc, state := s), WordOf(w, r) + KindOf(e))
    ensures LogWord(Goto(Emit(w, r, e), r, pc, s), r)
  {
    hide WordOk, KindOf;
    var log := GetOr(w.repo.events, r, []);
    assert (log + [e])[..|log|] == log;
  }

  lemma TrunkWrites(w: World, r: Uuid, input: NodeInput)
    requires LogWord(w, r) && RunOk(w, r) && w.threads[r].next.Ready?
    requires w.threads[r].next.node in {IntakeValidation, RecordCollection, PolicyRetrieval, FreshnessChecks,
        PolicyDecision}
    ensures LogWord(RunNode(w, r, input), r)
  {
    hide RunOk;
    NoRaise(w, r);
    hide Policy.Decide, CollectRecords, CheckClaims, ActionFor, WithEvent, Kinds, Tail, Rounds;
    var k := TrunkIndex(w.threads[r].next.node);
    assert TRUNK[..k + 1] == TRUNK[..k] + [TRUNK[k]];
    var s, word := w.threads[r].state, WordOf(w, r);
    match w.threads[r].next.node
    case IntakeValidation => Written(w, r, RequestValidated, Ready(RecordCollection),
        s.(currentNode := Some(IntakeValidation)));
    case RecordCollection =>
      var records := CollectRecords(w.tools, s.request, input.collectedAt);
      Written(w, r, RecordsCollected(SourcesOf(records)), Ready(PolicyRetrieval),
              s.(currentNode := Some(RecordCollection), evidence := Some(records)));
    case PolicyRetrieval =>
      Written(w, r, PoliciesRetrieved(PolicyIds(input.policies)), Ready(FreshnessChecks),
              s.(currentNode := Some(PolicyRetrieval), policies := Some(input.policies)));
    case FreshnessChecks =>
      Written(w, r, ChecksEvaluated(|Evidence(s)|), Ready(PolicyDecision), s.(currentNode := Some(FreshnessChecks)));
    case PolicyDecision =>
      var decision := Policy.Decide(s.request, Evidence(s), s.authenticatedTenant, input.decidedAt);
      Written(w, r, DecisionEvaluated(decision.allowed, decision.reasonCodes), Ready(LlmRecommendation),
              s.(currentNode := Some(PolicyDecision), decision := Some(decision)));
  }

  lemma RecommendWrites(w: World, r: Uuid, answer: Recommendation)
    requires LogWord(w, r) && RunOk(w, r) && w.threads[r].next == Ready(LlmRecommendation)
    ensures LogWord(Recommend(w, r, answer), r)
  {
    hide RunOk, CheckClaims, ActionFor, WithEvent, Kinds, Tail, Rounds;
    NoRaise(w, r);
    assert TRUNK[..5] + [Recommended] == TRUNK && TRUNK[..6] == TRUNK;
    var s := w.threads[r].state;
    var rec := CheckClaims(answer, s.policies.value);
    var action := ActionFor(r, s.request, w.repo.runs[r].caseId, rec.rationale);
    Written(w, r, RecommendationBound(|rec.unsupportedClaims|), Ready(AfterRecommendation(s.decision.value, rec)),
            s.(currentNode := Some(LlmRecommendation), recommendation := Some(rec), proposedAction := Some(action)));
  }

  lemma InterruptWrites(w: World, r: Uuid)
    requires LogWord(w, r) && RunOk(w, r) && w.threads[r].next == Ready(HumanInterrupt)
    ensures LogWord(Interrupt(w, r), r)
  {
    hide RunOk, WithEvent, Kinds, Tail, Rounds;
    NoRaise(w, r);
    assert TRUNK[..6] == TRUNK;
    Written(w, r, PauseEvent(w.threads[r].state.proposedAction.value), Suspended, w.threads[r].state);
  }

  /** What a run has in hand that its next event depends on. */
  lemma NoRaise(w: World, r: Uuid)
    requires RunOk(w, r)
    ensures Known(w, r)
    ensures
      var t := w.threads[r];
      && t.state.request.tenantId == t.state.authenticatedTenant && t.next != Raised
      && (t.next == Ready(LlmRecommendation) ==> t.state.decision.Some? && t.state.policies.Some?)
      && (t.next in {Ready(HumanInterrupt), Waiting} || t.next.Retrying? ==> t.state.proposedAction.Some?)
      && (t.next == Ready(BlockedClosure) ==> t.state.decision.Some?)
      && (t.next.Settling? ==> t.state.receipt.None?)
      && (t.next == Ready(OutcomeVerification) && t.state.receipt.Some? ==>
            t.state.blockedReason.None? && Holds(t.state.receipt)
            && t.state.receipt.value.response.Some? && t.state.receipt.value.response.value.verified)
  {
    hide Scan, Grounded, KeyFor, AuditOk;
  }

  lemma AttemptWrites(w: World, r: Uuid, effectId: Uuid)
    requires LogWord(w, r) && RunOk(w, r) && w.threads[r].next.Retrying?
    ensures LogWord(Attempt(w, r, effectId), r)
  {
    hide RunOk, Answer, AfterExecute, Status, WithEvent, Kinds, Body;
    NoRaise(w, r);
    var s, pc, word := w.threads[r].state, w.threads[r].next, WordOf(w, r);
    var action := s.proposedAction.value;
    var current :| Current(w.threads[r], current) && Body(word, w.threads[r].restarts, current);
    var w1 := w.(tools := AfterExecute(w.tools, action, effectId));
    match Answer(w.tools, action, effectId)
    case Answered(receipt) =>
      assert Current(w.threads[r].(next := Settling(Some(receipt), pc.lastError)), current);
    case Failed(failure) =>
      var lookUp := action.irreversible || failure.committed;
      var receipt := if lookUp then Some(Status(w1.tools, action.idempotencyKey)) else pc.receipt;
      var next := AfterFailure(pc.attempt, lookUp, receipt, failure);
      BodyGrows(word, w.threads[r].restarts, current, Retry(pc.attempt));
      assert current + [Retry(pc.attempt)] == Retries(pc.attempt);
      assert Current(w.threads[r].(next := next), current + [Retry(pc.attempt)]);
      Written(w1, r, ToolFailureClassified(pc.attempt, failure), next, s);
  }

  lemma SettleWrites(w: World, r: Uuid)
    requires LogWord(w, r) && RunOk(w, r) && w.threads[r].next.Settling?
    ensures LogWord(Settle(w, r), r)
  {
    hide RunOk, WithEvent, Kinds, Body;
    NoRaise(w, r);
    var t, word := w.threads[r], WordOf(w, r);
    var current :| Current(t, current) && Body(word, t.restarts, current);
    var j: nat :| j <= 3 && current == Retries(j);
    if Holds(t.next.receipt) {
      var receipt := t.next.receipt.value;
      var w1 := w.(repo := WithReceipt(w.repo, r, receipt));
      BodyGrows(word, t.restarts, current, Effect);
      SettledReceipt(w, r, current + [Effect]);
    } else {
      assert current == Retries(j) + [];
      SettledWithout(w, r, current);
    }
  }

  lemma SettledReceipt(w: World, r: Uuid, current: seq<Kind>)
    requires r in w.threads && w.threads[r].next.Settling? && Holds(w.threads[r].next.receipt)
    requires exists j: nat :: j <= 3 && current == Retries(j) + [Effect]
    requires Body(WordOf(w, r) + [Effect], w.threads[r].restarts, current)
    ensures LogWord(Settle(w, r), r)
  {
    hide WithEvent, Kinds, Body;
    var s, receipt := w.threads[r].state, w.threads[r].next.receipt.value;
    var s' := s.(currentNode := Some(IdempotentExecution), receipt := Some(receipt),
                 retryCount := if receipt.attemptCount > 0 then receipt.attemptCount - 1 else 0);
    assert Current(w.threads[r].(next := Ready(OutcomeVerification), state := s'), current);
    Written(w.(repo := WithReceipt(w.repo, r, receipt)), r,
            ReceiptCommitted(receipt.status, receipt.effectId, receipt.attemptCount), Ready(OutcomeVerification), s');
  }

  lemma SettledWithout(w: World, r: Uuid, current: seq<Kind>)
    requires r in w.threads && w.threads[r].next.Settling? && !Holds(w.threads[r].next.receipt)
    requires w.threads[r].state.receipt.None?
    requires exists j: nat :: j <= 3 && current == Retries(j) + []
    requires Body(WordOf(w, r), w.threads[r].restarts, current)
    ensures LogWord(Settle(w, r), r)
  {
    hide Kinds, Body;
    assert Current(Settle(w, r).threads[r], current);
  }

  lemma VerifyWrites(w: World, r: Uuid)
    requires LogWord(w, r) && RunOk(w, r) && w.threads[r].next == Ready(OutcomeVerification)
    ensures LogWord(Verify(w, r), r)
  {
    hide RunOk, WithEvent, Kinds, Body;
    NoRaise(w, r);
    var t, word := w.threads[r], WordOf(w, r);
    var current :| Current(t, current) && Body(word, t.restarts, current);
    var j: nat :| j <= 3 && current == Retries(j) + if t.state.receipt.Some? then [Effect] else [];
    if t.state.receipt.Some? {
      BodyGrows(word, t.restarts, current, Verification);
      assert current + [Verification] == Retries(j) + [Effect, Verification];
      Written(w, r, OutcomeChecked(true), Ready(AuditClosure),
              t.state.(outcomeVerified := true, currentNode := Some(OutcomeVerification)));
    } else {
      assert Tail(word, t.restarts, []);
    }
  }

  lemma CloseWrites(w: World, r: Uuid)
    requires LogWord(w, r) && w.threads[r].next == Ready(AuditClosure)
    ensures LogWord(Close(w, r), r)
  {
    hide WithEvent, Kinds, Tail;
    TailGrows(WordOf(w, r), w.threads[r].restarts, [Effect, Verification], Closure);
    assert [Effect, Verification] + [Closure] == [Effect, Verification, Closure];
    Written(w, r, RunClosed, Ended, w.threads[r].state.(currentNode := Some(AuditClosure)));
  }

  lemma BlockWrites(w: World, r: Uuid)
    requires LogWord(w, r) && RunOk(w, r) && w.threads[r].next == Ready(BlockedClosure)
    ensures LogWord(Block(w, r), r)
  {
    hide RunOk, WithEvent, Kinds, Tail;
    NoRaise(w, r);
    var s := w.threads[r].state;
    var reason := if s.blockedReason.Some? then s.blockedReason.value else DecisionCodes(s.decision.value.reasonCodes);
    if Tail(WordOf(w, r), w.threads[r].restarts, []) {
      TailGrows(WordOf(w, r), w.threads[r].restarts, [], Stop);
      assert [] + [Stop] == [Stop];
    }
    Written(w, r, RunStopped(reason), Ended, s.(currentNode := Some(BlockedClosure), blockedReason := Some(reason)));
  }

  lemma NodeWrites(w: World, r: Uuid, input: NodeInput)
    requires LogWord(w, r) && RunOk(w, r)
    ensures LogWord(RunNode(w, r, input), r)
  {
    hide RunOk, Recommend, Interrupt, Attempt, Settle, Verify, Close, Block, WordOk, Kinds;
    NoRaise(w, r);
    match w.threads[r].next
    case Ready(n) =>
      match n {
        case LlmRecommendation => RecommendWrites(w, r, input.recommendation);
        case HumanInterrupt => InterruptWrites(w, r);
        case IdempotentExecution =>
        case OutcomeVerification => VerifyWrites(w, r);
        case AuditClosure => CloseWrites(w, r);
        case BlockedClosure => BlockWrites(w, r);
        case _ => TrunkWrites(w, r, input);
      }
    case Retrying(k, _, _) => AttemptWrites(w, r, IdAt(input.effectIds, k));
    case Settling(_, _) => SettleWrites(w, r);
    case _ =>
  }

  lemma ResumeWrites(w: World, r: Uuid, approval: Approval)
    requires LogWord(w, r) && RunOk(w, r) && w.threads[r].next == Waiting
    ensures LogWord(Resume(w, r, approval), r)
  {
    hide RunOk, Kinds, Body, Tail;
    NoRaise(w, r);
    JustApproved();
    var s, log := w.threads[r].state, GetOr(w.repo.events, r, []);
    var pause := PauseEvent(s.proposedAction.value);
    var note := ApprovalRecorded(approval.approved, approval.actorId);
    KindsOfTwo(log, pause, note);
    assert WordOf(w, r) + [Pause] == RESUMED && RESUMED + [ApprovalNote] == APPROVED;
    if approval.proposedActionHash == Digest(s.proposedAction.value) {
      assert GetOr(Resume(w, r, approval).repo.events, r, []) == log + [pause] + [note];
      assert approval.approved ==> Current(Resume(w, r, approval).threads[r], Retries(0));
    } else {
      assert GetOr(Resume(w, r, approval).repo.events, r, []) == log + [pause];
    }
  }

  lemma KindsOfTwo(log: seq<Event>, a: Event, b: Event)
    ensures Kinds(log + [a]) == Kinds(log) + KindOf(a)
    ensures Kinds(log + [a] + [b]) == Kinds(log) + KindOf(a) + KindOf(b)
  {
    assert (log + [a])[..|log|] == log && (log + [a] + [b])[..|log| + 1] == log + [a];
  }

  lemma RestartWrites(w: World, r: Uuid)
    requires LogWord(w, r)
    ensures LogWord(Restart(w, r), r)
  {
    hide Kinds, Body, Round;
    var t := w.threads[r];
    if InExecution(t.next) {
      var current :| Current(t, current) && Body(WordOf(w, r), t.restarts, current);
      CurrentIsRound(t, current);
      CutBody(WordOf(w, r), t.restarts, current);
      assert Current(Restart(w, r).threads[r], Retries(0));
    }
  }

  lemma RecordWrites(w: World, r: Uuid, now: int)
    requires LogWord(w, r)
    ensures LogWord(Record(w, r, now), r)
  {
    hide Kinds, Tail;
  }

  // ----- The whole system -----

  ghost predicate Words(w: World) {
    forall r | r in w.threads :: LogWord(w, r)
  }

  lemma SameLogSameWord(w: World, w': World, r: Uuid)
    requires LogWord(w, r) && r in w'.threads && w'.threads[r] == w.threads[r] && WordOf(w', r) == WordOf(w, r)
    ensures LogWord(w', r)
  {
  }

  lemma OneRunWrites(w: World, w': World, r: Uuid)
    requires Words(w) && OnlyRun(w, w', r) && LogWord(w', r)
    ensures Words(w')
  {
    hide LogWord;
    forall q | q in w'.threads ensures LogWord(w', q) {
      if q != r {
        assert Find(w'.repo.events, q) == Find(w.repo.events, q);
        SameLogSameWord(w, w', q);
      }
    }
  }

  lemma RunStepWrites(w: World, step: Step)
    requires Inv(w) && Words(w)
    requires (step.NodeStep? || step.Approve? || step.CutOff? || step.RecordOutcome?) && step.runId in w.threads
    ensures Words(Act(w, step))
  {
    hide Inv, RunOk, LogWord, RunNode, Resume, Restart, Record, OnlyRun;
    var r := step.runId;
    RunIsOk(w, r);
    match step {
      case NodeStep(_, input) => NodeWrites(w, r, input);
      case Approve(_, approval, tenant) =>
        if w.threads[r].next.Waiting? {
          ResumeWrites(w, r, approval);
        }
      case CutOff(_) => RestartWrites(w, r);
      case RecordOutcome(_, now) => RecordWrites(w, r, now);
    }
    Webhooks.RunStepIsOnlyRun(w, step);
    if Act(w, step) != w {
      OneRunWrites(w, Act(w, step), r);
    }
  }

  lemma GrowsWrites(w: World, w': World)
    requires Words(w) && Grows(w, w')
    requires forall r | r in w'.threads && r !in w.threads :: LogWord(w', r)
    ensures Words(w')
  {
    hide LogWord;
    forall q | q in w'.threads ensures LogWord(w', q) {
      if q in w.threads {
        SameLogSameWord(w, w', q);
      }
    }
  }

  lemma NewRunWrites(w: World, r: Uuid, caseId: Uuid, tenant: string, replayOf: Option<Uuid>)
    requires w.repo.runs.Keys == w.threads.Keys && RunsOnly(w)
    requires Words(w) && r !in w.repo.runs && StartError(w, caseId, tenant).None?
    ensures Words(BeginRun(w, r, caseId, tenant, replayOf))
  {
    hide LogWord;
    var w' := BeginRun(w, r, caseId, tenant, replayOf);
    BeginRunGrows(w, r, caseId, tenant, replayOf);
    EmptyWord(w', r);
    GrowsWrites(w, w');
  }

  lemma EmptyWord(w: World, r: Uuid)
    requires r in w.threads && r !in w.repo.events
    requires w.threads[r].next == Ready(IntakeValidation) && w.threads[r].restarts == 0
    ensures LogWord(w, r)
  {
  }

  lemma NoteWrites(w: World, r: Uuid, reason: string)
    requires Words(w) && r in w.repo.runs
    ensures Words(Emit(w, r, ReplayRequested(reason)))
  {
    hide WordOk;
    var w', log := Emit(w, r, ReplayRequested(reason)), GetOr(w.repo.events, r, []);
    assert (log + [ReplayRequested(reason)])[..|log|] == log;
    assert Kinds(log + [ReplayRequested(reason)]) == Kinds(log) + [];
    forall q | q in w'.threads ensures LogWord(w', q) {
      assert LogWord(w, q);
      assert WordOf(w', q) == WordOf(w, q);
      SameLogSameWord(w, w', q);
    }
  }

  lemma ActWrites(w: World, step: Step)
    requires Inv(w) && Words(w)
    ensures Words(Act(w, step))
  {
    hide Inv, RunOk, LogWord, BeginRun, RunNode, Resume, Restart, Record, Words, RunsOnly;
    RunsAndThreads(w);
    match step
    case OpenCase(_, _, _, _) => GrowsWrites(w, Act(w, step));
    case StartRun(runId, caseId, tenant) =>
      if runId !in w.repo.runs && StartError(w, caseId, tenant).None? {
        NewRunWrites(w, runId, caseId, tenant, None);
      }
    case ReplayRun(original, runId, tenant, reason) =>
      if runId !in w.repo.runs && AuthorizationError(w, original, tenant).None? {
        var noted := Emit(w, original, ReplayRequested(reason));
        NoteWrites(w, original, reason);
        ReplayStarts(w, original, tenant, reason);
        RunsAndThreads(noted);
        NewRunWrites(noted, runId, w.repo.runs[original].caseId, tenant, Some(original));
      }
    case SetFault(_, _) => GrowsWrites(w, Act(w, step));
    case SetRecords(_, _) => GrowsWrites(w, Act(w, step));
    case _ =>
      if step.runId in w.threads {
        RunStepWrites(w, step);
      }
  }

  lemma {:induction false} LogsAreWords(steps: seq<Step>)
    ensures Words(Run(START, steps))
  {
    hide Act, LogWord, Inv;
    if steps != [] {
      var init := steps[..|steps| - 1];
      LogsAreWords(init);
      Reachable(init);
      ActWrites(Run(START, init), steps[|steps| - 1]);
    }
  }

  lemma EndTells(w: World, r: Uuid)
    requires RunOk(w, r) && w.threads[r].next.Done?
    ensures HasEffect(w, r) <==> w.threads[r].state.currentNode == Some(AuditClosure)
  {
    hide Scan, KeyFor, Grounded, AuditOk;
  }

  /** The log of a finished run, cut off and started over however often: the six node events
      and a stop; or also two pauses and a stop; or further the approval, one round for every
      start that was cut off, and a last round that ends in effect, verification and closure
      or in a stop, according to whether there is an effect. */
  lemma AuditGrammar(steps: seq<Step>, r: Uuid)
    requires r in Run(START, steps).threads && Run(START, steps).threads[r].next.Done?
    ensures
      var w := Run(START, steps);
      var word, cuts := Kinds(GetOr(w.repo.events, r, [])), w.threads[r].restarts;
      if HasEffect(w, r) then Tail(word, cuts, [Effect, Verification, Closure])
      else (cuts == 0 && (word == TRUNK + [Stop] || word == RESUMED + [Stop])) || Tail(word, cuts, [Stop])
  {
    hide Run, RunOk, Kinds, Tail, HasEffect;
    LogsAreWords(steps);
    ReachableRun(steps, r);
    EndTells(Run(START, steps), r);
    assert LogWord(Run(START, steps), r);
  }
}
