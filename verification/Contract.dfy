/** The retry loop of the execution node (workflow.py) against any tool at all: a tool that
    need not deduplicate keys, whose every execute call may commit and answer, commit and
    fail, fail without committing, or raise something the loop does not catch. It only has to
    answer truthfully when asked for a status, and to commit nothing after a call has returned. */
module Contract {
  import opened Domain
  import opened Gateway
  import opened Repository
  import opened Protocol
  import opened Driver
  import opened System
  import opened Theorems
  import Outcomes

  /** What the loop sees of an execute call; only tool failures are caught. */
  datatype Reply = Replies(answer: ToolAnswer) | Breaks

  /** What a status call is told; the call may fail itself, and nothing catches that. */
  datatype Lookup = Reports(receipt: Receipt) | Raises

  /** One execute call as the tool behaves on it: whether it lands an effect, what the caller
      sees, and what a status call right after it would see. */
  datatype Call = Call(landed: bool, reply: Reply, lookup: Lookup)

  predicate Answers(call: Call) {
    call.reply.Replies? && call.reply.answer.Answered?
  }

  predicate Fails(call: Call) {
    call.reply.Replies? && call.reply.answer.Failed?
  }

  /** The calls of one execution, in order, as the loop makes them. */
  datatype Ask = Executed(landed: bool) | LookedUp(lookup: Lookup)

  /** How the loop is left, after how many execute calls, and what it asked. */
  datatype Outcome =
    | Settled(receipt: Option<Receipt>, lastError: Option<ToolFailure>, used: nat, asked: seq<Ask>)
    | Escaped(used: nat, asked: seq<Ask>)

  const LIMIT := 3

  function LooksUp(irreversible: bool, failure: ToolFailure): bool {
    irreversible || failure.committed
  }

  /** The loop from one attempt on. */
  function Loop(irreversible: bool, calls: seq<Call>, attempt: nat, receipt: Option<Receipt>,
                lastError: Option<ToolFailure>, asked: seq<Ask>): Outcome
    requires |calls| == LIMIT && 1 <= attempt <= LIMIT
    decreases LIMIT - attempt
  {
    var call := calls[attempt - 1];
    var asked1 := asked + [Executed(call.landed)];
    match call.reply
    case Breaks => Escaped(attempt, asked1)
    case Replies(Answered(answer)) => Settled(Some(answer), lastError, attempt, asked1)
    case Replies(Failed(failure)) =>
      if LooksUp(irreversible, failure) && call.lookup.Raises? then Escaped(attempt, asked1 + [LookedUp(Raises)])
      else
        var found := if LooksUp(irreversible, failure) then Some(call.lookup.receipt) else receipt;
        var asked2 := if LooksUp(irreversible, failure) then asked1 + [LookedUp(call.lookup)] else asked1;
        match AfterFailure(attempt, LooksUp(irreversible, failure), found, failure)
        case Retrying(_, _, _) => Loop(irreversible, calls, attempt + 1, found, Some(failure), asked2)
        case _ => Settled(found, Some(failure), attempt, asked2)
  }

  function Ending(irreversible: bool, calls: seq<Call>): Outcome
    requires |calls| == LIMIT
  {
    Loop(irreversible, calls, 1, None, None, [])
  }

  /** The loop as it is written. A receipt carried into a new attempt is absent or says
      "not found": no earlier attempt's answer can be mistaken for this one's. */
  method RetryLoop(irreversible: bool, calls: seq<Call>) returns (outcome: Outcome)
    requires |calls| == LIMIT
    ensures outcome == Ending(irreversible, calls)
    ensures outcome.Settled? && outcome.receipt.Some? && outcome.receipt.value.status != NotFound ==>
      var last := calls[outcome.used - 1];
      1 <= outcome.used <= LIMIT &&
      (last.reply == Replies(Answered(outcome.receipt.value)) || last.lookup == Reports(outcome.receipt.value))
  {
    var receipt: Option<Receipt> := None;
    var lastError: Option<ToolFailure> := None;
    var asked: seq<Ask> := [];
    var attempt := 1;
    while attempt <= LIMIT
      invariant 1 <= attempt <= LIMIT
      invariant receipt.None? || receipt.value.status == NotFound
      invariant Loop(irreversible, calls, attempt, receipt, lastError, asked) == Ending(irreversible, calls)
      decreases LIMIT - attempt
    {
      var call := calls[attempt - 1];
      asked := asked + [Executed(call.landed)];
      if call.reply.Breaks? {
        return Escaped(attempt, asked);
      }
      if call.reply.answer.Answered? {
        return Settled(Some(call.reply.answer.receipt), lastError, attempt, asked);
      }
      var failure := call.reply.answer.failure;
      lastError := Some(failure);
      if irreversible || failure.committed {
        asked := asked + [LookedUp(call.lookup)];
        if call.lookup.Raises? {
          return Escaped(attempt, asked);
        }
        receipt := Some(call.lookup.receipt);
        if call.lookup.receipt.status != NotFound {
          return Settled(receipt, lastError, attempt, asked);
        }
      }
      if !failure.retryable || attempt == LIMIT {
        return Settled(receipt, lastError, attempt, asked);
      }
      attempt := attempt + 1;
    }
    assert false;
  }

  // ----- The contract -----

  /** How many effects the first n calls landed. */
  function Landed(calls: seq<Call>, n: nat): nat
    requires n <= |calls|
  {
    if n == 0 then 0 else Landed(calls, n - 1) + if calls[n - 1].landed then 1 else 0
  }

  /** What a tool owes its caller on one call, when so many effects are on record after it:
      an answer is about an effect there is, and a status is the truth. */
  predicate Truthful(call: Call, onRecord: nat) {
    && (Answers(call) ==> onRecord > 0 && call.reply.answer.receipt.status in {Succeeded, Replayed})
    && (call.lookup.Reports? ==>
          if onRecord > 0 then call.lookup.receipt.status in {Succeeded, Replayed}
          else call.lookup.receipt.status == NotFound)
  }

  /** A tool that keeps the contract, with so many effects of the key on record before. */
  predicate Lawful(before: nat, calls: seq<Call>) {
    |calls| == LIMIT && forall i | 0 <= i < LIMIT :: Truthful(calls[i], before + Landed(calls, i + 1))
  }

  /** A failure beside an effect on record, this call's own or an earlier one, makes the loop
      look: the action is irreversible, or the failure is flagged as committed. */
  predicate Warned(irreversible: bool, before: nat, calls: seq<Call>)
    requires |calls| == LIMIT
  {
    forall i | 0 <= i < LIMIT && Fails(calls[i]) && before + Landed(calls, i + 1) > 0 ::
      LooksUp(irreversible, calls[i].reply.answer.failure)
  }

  // ----- At most once, and blocked means no effect -----

  lemma {:induction false} CarefulFrom(irreversible: bool, before: nat, calls: seq<Call>, attempt: nat,
                                       receipt: Option<Receipt>, lastError: Option<ToolFailure>, asked: seq<Ask>)
    requires Lawful(before, calls) && Warned(irreversible, before, calls) && 1 <= attempt <= LIMIT
    requires Landed(calls, attempt - 1) == 0 && (attempt > 1 ==> before == 0)
    requires receipt.None? || receipt.value.status == NotFound
    ensures
      var o := Loop(irreversible, calls, attempt, receipt, lastError, asked);
      && attempt <= o.used <= LIMIT && Landed(calls, o.used) <= 1
      && (o.Settled? ==> (Holds(o.receipt) <==> before + Landed(calls, o.used) > 0))
    decreases LIMIT - attempt
  {
    var call := calls[attempt - 1];
    assert Truthful(call, before + Landed(calls, attempt));
    if Fails(call) {
      var failure := call.reply.answer.failure;
      if !LooksUp(irreversible, failure) || call.lookup.Reports? {
        var found := if LooksUp(irreversible, failure) then Some(call.lookup.receipt) else receipt;
        if AfterFailure(attempt, LooksUp(irreversible, failure), found, failure).Retrying? {
          var asked1 := asked + [Executed(call.landed)];
          CarefulFrom(irreversible, before, calls, attempt + 1, found, Some(failure),
                      if LooksUp(irreversible, failure) then asked1 + [LookedUp(call.lookup)] else asked1);
        }
      }
    }
  }

  /** Against every tool that keeps the contract, deduplicating or not, whatever it has on
      record before: one execution of an irreversible action lands at most one effect, and
      ends blocked exactly when there is no effect on record. */
  lemma IrreversibleAtMostOnce(before: nat, calls: seq<Call>)
    requires Lawful(before, calls)
    ensures
      var o := Ending(true, calls);
      && o.used <= LIMIT && Landed(calls, o.used) <= 1
      && (o.Settled? ==> (Holds(o.receipt) <==> before + Landed(calls, o.used) > 0))
  {
    CarefulFrom(true, before, calls, 1, None, None, []);
  }

  /** It is releases that are protected so: in every history, one execution of a proposed
      release lands at most one effect on any tool that keeps the contract. */
  lemma ReleasesActAtMostOnce(steps: seq<Step>, r: Uuid, before: nat, calls: seq<Call>)
    requires r in Run(START, steps).threads && Run(START, steps).threads[r].state.proposedAction.Some?
    requires Run(START, steps).threads[r].state.request.requestedAction == ReleaseTransfer && Lawful(before, calls)
    ensures
      var o := Ending(Run(START, steps).threads[r].state.proposedAction.value.irreversible, calls);
      && o.used <= LIMIT && Landed(calls, o.used) <= 1
      && (o.Settled? ==> (Holds(o.receipt) <==> before + Landed(calls, o.used) > 0))
  {
    hide Run, Ending, Landed, Lawful;
    ProposedAsRequested(steps, r);
    IrreversibleAtMostOnce(before, calls);
  }

  /** The same for a reversible action, when every failure beside an effect is flagged. */
  lemma FlaggedAtMostOnce(before: nat, calls: seq<Call>)
    requires Lawful(before, calls) && Warned(false, before, calls)
    ensures
      var o := Ending(false, calls);
      && o.used <= LIMIT && Landed(calls, o.used) <= 1
      && (o.Settled? ==> (Holds(o.receipt) <==> before + Landed(calls, o.used) > 0))
  {
    CarefulFrom(false, before, calls, 1, None, None, []);
  }

  predicate SaysNotFound(ask: Ask) {
    ask.LookedUp? && ask.lookup.Reports? && ask.lookup.receipt.status == NotFound
  }

  /** Between two execute calls the tool was asked for the status and said "not found". */
  ghost predicate LooksBetween(asked: seq<Ask>) {
    forall i, j | 0 <= i < j < |asked| && asked[i].Executed? && asked[j].Executed? :: SaysNotFound(asked[i + 1])
  }

  /** Every execute call has been followed by such a lookup. */
  ghost predicate Settles(asked: seq<Ask>) {
    forall i | 0 <= i < |asked| && asked[i].Executed? :: i + 1 < |asked| && SaysNotFound(asked[i + 1])
  }

  lemma OneAttempt(asked: seq<Ask>, landed: bool, lookup: Lookup)
    requires Settles(asked)
    ensures LooksBetween(asked + [Executed(landed)]) && LooksBetween(asked + [Executed(landed)] + [LookedUp(lookup)])
    ensures SaysNotFound(LookedUp(lookup)) ==> Settles(asked + [Executed(landed)] + [LookedUp(lookup)])
  {
  }

  lemma {:induction false} LooksFrom(calls: seq<Call>, attempt: nat, receipt: Option<Receipt>,
                                     lastError: Option<ToolFailure>, asked: seq<Ask>)
    requires |calls| == LIMIT && 1 <= attempt <= LIMIT && Settles(asked)
    ensures LooksBetween(Loop(true, calls, attempt, receipt, lastError, asked).asked)
    decreases LIMIT - attempt
  {
    hide LooksBetween, Settles;
    var call := calls[attempt - 1];
    OneAttempt(asked, call.landed, call.lookup);
    if Fails(call) && call.lookup.Reports? {
      var failure := call.reply.answer.failure;
      if AfterFailure(attempt, true, Some(call.lookup.receipt), failure).Retrying? {
        LooksFrom(calls, attempt + 1, Some(call.lookup.receipt), Some(failure),
                  asked + [Executed(call.landed)] + [LookedUp(call.lookup)]);
      }
    }
  }

  /** For an irreversible action, whatever the tool does. */
  lemma LooksBeforeEveryRetry(calls: seq<Call>)
    requires |calls| == LIMIT
    ensures LooksBetween(Ending(true, calls).asked)
  {
    LooksFrom(calls, 1, None, None, []);
  }

  // ----- When a block hides an effect -----

  /** After call i the loop tries again: a failure that may be retried and, if the loop looks,
      no effect to be found. */
  predicate TriesAgain(irreversible: bool, before: nat, calls: seq<Call>, i: nat)
    requires i < |calls|
  {
    && Fails(calls[i]) && calls[i].reply.answer.failure.retryable
    && (LooksUp(irreversible, calls[i].reply.answer.failure) ==>
          calls[i].lookup.Reports? && before + Landed(calls, i + 1) == 0)
  }

  /** Call i is the last one, it fails without making the loop look, and an effect is there. */
  predicate HidesAt(irreversible: bool, before: nat, calls: seq<Call>, i: nat)
    requires i < |calls| == LIMIT
  {
    && (forall j | 0 <= j < i :: TriesAgain(irreversible, before, calls, j))
    && Fails(calls[i]) && !LooksUp(irreversible, calls[i].reply.answer.failure)
    && (!calls[i].reply.answer.failure.retryable || i == LIMIT - 1)
    && before + Landed(calls, i + 1) > 0
  }

  predicate Hides(irreversible: bool, before: nat, calls: seq<Call>)
    requires |calls| == LIMIT
  {
    exists i | 0 <= i < LIMIT :: HidesAt(irreversible, before, calls, i)
  }

  /** The loop has ended blocked, beside an effect. */
  predicate BlockedBesideEffect(before: nat, calls: seq<Call>, o: Outcome) {
    o.Settled? && !Holds(o.receipt) && o.used <= |calls| && before + Landed(calls, o.used) > 0
  }

  lemma {:induction false} HiddenFrom(irreversible: bool, before: nat, calls: seq<Call>, attempt: nat,
                                      receipt: Option<Receipt>, lastError: Option<ToolFailure>, asked: seq<Ask>)
    requires Lawful(before, calls) && 1 <= attempt <= LIMIT
    requires receipt.None? || receipt.value.status == NotFound
    requires forall j | 0 <= j < attempt - 1 :: TriesAgain(irreversible, before, calls, j)
    ensures
      BlockedBesideEffect(before, calls, Loop(irreversible, calls, attempt, receipt, lastError, asked)) <==>
      exists i | attempt - 1 <= i < LIMIT :: HidesAt(irreversible, before, calls, i)
    decreases LIMIT - attempt
  {
    hide Landed;
    var call := calls[attempt - 1];
    assert Truthful(call, before + Landed(calls, attempt));
    if TriesAgain(irreversible, before, calls, attempt - 1) && attempt < LIMIT {
      var failure := call.reply.answer.failure;
      var found := if LooksUp(irreversible, failure) then Some(call.lookup.receipt) else receipt;
      var asked1 := asked + [Executed(call.landed)];
      HiddenFrom(irreversible, before, calls, attempt + 1, found, Some(failure),
                 if LooksUp(irreversible, failure) then asked1 + [LookedUp(call.lookup)] else asked1);
      assert !HidesAt(irreversible, before, calls, attempt - 1);
    } else {
      assert forall i | attempt <= i < LIMIT :: !HidesAt(irreversible, before, calls, i);
      assert HidesAt(irreversible, before, calls, attempt - 1) <==>
        BlockedBesideEffect(before, calls, Loop(irreversible, calls, attempt, receipt, lastError, asked));
    }
  }

  /** An execution ends blocked although an effect is on record, from before or from its own
      calls, exactly when the failure that ends it does not make the loop look. For an
      irreversible action that is never. */
  lemma BlockedBesideEffectIff(irreversible: bool, before: nat, calls: seq<Call>)
    requires Lawful(before, calls)
    ensures BlockedBesideEffect(before, calls, Ending(irreversible, calls)) <==> Hides(irreversible, before, calls)
    ensures irreversible ==> !Hides(irreversible, before, calls)
  {
    HiddenFrom(irreversible, before, calls, 1, None, None, []);
  }

  /** What the MCP client raises when the tool has committed but its reply holds no text: a
      failure that is neither retryable nor flagged as committed. */
  function LostReply(receipt: Receipt): Call {
    Call(true, Replies(Failed(ToolFailure(EmptyResponse, false, false))), Reports(receipt))
  }

  /** So a lost reply leaves a run of a reversible action blocked beside its own effect, and
      the same reply on an irreversible action does not. */
  lemma LostReplyBlocksBesideEffect(receipt: Receipt, later: seq<Call>)
    requires |later| == LIMIT - 1 && receipt.status == Succeeded
    ensures
      var calls := [LostReply(receipt)] + later;
      && Ending(false, calls) == Settled(None, Some(ToolFailure(EmptyResponse, false, false)), 1, [Executed(true)])
      && Landed(calls, 1) == 1
      && Ending(true, calls).Settled? && Holds(Ending(true, calls).receipt)
  {
    assert ([LostReply(receipt)] + later)[0] == LostReply(receipt);
    assert Landed([LostReply(receipt)] + later, 0) == 0;
  }

  /** And with failures that may be retried, a tool that does not deduplicate is made to act
      three times on a reversible action. */
  lemma ReversibleMayActThrice(receipt: Receipt)
    requires receipt.status == Succeeded
    ensures
      var call := Call(true, Replies(Failed(ToolFailure(McpError, true, false))), Reports(receipt));
      var calls := [call, call, call];
      && Lawful(0, calls) && Ending(false, calls).used == 3 && Landed(calls, 3) == 3
      && Ending(false, calls).Settled? && !Holds(Ending(false, calls).receipt)
  {
    var call := Call(true, Replies(Failed(ToolFailure(McpError, true, false))), Reports(receipt));
    var calls := [call, call, call];
    assert Landed(calls, 0) == 0 && Landed(calls, 1) == 1 && Landed(calls, 2) == 2 && Landed(calls, 3) == 3;
    var error := Some(ToolFailure(McpError, true, false));
    assert Ending(false, calls) == Loop(false, calls, 2, None, error, [Executed(true)]);
  }

  // ----- Started over, any number of times -----

  /** How many effects an irreversible action has landed over these executions, each started
      over from the top. */
  function TotalLanded(executions: seq<seq<Call>>): nat
    requires forall i | 0 <= i < |executions| :: |executions[i]| == LIMIT
  {
    if executions == [] then 0
    else
      var before, last := executions[..|executions| - 1], executions[|executions| - 1];
      var used := Ending(true, last).used;
      TotalLanded(before) + if used <= LIMIT then Landed(last, used) else 0
  }

  /** The tool keeps the contract through all of them, nothing being on record at first. */
  predicate LawfulThroughout(executions: seq<seq<Call>>) {
    && (forall i | 0 <= i < |executions| :: |executions[i]| == LIMIT)
    && (forall i | 0 <= i < |executions| :: Lawful(TotalLanded(executions[..i]), executions[i]))
  }

  /** An execution started over with an effect on record begins with a call that lands
      another: the tool does not deduplicate. */
  predicate Repeats(executions: seq<seq<Call>>, i: nat)
    requires i < |executions| && forall j | 0 <= j < |executions| :: |executions[j]| == LIMIT
  {
    TotalLanded(executions[..i]) > 0 && executions[i][0].landed
  }

  /** With an effect on record one call is all an execution makes: it is answered, or the
      status tells, or an error ends it. */
  lemma OneCallBesideEffect(before: nat, calls: seq<Call>)
    requires Lawful(before, calls) && before > 0
    ensures Ending(true, calls).used == 1 && Landed(calls, 1) == if calls[0].landed then 1 else 0
  {
    assert Truthful(calls[0], before + Landed(calls, 1));
    assert Landed(calls, 0) == 0;
  }

  /** What the last execution adds: at most one effect, and besides one on record exactly if
      its first call lands. */
  lemma LastExecution(executions: seq<seq<Call>>)
    requires LawfulThroughout(executions) && executions != []
    ensures
      var n := |executions| - 1;
      var before := TotalLanded(executions[..n]);
      && before <= TotalLanded(executions) <= before + 1
      && (before > 0 ==> TotalLanded(executions) == before + if executions[n][0].landed then 1 else 0)
  {
    var n := |executions| - 1;
    var before, last := TotalLanded(executions[..n]), executions[n];
    assert Lawful(before, last);
    IrreversibleAtMostOnce(before, last);
    if before > 0 {
      OneCallBesideEffect(before, last);
    }
    hide Ending, Landed, Lawful;
  }

  lemma EarlierExecutions(executions: seq<seq<Call>>)
    requires LawfulThroughout(executions) && executions != []
    ensures
      var n := |executions| - 1;
      && LawfulThroughout(executions[..n])
      && forall i | 0 <= i < n :: Repeats(executions[..n], i) <==> Repeats(executions, i)
  {
    hide TotalLanded, Lawful;
    var before := executions[..|executions| - 1];
    assert forall i | 0 <= i < |before| :: before[..i] == executions[..i] && before[i] == executions[i];
  }

  /** An irreversible action whose execution is cut off and started over any number of times
      has at most one effect in all exactly when no execution that starts with an effect on
      record has its first call land another. Of later calls nothing more is asked. */
  lemma {:induction false} RestartsAtMostOnceIff(executions: seq<seq<Call>>)
    requires LawfulThroughout(executions)
    ensures TotalLanded(executions) <= 1 <==> forall i | 0 <= i < |executions| :: !Repeats(executions, i)
  {
    hide Lawful, Landed, Ending;
    if executions != [] {
      var n := |executions| - 1;
      assert Repeats(executions, n) <==> TotalLanded(executions[..n]) > 0 && executions[n][0].landed;
      hide TotalLanded, Repeats;
      EarlierExecutions(executions);
      LastExecution(executions);
      RestartsAtMostOnceIff(executions[..n]);
      hide LawfulThroughout;
      assert (forall i | 0 <= i < n :: !Repeats(executions[..n], i)) <==> forall i | 0 <= i < n ::
          !Repeats(executions, i);
    }
  }

  /** And a tool that does not deduplicate can be made to repeat: the first execution lands its
      effect and breaks, the second begins with an execute call and no lookup. */
  lemma RestartedMayActTwice(receipt: Receipt)
    requires receipt.status == Succeeded
    ensures
      var lost, again := Call(true, Breaks, Reports(receipt)), Call(true, Replies(Answered(receipt)), Reports(receipt));
      var executions := [[lost, lost, lost], [again, again, again]];
      LawfulThroughout(executions) && TotalLanded(executions) == 2
  {
    var lost, again := Call(true, Breaks, Reports(receipt)), Call(true, Replies(Answered(receipt)), Reports(receipt));
    var a, b := [lost, lost, lost], [again, again, again];
    var executions := [a, b];
    assert executions[..0] == [] && executions[..1] == [a] && [a][..0] == [];
    FirstCallOnly(a);
    FirstCallOnly(b);
    AllLanded(a);
    AllLanded(b);
    hide Ending, Landed;
    assert TotalLanded([a]) == 1 && TotalLanded(executions) == 2;
  }

  lemma FirstCallOnly(calls: seq<Call>)
    requires |calls| == LIMIT && calls[0].landed && !Fails(calls[0])
    ensures Ending(true, calls).used == 1 && Landed(calls, 1) == 1
  {
    assert Landed(calls, 0) == 0;
  }

  lemma AllLanded(calls: seq<Call>)
    requires |calls| == LIMIT && forall i | 0 <= i < LIMIT :: calls[i].landed
    ensures forall i | 0 <= i <= LIMIT :: Landed(calls, i) == i
  {
    assert Landed(calls, 0) == 0 && Landed(calls, 1) == 1 && Landed(calls, 2) == 2 && Landed(calls, 3) == 3;
  }

  // ----- The synthetic gateway keeps the contract -----

  /** The gateway after so many execute calls for one action. */
  function ToolsAfter(t: ToolState, action: ProposedAction, effectIds: EffectIds, n: nat): ToolState {
    if n == 0 then t else AfterExecute(ToolsAfter(t, action, effectIds, n - 1), action, IdAt(effectIds, n))
  }

  function CallAt(t: ToolState, action: ProposedAction, effectIds: EffectIds, i: nat): Call {
    var t0, t1 := ToolsAfter(t, action, effectIds, i), ToolsAfter(t, action, effectIds, i + 1);
    Call(action.idempotencyKey !in t0.effects && action.idempotencyKey in t1.effects,
         Replies(Answer(t0, action, IdAt(effectIds, i + 1))), Reports(Status(t1, action.idempotencyKey)))
  }

  function CallsOf(t: ToolState, action: ProposedAction, effectIds: EffectIds): seq<Call> {
    [CallAt(t, action, effectIds, 0), CallAt(t, action, effectIds, 1), CallAt(t, action, effectIds, 2)]
  }

  function OnRecord(t: ToolState, key: string): nat {
    if key in t.effects then 1 else 0
  }

  lemma {:induction false} GatewayRecord(t: ToolState, action: ProposedAction, effectIds: EffectIds, n: nat)
    requires n <= LIMIT
    ensures
      OnRecord(ToolsAfter(t, action, effectIds, n), action.idempotencyKey) ==
      OnRecord(t, action.idempotencyKey) + Landed(CallsOf(t, action, effectIds), n)
  {
    hide Answer;
    if n > 0 {
      GatewayRecord(t, action, effectIds, n - 1);
      assert CallsOf(t, action, effectIds)[n - 1] == CallAt(t, action, effectIds, n - 1);
    }
  }

  lemma {:induction false} GatewayStatus(t: ToolState, action: ProposedAction, effectIds: EffectIds, n: nat)
    requires action.idempotencyKey in t.effects ==> t.effects[action.idempotencyKey].status == Succeeded
    ensures
      var t' := ToolsAfter(t, action, effectIds, n);
      action.idempotencyKey in t'.effects ==> t'.effects[action.idempotencyKey].status == Succeeded
  {
    if n > 0 {
      GatewayStatus(t, action, effectIds, n - 1);
    }
  }

  /** Under every fault the synthetic gateway keeps the contract and flags every failure beside
      an effect, so what holds of lawful tools holds of it for reversible actions too. */
  lemma GatewayIsLawful(t: ToolState, action: ProposedAction, effectIds: EffectIds)
    requires action.idempotencyKey in t.effects ==> t.effects[action.idempotencyKey].status == Succeeded
    ensures Lawful(OnRecord(t, action.idempotencyKey), CallsOf(t, action, effectIds))
    ensures forall irreversible :: Warned(irreversible, OnRecord(t, action.idempotencyKey),
        CallsOf(t, action, effectIds))
  {
    var calls, before := CallsOf(t, action, effectIds), OnRecord(t, action.idempotencyKey);
    forall i | 0 <= i < LIMIT
      ensures Truthful(calls[i], before + Landed(calls, i + 1))
      ensures Fails(calls[i]) && before + Landed(calls, i + 1) > 0 ==> calls[i].reply.answer.failure.committed
    {
      assert calls[i] == CallAt(t, action, effectIds, i);
      GatewayRecord(t, action, effectIds, i + 1);
      GatewayStatus(t, action, effectIds, i + 1);
      ExecuteIsPutIfAbsent(ToolsAfter(t, action, effectIds, i), action, IdAt(effectIds, i + 1));
      hide Answer, AfterExecute, Landed;
    }
  }

  lemma {:induction false} LoopFollows(w: World, r: Uuid, t: ToolState, effectIds: EffectIds, asked: seq<Ask>)
    requires r in w.threads && w.threads[r].next.Retrying? && w.threads[r].state.proposedAction.Some?
    requires 1 <= w.threads[r].next.attempt <= LIMIT
    requires w.tools == ToolsAfter(t, w.threads[r].state.proposedAction.value, effectIds, w.threads[r].next.attempt - 1)
    ensures
      var pc, action := w.threads[r].next, w.threads[r].state.proposedAction.value;
      var o := Loop(action.irreversible, CallsOf(t, action, effectIds), pc.attempt, pc.receipt, pc.lastError, asked);
      var w' := Attempts(w, r, effectIds);
      && o.Settled? && r in w'.threads && w'.threads[r].next == Settling(o.receipt, o.lastError)
      && w'.tools == ToolsAfter(t, action, effectIds, o.used)
    decreases LIMIT - w.threads[r].next.attempt
  {
    hide AfterExecute, Answer, Status, WithEvent;
    var pc, action := w.threads[r].next, w.threads[r].state.proposedAction.value;
    var call := CallsOf(t, action, effectIds)[pc.attempt - 1];
    assert call == CallAt(t, action, effectIds, pc.attempt - 1);
    var w1 := Attempt(w, r, IdAt(effectIds, pc.attempt));
    Outcomes.AttemptRuns(w, r, effectIds);
    assert w1.tools == ToolsAfter(t, action, effectIds, pc.attempt);
    hide Attempt, CallsOf;
    if !w1.threads[r].next.Retrying? {
      Outcomes.AttemptsStop(w1, r, effectIds);
    }
    hide Attempts;
    if w1.threads[r].next.Retrying? {
      var asked1 := asked + [Executed(call.landed)];
      LoopFollows(w1, r, t, effectIds,
                  if LooksUp(action.irreversible, call.reply.answer.failure) then asked1 + [LookedUp(call.lookup)]
                      else asked1);
    }
  }

  /** The execution node over the synthetic gateway is this loop over the gateway's calls. */
  lemma ExecutionIsTheLoop(w: World, r: Uuid, effectIds: EffectIds)
    requires r in w.threads && w.threads[r].next == Retrying(1, None, None) && w.threads[r].state.proposedAction.Some?
    ensures
      var action := w.threads[r].state.proposedAction.value;
      var o := Ending(action.irreversible, CallsOf(w.tools, action, effectIds));
      var w' := Attempts(w, r, effectIds);
      && o.Settled? && r in w'.threads && w'.threads[r].next == Settling(o.receipt, o.lastError)
      && w'.tools == ToolsAfter(w.tools, action, effectIds, o.used)
  {
    LoopFollows(w, r, w.tools, effectIds, []);
  }
}
