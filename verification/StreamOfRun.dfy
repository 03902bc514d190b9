/** The event stream of a run of the system: what a poll reads is the log and the status as
    the history has them at the moments of its two reads. */
module StreamOfRun {
  import opened Domain
  import opened Gateway
  import opened Repository
  import opened Protocol
  import opened Invariant
  import opened Preservation
  import opened System
  import opened Theorems
  import opened Audit
  import opened Driver
  import opened History
  import opened EventStream
  import Outcomes
  import Policy
  import Webhooks

  /** When, counted in steps of the history, each poll reads the log and then the run. */
  datatype Clock = Clock(first: nat -> nat, second: nat -> nat)

  function FirstRead(clock: Clock, n: nat): nat {
    clock.first(n)
  }

  function SecondRead(clock: Clock, n: nat): nat {
    clock.second(n)
  }

  predicate ReadInTime(steps: seq<Step>, clock: Clock, n: nat) {
    FirstRead(clock, n) <= SecondRead(clock, n) <= FirstRead(clock, n + 1) <= |steps|
  }

  ghost predicate InTime(steps: seq<Step>, clock: Clock) {
    forall n: nat :: ReadInTime(steps, clock, n)
  }

  function WorldAt(steps: seq<Step>, n: nat): World {
    Run(START, if n <= |steps| then steps[..n] else steps)
  }

  function LengthAt(steps: seq<Step>, r: Uuid, n: nat): nat {
    |LogOf(WorldAt(steps, n), r)|
  }

  function LogOf(w: World, r: Uuid): seq<Event> {
    GetOr(w.repo.events, r, [])
  }

  function StatusIn(w: World, r: Uuid): Option<RunStatus> {
    if r in w.repo.runs then Some(w.repo.runs[r].status) else None
  }

  function StatusAt(steps: seq<Step>, r: Uuid, n: nat): Option<RunStatus> {
    StatusIn(WorldAt(steps, n), r)
  }

  /** One distinct id for each event of the log. */
  predicate IdsFor(ids: seq<string>, log: seq<Event>) {
    |ids| == |log| && forall i, j | 0 <= i < j < |ids| :: ids[i] != ids[j]
  }

  function Entries(ids: seq<string>, log: seq<Event>): seq<Entry>
    requires |ids| == |log|
  {
    seq(|log|, i requires 0 <= i < |log| => Entry(ids[i], log[i]))
  }

  function EventsOf(entries: seq<Entry>): seq<Event> {
    seq(|entries|, i requires 0 <= i < |entries| => entries[i].event)
  }

  function FeedOf(steps: seq<Step>, r: Uuid, ids: seq<string>, clock: Clock): Feed
    requires IdsFor(ids, LogOf(Run(START, steps), r))
  {
    Feed(Entries(ids, LogOf(Run(START, steps), r)),
         (n: nat) => LengthAt(steps, r, FirstRead(clock, n)),
         (n: nat) => LengthAt(steps, r, SecondRead(clock, n)),
         (n: nat) => StatusAt(steps, r, SecondRead(clock, n)))
  }

  // ----- The feed is what the stream expects -----

  lemma LaterWorld(steps: seq<Step>, m: nat, n: nat)
    requires m <= n <= |steps|
    ensures WorldAt(steps, n) == Run(WorldAt(steps, m), steps[m..n])
  {
    RunAppend(START, steps[..m], steps[m..n]);
    assert steps[..n] == steps[..m] + steps[m..n];
  }

  lemma LogGrows(steps: seq<Step>, r: Uuid, m: nat, n: nat)
    requires m <= n <= |steps|
    ensures LogOf(WorldAt(steps, m), r) <= LogOf(WorldAt(steps, n), r)
  {
    hide Run, Inv, DoneFrozen;
    var w := WorldAt(steps, m);
    LaterWorld(steps, m, n);
    Reachable(steps[..m]);
    RunsAndThreads(w);
    LaterExtends(w, steps[m..n]);
    if r in w.repo.runs {
      assert RunExtends(w, WorldAt(steps, n), r);
    }
  }

  lemma WholeWorld(steps: seq<Step>)
    ensures WorldAt(steps, |steps|) == Run(START, steps)
  {
    assert steps[..|steps|] == steps;
  }

  lemma FeedIsAppendOnly(steps: seq<Step>, r: Uuid, ids: seq<string>, clock: Clock)
    requires IdsFor(ids, LogOf(Run(START, steps), r)) && InTime(steps, clock)
    ensures AppendOnly(FeedOf(steps, r, ids, clock))
  {
    hide WorldAt, LogOf, Run;
    var f := FeedOf(steps, r, ids, clock);
    WholeWorld(steps);
    forall n: nat ensures PollOrdered(f, n) {
      assert ReadInTime(steps, clock, n);
      LogGrows(steps, r, FirstRead(clock, n), SecondRead(clock, n));
      LogGrows(steps, r, SecondRead(clock, n), FirstRead(clock, n + 1));
      LogGrows(steps, r, FirstRead(clock, n + 1), |steps|);
    }
  }

  /** What has been sent after so many polls is the log as the last of them read it. */
  lemma SentIsTheLog(steps: seq<Step>, r: Uuid, ids: seq<string>, clock: Clock, polls: nat)
    requires IdsFor(ids, LogOf(Run(START, steps), r)) && InTime(steps, clock) && polls > 0
    ensures AppendOnly(FeedOf(steps, r, ids, clock))
    ensures
      EventsOf(EventsIn(Frames(FeedOf(steps, r, ids, clock), polls)))
          == LogOf(WorldAt(steps, FirstRead(clock, polls - 1)), r)
  {
    hide WorldAt, LogOf, Run, AppendOnly, EventsIn, Frames;
    FeedIsAppendOnly(steps, r, ids, clock);
    EventsSent(FeedOf(steps, r, ids, clock), polls);
    WholeWorld(steps);
    assert ReadInTime(steps, clock, polls - 1);
    LogGrows(steps, r, FirstRead(clock, polls - 1), |steps|);
  }

  // ----- The closure -----

  predicate IsClosure(e: Event) {
    e.RunClosed? || e.RunStopped?
  }

  predicate HoldsClosure(log: seq<Event>) {
    exists i | 0 <= i < |log| :: IsClosure(log[i])
  }

  lemma {:induction false} ClosureCounted(log: seq<Event>)
    ensures HoldsClosure(log) <==> multiset(Kinds(log))[Closure] + multiset(Kinds(log))[Stop] > 0
  {
    hide KindOf, IsClosure;
    if log == [] {
      NoKinds();
    } else {
      var init, e := log[..|log| - 1], log[|log| - 1];
      ClosureCounted(init);
      ClosureKind(e);
      ClosureOfLonger(init, e);
      assert log == init + [e] && Kinds(log) == Kinds(init) + KindOf(e);
      hide Kinds, HoldsClosure;
      assert multiset(Kinds(log)) == multiset(Kinds(init)) + multiset(KindOf(e));
    }
  }

  lemma ClosureOfLonger(init: seq<Event>, e: Event)
    ensures HoldsClosure(init + [e]) <==> HoldsClosure(init) || IsClosure(e)
  {
    hide IsClosure;
    var log := init + [e];
    assert log[|init|] == e;
    if HoldsClosure(init) {
      var i :| 0 <= i < |init| && IsClosure(init[i]);
      assert IsClosure(log[i]);
    }
  }

  lemma ClosureKind(e: Event)
    ensures IsClosure(e) <==> multiset(KindOf(e))[Closure] + multiset(KindOf(e))[Stop] > 0
  {
  }

  /** The graph has ended for the run. */
  predicate GraphEnded(w: World, r: Uuid) {
    r in w.threads && (w.threads[r].next.Ended? || w.threads[r].next.Done?)
  }

  lemma ClosureIffEnded(steps: seq<Step>, r: Uuid)
    ensures HoldsClosure(LogOf(Run(START, steps), r)) <==> GraphEnded(Run(START, steps), r)
  {
    hide Run, Inv, HoldsClosure, Kinds;
    var w := Run(START, steps);
    ClosureCounted(LogOf(w, r));
    Reachable(steps);
    RunsAndThreads(w);
    if r in w.repo.runs {
      AuditCounts(steps, r);
    } else {
      assert Kinds([]) == [] by { NoKinds(); }
    }
  }

  lemma NoKinds()
    ensures Kinds([]) == []
  {
  }

  // ----- After the end only replay notes -----

  lemma ActAfterEnd(w: World, step: Step, r: Uuid)
    requires Inv(w) && GraphEnded(w, r)
    ensures GraphEnded(Act(w, step), r) && Kinds(LogOf(Act(w, step), r)) == Kinds(LogOf(w, r))
  {
    hide Inv, RunOk, Kinds, KindOf, StartError, AuthorizationError, ApprovalError, OnlyRun;
    RunsAndThreads(w);
    var log := LogOf(w, r);
    if step.ReplayRun? {
      assert Kinds(log + [ReplayRequested(step.reason)]) == Kinds(log) by { NoteHasNoKind(log, step.reason); }
    } else if (step.NodeStep? || step.Approve? || step.CutOff? || step.RecordOutcome?) && step.runId in w.threads {
      if step.runId == r {
        OwnStepAfterEnd(w, step);
      } else {
        Webhooks.RunStepIsOnlyRun(w, step);
        OtherStepAfterEnd(w, Act(w, step), step.runId, r);
      }
    }
  }

  lemma NoteHasNoKind(log: seq<Event>, reason: string)
    ensures Kinds(log + [ReplayRequested(reason)]) == Kinds(log)
  {
    assert (log + [ReplayRequested(reason)])[..|log|] == log;
  }

  lemma OwnStepAfterEnd(w: World, step: Step)
    requires step.NodeStep? || step.Approve? || step.CutOff? || step.RecordOutcome?
    requires GraphEnded(w, step.runId)
    ensures GraphEnded(Act(w, step), step.runId) && LogOf(Act(w, step), step.runId) == LogOf(w, step.runId)
  {
    hide ApprovalError;
  }

  lemma OtherStepAfterEnd(w: World, w': World, q: Uuid, r: Uuid)
    requires q != r && GraphEnded(w, r) && (w' == w || OnlyRun(w, w', q))
    ensures GraphEnded(w', r) && LogOf(w', r) == LogOf(w, r)
  {
    if w' != w {
      assert Find(w'.repo.events, r) == Find(w.repo.events, r);
    }
  }

  lemma {:induction false} StepsAfterEnd(w: World, steps: seq<Step>, r: Uuid)
    requires Inv(w) && GraphEnded(w, r)
    ensures GraphEnded(Run(w, steps), r) && Kinds(LogOf(Run(w, steps), r)) == Kinds(LogOf(w, r))
  {
    hide Inv, Act, Kinds, LogOf, GraphEnded;
    if steps != [] {
      var init := steps[..|steps| - 1];
      StepsAfterEnd(w, init, r);
      RunKeepsInv(w, init);
      ActAfterEnd(Run(w, init), steps[|steps| - 1], r);
    }
  }

  // ----- What the subscriber has at the end -----

  /** A terminal status is read of a run that is over. */
  lemma TerminalIsOver(steps: seq<Step>, r: Uuid)
    requires StatusIn(Run(START, steps), r).Some?
        && StatusIn(Run(START, steps), r).value in {Completed, Blocked, FailedRun}
    ensures GraphEnded(Run(START, steps), r)
  {
    hide Run;
    StatusesAreSettled(steps, r);
  }

  /** A poll announces the end if and only if the run is over when it reads the status, and it
      announces the status the run then has. */
  lemma EndIffOver(steps: seq<Step>, r: Uuid, ids: seq<string>, clock: Clock, n: nat)
    requires IdsFor(ids, LogOf(Run(START, steps), r)) && InTime(steps, clock)
    ensures
      var f, w := FeedOf(steps, r, ids, clock), WorldAt(steps, SecondRead(clock, n));
      && (Over(f, n) <==> r in w.threads && w.threads[r].next.Done?)
      && (r in w.repo.runs ==> f.status(n) == Some(w.repo.runs[r].status))
  {
    hide Run, LogOf, Inv;
    assert ReadInTime(steps, clock, n);
    var prefix := steps[..SecondRead(clock, n)];
    Reachable(prefix);
    RunsAndThreads(Run(START, prefix));
    if r in Run(START, prefix).repo.runs {
      StatusesAreSettled(prefix, r);
    }
  }

  /** When the end is announced, the run has its closure event. The subscriber has been sent
      it if and only if the graph had already ended at the first of the poll's two reads; and
      exactly then it misses nothing of the log but replay notes. */
  lemma ClosureIsSentIff(steps: seq<Step>, r: Uuid, ids: seq<string>, clock: Clock, polls: nat)
    requires IdsFor(ids, LogOf(Run(START, steps), r)) && InTime(steps, clock)
    requires polls > 0 && Over(FeedOf(steps, r, ids, clock), polls - 1)
    ensures AppendOnly(FeedOf(steps, r, ids, clock))
    ensures
      var sent := EventsOf(EventsIn(Frames(FeedOf(steps, r, ids, clock), polls)));
      var then_ := LogOf(WorldAt(steps, SecondRead(clock, polls - 1)), r);
      var ended := GraphEnded(WorldAt(steps, FirstRead(clock, polls - 1)), r);
      && HoldsClosure(then_)
      && (HoldsClosure(sent) <==> ended)
      && (Kinds(sent) == Kinds(then_) <==> ended)
  {
    hide Run, Inv, LogOf, GraphEnded, HoldsClosure, Kinds, EventsIn, Frames, AppendOnly;
    var a, b := FirstRead(clock, polls - 1), SecondRead(clock, polls - 1);
    assert ReadInTime(steps, clock, polls - 1);
    SentIsTheLog(steps, r, ids, clock, polls);
    ClosureIffEnded(steps[..a], r);
    ClosureIffEnded(steps[..b], r);
    TerminalIsOver(steps[..b], r);
    ClosureCounted(LogOf(WorldAt(steps, a), r));
    ClosureCounted(LogOf(WorldAt(steps, b), r));
    if GraphEnded(WorldAt(steps, a), r) {
      LaterWorld(steps, a, b);
      Reachable(steps[..a]);
      StepsAfterEnd(WorldAt(steps, a), steps[a..b], r);
    }
  }

  // ----- It happens -----

  function SomeIds(n: nat): seq<string> {
    seq(n, i requires 0 <= i < n => seq(i, _ => 'x'))
  }

  lemma SomeIdsDistinct(n: nat)
    ensures forall i, j | 0 <= i < j < n :: SomeIds(n)[i] != SomeIds(n)[j]
  {
    forall i, j | 0 <= i < j < n ensures SomeIds(n)[i] != SomeIds(n)[j] {
      assert |SomeIds(n)[i]| == i && |SomeIds(n)[j]| == j;
    }
  }

  const HASTY := NodeInput([], Recommendation(PlaceHold, "", [], ["made up"]), 0, 0, 0, EffectIds("e", "f", "g"))

  const FILED := CaseRequest("t", "c", "x", ProfileMismatch, PlaceHold, 1.0, USD, "")

  /** A run with its validation done and everything else still to come. */
  const EARLY: seq<Step> := [OpenCase("1", FILED, "t", false), StartRun("2", "1", "t"), NodeStep("2", HASTY)]

  lemma EarlyWorlds()
    ensures
      var filed := Act(START, OpenCase("1", FILED, "t", false));
      var begun := Act(filed, StartRun("2", "1", "t"));
      && StartError(filed, "1", "t").None? && "2" !in filed.repo.runs && begun == BeginRun(filed, "2", "1", "t", None)
      && "2" in begun.threads && begun.threads["2"].next == Ready(IntakeValidation)
      && begun.threads["2"].state.request == FILED && begun.threads["2"].state.authenticatedTenant == "t"
      && Run(START, EARLY) == RunNode(begun, "2", HASTY)
      && LogOf(RunNode(begun, "2", HASTY), "2") == [RequestValidated]
  {
    var a, b, c := EARLY[0], EARLY[1], EARLY[2];
    assert EARLY[..2] == [a, b] && [a, b][..1] == [a];
    RunOne(START, a);
    assert Run(START, [a, b]) == Act(Act(START, a), b);
    assert Run(START, EARLY) == Act(Run(START, [a, b]), c);
  }

  /** The run driven on from there is blocked. */
  lemma EarlyLeadsToBlocked() returns (more: seq<Step>)
    ensures
      var w := Run(Run(START, EARLY), more);
      "2" in w.repo.runs && w.repo.runs["2"].status == Blocked
  {
    hide Run, Act, RunNode, Drive, LogOf, Policy.EvidenceSound, Policy.Decide;
    EarlyWorlds();
    var filed := Act(START, OpenCase("1", FILED, "t", false));
    var begun := BeginRun(filed, "2", "1", "t", None);
    Outcomes.TrunkNode(begun, "2", HASTY, IntakeValidation);
    var w := Run(START, EARLY);
    LeadsToSelf(w);
    DriveLeads(w, w, "2", HASTY);
    LeadsToStep(w, Drive(w, "2", HASTY), RecordOutcome("2", 0));
    Outcomes.StartAwaitsIff(filed, "2", "1", "t", None, HASTY);
    DriveEnds(w, "2", HASTY);
    RecordIsAStep(Drive(w, "2", HASTY), "2", 0);
    more :| StartCall(filed, "2", "1", "t", None, HASTY) == Run(w, more);
  }

  lemma RecordIsAStep(w: World, r: Uuid, now: int)
    requires r in w.threads
    ensures Act(w, RecordOutcome(r, now)) == Record(w, r, now)
  {
  }

  /** The first poll has sent something, announces the end, and has not sent the closure that
      the log then holds. */
  ghost predicate Missed(steps: seq<Step>, r: Uuid, ids: seq<string>, clock: Clock) {
    && IdsFor(ids, LogOf(Run(START, steps), r)) && InTime(steps, clock)
    && AppendOnly(FeedOf(steps, r, ids, clock)) && Over(FeedOf(steps, r, ids, clock), 0)
    && var sent := EventsOf(EventsIn(Frames(FeedOf(steps, r, ids, clock), 1)));
       sent != [] && !HoldsClosure(sent) && HoldsClosure(LogOf(WorldAt(steps, SecondRead(clock, 0)), r))
  }

  /** The first poll reads the log when three steps are done, and everything else is read at
      the end. */
  function HastyClock(steps: seq<Step>): Clock {
    Clock(n => if n == 0 then 3 else |steps|, _ => |steps|)
  }

  lemma HastyInTime(steps: seq<Step>)
    requires |steps| >= 3
    ensures InTime(steps, HastyClock(steps))
    ensures FirstRead(HastyClock(steps), 0) == 3 && SecondRead(HastyClock(steps), 0) == |steps|
  {
    assert forall n: nat :: ReadInTime(steps, HastyClock(steps), n);
  }

  lemma BlockedIsOver(steps: seq<Step>, r: Uuid, ids: seq<string>)
    requires |steps| >= 3 && IdsFor(ids, LogOf(Run(START, steps), r))
    requires r in Run(START, steps).repo.runs && Run(START, steps).repo.runs[r].status == Blocked
    ensures Over(FeedOf(steps, r, ids, HastyClock(steps)), 0)
  {
    hide Run, LogOf;
    WholeWorld(steps);
    HastyInTime(steps);
  }

  /** Any history that is early after three steps and blocked at its end has such a poll. */
  lemma HastyPollMisses(steps: seq<Step>, r: Uuid, ids: seq<string>)
    requires |steps| >= 3 && IdsFor(ids, LogOf(Run(START, steps), r))
    requires r in Run(START, steps).repo.runs && Run(START, steps).repo.runs[r].status == Blocked
    requires !GraphEnded(WorldAt(steps, 3), r) && LogOf(WorldAt(steps, 3), r) != []
    ensures Missed(steps, r, ids, HastyClock(steps))
  {
    BlockedIsOver(steps, r, ids);
    HastyInTime(steps);
    hide Run, WorldAt, LogOf, AppendOnly, InTime, IdsFor, EventsIn, Frames, HoldsClosure, GraphEnded, Over, HastyClock;
    ClosureIsSentIff(steps, r, ids, HastyClock(steps), 1);
    SentIsTheLog(steps, r, ids, HastyClock(steps), 1);
  }

  /** There is a history in which a poll reads the log of a run after its first event and the
      status after its end: the end is announced to a subscriber without the closure. */
  lemma ClosureCanBeMissed()
    ensures exists steps, r, ids, clock :: Missed(steps, r, ids, clock)
  {
    hide Run, Act, LogOf, GraphEnded, Missed;
    var more := EarlyLeadsToBlocked();
    var steps := EARLY + more;
    RunAppend(START, EARLY, more);
    var ids := SomeIds(|LogOf(Run(START, steps), "2")|);
    SomeIdsDistinct(|ids|);
    assert steps[..3] == EARLY;
    NotEndedYet();
    HastyPollMisses(steps, "2", ids);
  }

  lemma NotEndedYet()
    ensures !GraphEnded(Run(START, EARLY), "2") && LogOf(Run(START, EARLY), "2") == [RequestValidated]
  {
    EarlyWorlds();
    hide Run;
  }
}
