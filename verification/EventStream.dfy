/** The event stream of a run (api.py, get_events): a subscriber polls a log that others go on
    appending to, and keeps the set of event ids it has already sent. */
module EventStream {
  import opened Domain

  datatype Entry = Entry(id: string, event: Event)

  datatype Frame = Sent(entry: Entry) | End(status: RunStatus) | Heartbeat

  /** The log as it will be in the end, how much of it each poll gets to see, how much of it
      there is when the poll goes on to read the run, and the status it then reads. Module
      StreamOfRun draws this from the history of a run. */
  datatype Feed = Feed(log: seq<Entry>, seen: nat -> nat, there: nat -> nat, status: nat -> Option<RunStatus>)

  const PATIENCE := 30

  predicate DistinctIds(log: seq<Entry>) {
    forall i, j | 0 <= i < j < |log| :: log[i].id != log[j].id
  }

  /** The log is only appended to, and event ids are not used twice. */
  ghost predicate AppendOnly(f: Feed) {
    DistinctIds(f.log) && forall n: nat :: PollOrdered(f, n)
  }

  predicate PollOrdered(f: Feed, n: nat) {
    f.seen(n) <= f.there(n) <= f.seen(n + 1) <= |f.log|
  }

  function Before(f: Feed, n: nat): nat {
    if n == 0 then 0 else f.seen(n - 1)
  }

  predicate Over(f: Feed, n: nat) {
    f.status(n).Some? && f.status(n).value in {Completed, Blocked, FailedRun}
  }

  /** Poll n brings nothing new. */
  predicate Idle(f: Feed, n: nat) {
    f.seen(n) == Before(f, n)
  }

  /** The last thirty of the first n polls brought nothing. */
  predicate Quiet(f: Feed, n: nat) {
    n >= PATIENCE && forall k | n - PATIENCE <= k < n :: Idle(f, k)
  }

  function Sents(entries: seq<Entry>): seq<Frame> {
    seq(|entries|, i requires 0 <= i < |entries| => Sent(entries[i]))
  }

  /** What poll n sends: the entries that are new to it, and an end or a heartbeat. */
  function FramesOf(f: Feed, n: nat): seq<Frame>
    requires Before(f, n) <= f.seen(n) <= |f.log|
  {
    Sents(f.log[Before(f, n)..f.seen(n)])
    + if Over(f, n) then [End(f.status(n).value)] else if Idle(f, n) then [Heartbeat] else []
  }

  ghost function Frames(f: Feed, n: nat): seq<Frame>
    requires AppendOnly(f)
  {
    if n == 0 then [] else
      SeenGrows(f, n - 1);
      Frames(f, n - 1) + FramesOf(f, n - 1)
  }

  lemma SeenGrows(f: Feed, n: nat)
    requires AppendOnly(f)
    ensures Before(f, n) <= f.seen(n) <= |f.log|
  {
    assert PollOrdered(f, n) && (n > 0 ==> PollOrdered(f, n - 1));
  }

  function Ids(entries: seq<Entry>): set<string> {
    set e | e in entries :: e.id
  }

  function Unsent(entries: seq<Entry>, sent: set<string>): seq<Entry> {
    if entries == [] then []
    else
      var last := entries[|entries| - 1];
      Unsent(entries[..|entries| - 1], sent) + if last.id in sent then [] else [last]
  }

  /** With distinct ids, filtering out what was sent is dropping the prefix that was sent. */
  lemma {:induction false} UnsentIsTheRest(log: seq<Entry>, n: nat, m: nat)
    requires DistinctIds(log) && n <= m <= |log|
    ensures Unsent(log[..m], Ids(log[..n])) == log[n..m]
    decreases m
  {
    if m == 0 {
    } else if m == n {
      AllSent(log, n, n);
    } else {
      UnsentIsTheRest(log, n, m - 1);
      assert log[..m][..m - 1] == log[..m - 1];
      assert log[m - 1].id !in Ids(log[..n]);
    }
  }

  lemma {:induction false} AllSent(log: seq<Entry>, k: nat, n: nat)
    requires k <= n <= |log|
    ensures Unsent(log[..k], Ids(log[..n])) == []
  {
    if k > 0 {
      AllSent(log, k - 1, n);
      assert log[..k][..k - 1] == log[..k - 1];
      assert log[k - 1] in log[..n];
    }
  }

  /** The stream has not stopped in the first n polls. */
  predicate GoesOn(f: Feed, n: nat) {
    forall k | 0 <= k < n :: !Over(f, k) && !Quiet(f, k)
  }

  /** So many polls in a row, and no more, have brought nothing. */
  predicate IdleFor(f: Feed, n: nat, idle: nat) {
    && idle <= n && (forall k | n - idle <= k < n :: Idle(f, k))
    && (idle < n ==> !Idle(f, n - idle - 1))
  }

  lemma PatienceLasts(f: Feed, n: nat, idle: nat)
    requires IdleFor(f, n, idle)
    ensures Quiet(f, n) <==> idle >= PATIENCE
  {
  }

  lemma OnePoll(f: Feed, n: nat, idle: nat)
    requires AppendOnly(f) && IdleFor(f, n, idle)
    ensures IdleFor(f, n + 1, if Idle(f, n) then idle + 1 else 0)
  {
  }

  lemma OneFrame(entries: seq<Entry>, i: nat)
    requires i < |entries|
    ensures Sents(entries[..i + 1]) == Sents(entries[..i]) + [Sent(entries[i])]
    ensures Ids(entries[..i + 1]) == Ids(entries[..i]) + {entries[i].id}
  {
    assert entries[..i + 1] == entries[..i] + [entries[i]];
  }

  lemma SentSoFar(f: Feed, n: nat)
    requires AppendOnly(f)
    ensures Before(f, n) <= f.seen(n) <= |f.log|
    ensures Ids(f.log[..f.seen(n)]) == Ids(f.log[..Before(f, n)]) + Ids(f.log[Before(f, n)..f.seen(n)])
  {
    SeenGrows(f, n);
    assert f.log[..f.seen(n)] == f.log[..Before(f, n)] + f.log[Before(f, n)..f.seen(n)];
  }

  lemma NewIsTheRest(f: Feed, n: nat)
    requires AppendOnly(f) && Before(f, n) <= f.seen(n) <= |f.log|
    ensures Unsent(f.log[..f.seen(n)], Ids(f.log[..Before(f, n)])) == f.log[Before(f, n)..f.seen(n)]
    ensures Idle(f, n) <==> f.log[Before(f, n)..f.seen(n)] == []
  {
    hide Unsent, Ids;
    UnsentIsTheRest(f.log, Before(f, n), f.seen(n));
  }

  lemma FramesNext(f: Feed, n: nat)
    requires AppendOnly(f)
    ensures Before(f, n) <= f.seen(n) <= |f.log|
    ensures
      Frames(f, n + 1) ==
      Frames(f, n) + Sents(f.log[Before(f, n)..f.seen(n)])
      + if Over(f, n) then [End(f.status(n).value)] else if Idle(f, n) then [Heartbeat] else []
  {
    hide Sents, Idle;
    SeenGrows(f, n);
  }

  lemma StreamStarts(f: Feed)
    requires AppendOnly(f)
    ensures IdleFor(f, 0, 0) && Frames(f, 0) == [] && Ids(f.log[..0]) == {} && forall entries: seq<Entry> ::
        entries[..0] == []
    ensures Sents([]) == [] && Ids([]) == {}
  {
  }

  lemma OverMeans(f: Feed, n: nat)
    ensures Over(f, n) <==> f.status(n).Some? && f.status(n).value in {Completed, Blocked, FailedRun}
  {
  }

  /** The stream stops at the first poll that reads a finished run or ends thirty idle polls
      in a row; until then it has sent, poll by poll, exactly what was new. It stops always:
      each poll either brings something of what is still to come or wears out patience. */
  method Stream(f: Feed) returns (frames: seq<Frame>, polls: nat)
    requires AppendOnly(f)
    ensures polls > 0 && frames == Frames(f, polls)
    ensures GoesOn(f, polls - 1) && !Quiet(f, polls - 1) && (Over(f, polls - 1) || Quiet(f, polls))
  {
    hide Quiet, Idle, IdleFor, Over, Frames, Ids, Sents, AppendOnly, Unsent;
    var sent: set<string> := {};
    var idle := 0;
    frames, polls := [], 0;
    StreamStarts(f);
    while idle < PATIENCE
      invariant idle <= PATIENCE && idle <= polls && IdleFor(f, polls, idle) && GoesOn(f, polls)
      invariant Before(f, polls) <= |f.log| && sent == Ids(f.log[..Before(f, polls)])
      invariant frames == Frames(f, polls)
      decreases |f.log| - Before(f, polls), PATIENCE - idle
    {
      SentSoFar(f, polls);
      OnePoll(f, polls, idle);
      PatienceLasts(f, polls, idle);
      FramesNext(f, polls);
      var events := f.log[..f.seen(polls)];
      var newEvents := Unsent(events, sent);
      NewIsTheRest(f, polls);
      var i := 0;
      ghost var frames0, sent0 := frames, sent;
      while i < |newEvents|
        invariant 0 <= i <= |newEvents|
        invariant frames == frames0 + Sents(newEvents[..i])
        invariant sent == sent0 + Ids(newEvents[..i])
      {
        OneFrame(newEvents, i);
        sent := sent + {newEvents[i].id};
        frames := frames + [Sent(newEvents[i])];
        i := i + 1;
      }
      assert newEvents[..i] == newEvents;
      OverMeans(f, polls);
      var status := f.status(polls);
      polls := polls + 1;
      if status.Some? && status.value in {Completed, Blocked, FailedRun} {
        frames := frames + [End(status.value)];
        return;
      }
      idle := if newEvents != [] then 0 else idle + 1;
      if newEvents == [] {
        frames := frames + [Heartbeat];
      }
    }
    PatienceLasts(f, polls, idle);
  }

  // ----- What the subscriber has -----

  function EventsIn(frames: seq<Frame>): seq<Entry> {
    if frames == [] then []
    else
      var last := frames[|frames| - 1];
      EventsIn(frames[..|frames| - 1]) + if last.Sent? then [last.entry] else []
  }

  lemma {:induction false} EventsInConcat(a: seq<Frame>, b: seq<Frame>)
    ensures EventsIn(a + b) == EventsIn(a) + EventsIn(b)
  {
    if b == [] {
      assert a + b == a;
    } else {
      EventsInConcat(a, b[..|b| - 1]);
      assert (a + b)[..|a + b| - 1] == a + b[..|b| - 1];
    }
  }

  lemma {:induction false} EventsInSents(entries: seq<Entry>)
    ensures EventsIn(Sents(entries)) == entries
  {
    if entries != [] {
      EventsInSents(entries[..|entries| - 1]);
      assert Sents(entries)[..|entries| - 1] == Sents(entries[..|entries| - 1]);
    }
  }

  lemma {:induction false} EventsSent(f: Feed, n: nat)
    requires AppendOnly(f)
    ensures Before(f, n) <= |f.log| && EventsIn(Frames(f, n)) == f.log[..Before(f, n)]
  {
    hide EventsIn, Sents, Idle, AppendOnly;
    if n == 0 {
      NothingSent();
    } else {
      EventsSent(f, n - 1);
      FramesNext(f, n - 1);
      hide Frames;
      var arrived := f.log[Before(f, n - 1)..f.seen(n - 1)];
      EventsInConcat(Frames(f, n - 1), Sents(arrived));
      EventsInSents(arrived);
      NothingSent();
      if Over(f, n - 1) {
        EventsInConcat(Frames(f, n - 1) + Sents(arrived), [End(f.status(n - 1).value)]);
      } else if Idle(f, n - 1) {
        EventsInConcat(Frames(f, n - 1) + Sents(arrived), [Heartbeat]);
      } else {
        assert Frames(f, n) == Frames(f, n - 1) + Sents(arrived);
      }
      assert f.log[..f.seen(n - 1)] == f.log[..Before(f, n - 1)] + arrived;
    }
  }

  lemma NothingSent()
    ensures EventsIn([]) == [] && EventsIn([Heartbeat]) == [] && forall status :: EventsIn([End(status)]) == []
  {
    assert [Heartbeat][..0] == [];
    assert forall status :: [End(status)][..0] == [];
  }

  /** After any frame whatever, what the subscriber has been sent is a prefix of the log: in
      order, without gaps and without repetitions. */
  lemma PrefixAtEveryPoint(f: Feed, polls: nat, cut: nat)
    requires AppendOnly(f) && cut <= |Frames(f, polls)|
    ensures EventsIn(Frames(f, polls)[..cut]) <= f.log
  {
    hide EventsIn, Frames, AppendOnly;
    var frames := Frames(f, polls);
    EventsSent(f, polls);
    EventsInConcat(frames[..cut], frames[cut..]);
    assert frames == frames[..cut] + frames[cut..];
  }

  // ----- Ends and heartbeats -----

  /** On a log nobody adds to and a run that never ends, the thirtieth poll is the last. */
  lemma ThirtyIdlePolls(f: Feed)
    requires AppendOnly(f) && forall n: nat :: f.seen(n) == 0
    ensures Quiet(f, 30) && forall n: nat | n < 30 :: !Quiet(f, n)
  {
    assert forall k: nat :: Before(f, k) == 0;
  }

  /** Up to a poll that finds the run still on, nothing but events and heartbeats is sent. */
  lemma {:induction false} NoEndBefore(f: Feed, n: nat)
    requires AppendOnly(f) && forall k | 0 <= k < n :: !Over(f, k)
    ensures forall i | 0 <= i < |Frames(f, n)| :: !Frames(f, n)[i].End?
  {
    hide Over, Idle, AppendOnly;
    if n > 0 {
      NoEndBefore(f, n - 1);
      FramesNext(f, n - 1);
      hide Frames;
      SentsAreEvents(f.log[Before(f, n - 1)..f.seen(n - 1)]);
    } else {
      assert Frames(f, 0) == [];
    }
  }

  lemma SentsAreEvents(entries: seq<Entry>)
    ensures forall i | 0 <= i < |Sents(entries)| :: Sents(entries)[i].Sent?
  {
  }

  /** The poll that finds the run over sends what is new and then, last of all, one end frame
      with the status it has read. */
  lemma EndComesLast(f: Feed, n: nat)
    requires AppendOnly(f) && f.status(n) in {Some(Completed), Some(Blocked), Some(FailedRun)}
    requires forall k | 0 <= k < n :: f.status(k) in {None, Some(Queued), Some(Running), Some(AwaitingApproval)}
    ensures
      var frames := Frames(f, n + 1);
      && |frames| > 0 && frames[|frames| - 1] == End(f.status(n).value)
      && forall i | 0 <= i < |frames| - 1 :: !frames[i].End?
  {
    NoEndBefore(f, n);
    FramesNext(f, n);
    SentsAreEvents(f.log[Before(f, n)..f.seen(n)]);
    hide Frames, Sents;
  }

  /** A poll with nothing new and a run still on sends one heartbeat, and a poll with something
      new sends none. */
  lemma HeartbeatIffIdle(f: Feed, n: nat)
    requires AppendOnly(f) && !Over(f, n)
    ensures Frames(f, n) + [Heartbeat] == Frames(f, n + 1) <==> f.seen(n) == (if n == 0 then 0 else f.seen(n - 1))
  {
    FramesNext(f, n);
    hide Frames;
    var added := Sents(f.log[Before(f, n)..f.seen(n)]);
    if added != [] {
      assert (Frames(f, n) + added)[|Frames(f, n)|].Sent?;
      assert (Frames(f, n) + [Heartbeat])[|Frames(f, n)|] == Heartbeat;
    }
  }
}
