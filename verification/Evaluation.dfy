/** The evaluation harness (eval_harness.py): every case is run by two runners, finished pairs
    are appended to a checkpoint file in whatever order they finish, and an evaluation that
    was interrupted resumes from the file. The runners are taken to be deterministic, and a
    line to be written whole. */
module Evaluation {
  import opened Domain

  datatype EvalCase = EvalCase(id: string, category: string, fault: Option<string>, attack: Option<string>,
      request: CaseRequest)

  datatype Variant = Baseline | Controlled

  /** The part of a result that a deterministic runner determines: all but the latency. */
  datatype EvalResult = EvalResult(
    caseId: string,
    category: string,
    runner: Variant,
    taskSuccess: bool,
    recovered: Option<bool>,
    unsafeWrite: bool,
    unauthorizedWrite: bool,
    crossTenantLeakage: bool,
    duplicateSideEffect: bool,
    unsupportedClaims: nat,
    retrievalHitsAt5: nat,
    retrievalRelevant: nat,
    modelCostUsd: real,
    detail: string)

  datatype Pair = Pair(baseline: EvalResult, controlled: EvalResult)

  datatype Line = Blank | Finished(caseId: string, pair: Pair)

  datatype Runners = Runners(baseline: EvalCase -> EvalResult, controlled: EvalCase -> EvalResult)

  function RunPair(runners: Runners, c: EvalCase): Pair {
    Pair(runners.baseline(c), runners.controlled(c))
  }

  /** What an evaluation without any checkpoint gives: all the baseline results, then all the
      controlled ones. */
  function Plain(runners: Runners, cases: seq<EvalCase>): seq<EvalResult> {
    seq(|cases|, i requires 0 <= i < |cases| => runners.baseline(cases[i]))
    + seq(|cases|, i requires 0 <= i < |cases| => runners.controlled(cases[i]))
  }

  function BaselinesOf(pairs: seq<Pair>): seq<EvalResult> {
    seq(|pairs|, i requires 0 <= i < |pairs| => pairs[i].baseline)
  }

  function ControlledOf(pairs: seq<Pair>): seq<EvalResult> {
    seq(|pairs|, i requires 0 <= i < |pairs| => pairs[i].controlled)
  }

  // ----- The file and the cache -----

  /** What the lines of a file hold; a later line for a case replaces an earlier one. */
  function Cached(lines: seq<Line>): map<string, Pair> {
    if lines == [] then map[]
    else
      var rest, last := Cached(lines[..|lines| - 1]), lines[|lines| - 1];
      if last.Blank? then rest else rest[last.caseId := last.pair]
  }

  function IdsIn(lines: seq<Line>): seq<string> {
    if lines == [] then []
    else
      var last := lines[|lines| - 1];
      IdsIn(lines[..|lines| - 1]) + if last.Blank? then [] else [last.caseId]
  }

  lemma {:induction false} CacheHoldsTheIds(lines: seq<Line>, id: string)
    ensures id in Cached(lines) <==> id in IdsIn(lines)
  {
    if lines != [] {
      CacheHoldsTheIds(lines[..|lines| - 1], id);
    }
  }

  /** A later line for a case replaces what earlier ones held, and no other case's. */
  lemma LaterLineWins(lines: seq<Line>, id: string, pair: Pair, other: string)
    ensures id in Cached(lines + [Finished(id, pair)]) && Cached(lines + [Finished(id, pair)])[id] == pair
    ensures other != id ==> Find(Cached(lines + [Finished(id, pair)]), other) == Find(Cached(lines), other)
    ensures Cached(lines + [Blank]) == Cached(lines)
  {
    assert (lines + [Finished(id, pair)])[..|lines|] == lines && (lines + [Blank])[..|lines|] == lines;
  }

  function CaseIds(cases: seq<EvalCase>): seq<string> {
    seq(|cases|, i requires 0 <= i < |cases| => cases[i].id)
  }

  predicate Distinct<T(==)>(s: seq<T>) {
    forall i, j | 0 <= i < j < |s| :: s[i] != s[j]
  }

  // ----- One attempt -----

  /** An order in which pairs may finish: each case at most once, and none that was cached. */
  predicate Schedule(cases: seq<EvalCase>, cached: map<string, Pair>, order: seq<nat>) {
    && Distinct(order)
    && forall k | 0 <= k < |order| :: order[k] < |cases| && cases[order[k]].id !in cached
  }

  /** The attempt was not interrupted. */
  predicate Complete(cases: seq<EvalCase>, cached: map<string, Pair>, order: seq<nat>) {
    forall i: nat | i < |cases| && cases[i].id !in cached :: i in order
  }

  function LineOf(runners: Runners, c: EvalCase): Line {
    Finished(c.id, RunPair(runners, c))
  }

  /** The lines an attempt appends. */
  function Appended(runners: Runners, cases: seq<EvalCase>, order: seq<nat>): seq<Line>
    requires forall k | 0 <= k < |order| :: order[k] < |cases|
  {
    seq(|order|, k requires 0 <= k < |order| => LineOf(runners, cases[order[k]]))
  }

  /** One line for each finished pair, in the order in which they finish: the case's id and the
      two runners' results. */
  lemma AppendedLines(runners: Runners, cases: seq<EvalCase>, order: seq<nat>, k: nat)
    requires forall i | 0 <= i < |order| :: order[i] < |cases|
    requires k < |order|
    ensures |Appended(runners, cases, order)| == |order|
    ensures
      var c := cases[order[k]];
      Appended(runners, cases, order)[k] == Finished(c.id, Pair(runners.baseline(c), runners.controlled(c)))
  {
  }

  /** What an attempt gives for a case: the cached pair, or else a new one. */
  function PairFor(runners: Runners, cached: map<string, Pair>, c: EvalCase): Pair {
    if c.id in cached then cached[c.id] else RunPair(runners, c)
  }

  function PairsFor(runners: Runners, cases: seq<EvalCase>, cached: map<string, Pair>): seq<Pair> {
    seq(|cases|, i requires 0 <= i < |cases| => PairFor(runners, cached, cases[i]))
  }

  /** The result list of an attempt, if it was not interrupted. */
  function ResultOf(runners: Runners, cases: seq<EvalCase>, file: seq<Line>, order: seq<nat>): Option<seq<EvalResult>>
    requires Schedule(cases, Cached(file), order)
  {
    if Complete(cases, Cached(file), order) then
      var pairs := PairsFor(runners, cases, Cached(file));
      Some(BaselinesOf(pairs) + ControlledOf(pairs))
    else None
  }

  /** Every line is what the runners give for its case. */
  ghost predicate Honest(runners: Runners, cases: seq<EvalCase>, lines: seq<Line>) {
    forall k, i | 0 <= k < |lines| && 0 <= i < |cases| && lines[k].Finished? && lines[k].caseId == cases[i].id ::
      lines[k].pair == RunPair(runners, cases[i])
  }

  lemma {:induction false} CacheIsHonest(runners: Runners, cases: seq<EvalCase>, lines: seq<Line>, i: nat)
    requires Honest(runners, cases, lines) && i < |cases| && cases[i].id in Cached(lines)
    ensures Cached(lines)[cases[i].id] == RunPair(runners, cases[i])
  {
    var last := lines[|lines| - 1];
    if last.Blank? || last.caseId != cases[i].id {
      CacheIsHonest(runners, cases, lines[..|lines| - 1], i);
    }
  }

  /** One evaluation: load the file, run what it lacks, append, assemble. Pairs finish in the
      given order; if some never finish, there is no result. */
  method Evaluate(runners: Runners, cases: seq<EvalCase>, file: seq<Line>, order: seq<nat>)
    returns (result: Option<seq<EvalResult>>, file': seq<Line>)
    requires Schedule(cases, Cached(file), order)
    ensures file' == file + Appended(runners, cases, order)
    ensures result == ResultOf(runners, cases, file, order)
  {
    var cached: map<string, Pair> := map[];
    for n := 0 to |file|
      invariant cached == Cached(file[..n])
    {
      assert file[..n + 1][..n] == file[..n];
      if file[n].Finished? {
        cached := cached[file[n].caseId := file[n].pair];
      }
    }
    assert file[..|file|] == file;

    var done: map<nat, Pair> := map[];
    file' := file;
    for k := 0 to |order|
      invariant file' == file + Appended(runners, cases, order[..k])
      invariant forall i :: i in done <==> i in order[..k]
      invariant forall i | i in done :: i < |cases| && done[i] == RunPair(runners, cases[i])
    {
      var c := cases[order[k]];
      var pair := Pair(runners.baseline(c), runners.controlled(c));
      file' := file' + [Finished(c.id, pair)];
      done := done[order[k] := pair];
      assert order[..k + 1] == order[..k] + [order[k]];
      assert Appended(runners, cases, order[..k + 1]) == Appended(runners, cases, order[..k]) + [LineOf(runners, c)];
    }
    assert order[..|order|] == order;

    var pairs: seq<Pair> := [];
    for i := 0 to |cases|
      invariant |pairs| == i
      invariant forall j | 0 <= j < i :: cases[j].id in cached || j in done
      invariant forall j | 0 <= j < i :: pairs[j] == if cases[j].id in cached then cached[cases[j].id] else done[j]
    {
      if cases[i].id in cached {
        pairs := pairs + [cached[cases[i].id]];
      } else if i in done {
        pairs := pairs + [done[i]];
      } else {
        return None, file';
      }
    }
    assert pairs == PairsFor(runners, cases, cached);
    return Some(BaselinesOf(pairs) + ControlledOf(pairs)), file';
  }

  // ----- Any number of attempts on one file -----

  /** Attempts one after the other, each from the file the ones before it left, from no file
      at all. */
  datatype History = NoFile | Then(earlier: History, order: seq<nat>)

  /** The file after the attempts, if their schedules were possible. */
  function FileAfter(runners: Runners, cases: seq<EvalCase>, h: History): Option<seq<Line>> {
    match h
    case NoFile => Some([])
    case Then(earlier, order) =>
      match FileAfter(runners, cases, earlier)
      case None => None
      case Some(file) =>
        if Schedule(cases, Cached(file), order) then Some(file + Appended(runners, cases, order)) else None
  }

  lemma {:induction false} IdsInConcat(a: seq<Line>, b: seq<Line>)
    ensures IdsIn(a + b) == IdsIn(a) + IdsIn(b)
  {
    if b == [] {
      assert a + b == a;
    } else {
      IdsInConcat(a, b[..|b| - 1]);
      assert (a + b)[..|a + b| - 1] == a + b[..|b| - 1];
    }
  }

  function IdsAt(cases: seq<EvalCase>, order: seq<nat>): seq<string>
    requires forall k | 0 <= k < |order| :: order[k] < |cases|
  {
    seq(|order|, k requires 0 <= k < |order| => cases[order[k]].id)
  }

  lemma {:induction false} AppendedIds(runners: Runners, cases: seq<EvalCase>, order: seq<nat>)
    requires forall k | 0 <= k < |order| :: order[k] < |cases|
    ensures IdsIn(Appended(runners, cases, order)) == IdsAt(cases, order)
  {
    if order != [] {
      var init := order[..|order| - 1];
      AppendedIds(runners, cases, init);
      var lines := Appended(runners, cases, order);
      assert lines[..|lines| - 1] == Appended(runners, cases, init);
      assert IdsAt(cases, order) == IdsAt(cases, init) + [cases[order[|order| - 1]].id];
    }
  }

  /** The case ids of a suite are unique (the suite loader insists on it). */
  predicate UniqueIds(cases: seq<EvalCase>) {
    Distinct(CaseIds(cases))
  }

  lemma UniqueCase(cases: seq<EvalCase>, i: nat, j: nat)
    requires UniqueIds(cases) && i < |cases| && j < |cases| && cases[i].id == cases[j].id
    ensures i == j
  {
    assert CaseIds(cases)[i] == CaseIds(cases)[j];
  }

  /** Cases that share an id have the same results, so that it does not matter whose are kept. */
  ghost predicate Agreeing(runners: Runners, cases: seq<EvalCase>) {
    forall i, j | 0 <= i < |cases| && 0 <= j < |cases| && cases[i].id == cases[j].id ::
      RunPair(runners, cases[i]) == RunPair(runners, cases[j])
  }

  lemma UniqueAgree(runners: Runners, cases: seq<EvalCase>)
    requires UniqueIds(cases)
    ensures Agreeing(runners, cases)
  {
    forall i, j | 0 <= i < |cases| && 0 <= j < |cases| && cases[i].id == cases[j].id
      ensures RunPair(runners, cases[i]) == RunPair(runners, cases[j])
    {
      UniqueCase(cases, i, j);
    }
  }

  // ----- Resuming gives the plain result -----

  lemma {:induction false} HistoryIsHonest(runners: Runners, cases: seq<EvalCase>, h: History)
    requires Agreeing(runners, cases) && FileAfter(runners, cases, h).Some?
    ensures Honest(runners, cases, FileAfter(runners, cases, h).value)
  {
    if h.Then? {
      HistoryIsHonest(runners, cases, h.earlier);
      var file: seq<Line> := FileAfter(runners, cases, h.earlier).value;
      var lines: seq<Line> := Appended(runners, cases, h.order);
      forall k, i | 0 <= k < |file + lines| && 0 <= i < |cases| && (file + lines)[k].Finished?
          && (file + lines)[k].caseId == cases[i].id
        ensures (file + lines)[k].pair == RunPair(runners, cases[i])
      {
        if k < |file| {
          assert (file + lines)[k] == file[k];
        } else {
          assert (file + lines)[k] == LineOf(runners, cases[h.order[k - |file|]]);
        }
      }
    }
  }

  lemma HonestIsPlain(runners: Runners, cases: seq<EvalCase>, file: seq<Line>, order: seq<nat>)
    requires Honest(runners, cases, file) && Schedule(cases, Cached(file), order)
        && Complete(cases, Cached(file), order)
    ensures ResultOf(runners, cases, file, order) == Some(Plain(runners, cases))
  {
    var pairs := PairsFor(runners, cases, Cached(file));
    forall i | 0 <= i < |cases| ensures pairs[i] == RunPair(runners, cases[i]) {
      if cases[i].id in Cached(file) {
        CacheIsHonest(runners, cases, file, i);
      }
    }
    assert BaselinesOf(pairs) + ControlledOf(pairs) == Plain(runners, cases);
  }

  /** Resuming after this history, uninterrupted, gives the plain result. */
  ghost predicate ResumesPlain(runners: Runners, cases: seq<EvalCase>, h: History, order: seq<nat>) {
    FileAfter(runners, cases, h).Some? && Schedule(cases, Cached(FileAfter(runners, cases, h).value), order)
    && Complete(cases, Cached(FileAfter(runners, cases, h).value), order)
    ==> ResultOf(runners, cases, FileAfter(runners, cases, h).value, order) == Some(Plain(runners, cases))
  }

  lemma AgreeingResumesPlain(runners: Runners, cases: seq<EvalCase>, h: History, order: seq<nat>)
    requires Agreeing(runners, cases)
    ensures ResumesPlain(runners, cases, h, order)
  {
    hide Agreeing, Honest, Schedule, Complete, ResultOf;
    if FileAfter(runners, cases, h).Some? {
      HistoryIsHonest(runners, cases, h);
      var file := FileAfter(runners, cases, h).value;
      if Schedule(cases, Cached(file), order) && Complete(cases, Cached(file), order) {
        HonestIsPlain(runners, cases, file, order);
      }
    }
  }

  function InOrder(n: nat): seq<nat> {
    seq(n, i => i)
  }

  /** A full attempt from no file leaves nothing to do. */
  lemma FullAttempt(runners: Runners, cases: seq<EvalCase>)
    ensures
      var file := Appended(runners, cases, InOrder(|cases|));
      && FileAfter(runners, cases, Then(NoFile, InOrder(|cases|))) == Some(file)
      && Schedule(cases, Cached(file), []) && Complete(cases, Cached(file), [])
      && forall i: nat | i < |cases| :: cases[i].id in Cached(file)
  {
    hide IdsIn;
    var file := Appended(runners, cases, InOrder(|cases|));
    assert [] + file == file;
    assert FileAfter(runners, cases, NoFile) == Some([]);
    AppendedIds(runners, cases, InOrder(|cases|));
    hide Cached, LineOf;
    forall i: nat | i < |cases| ensures cases[i].id in Cached(file) {
      CacheHoldsTheIds(file, cases[i].id);
      assert IdsAt(cases, InOrder(|cases|))[i] == cases[i].id;
    }
    assert Schedule(cases, Cached([]), InOrder(|cases|)) by { EmptyCache(); }
  }

  lemma EmptyCache()
    ensures Cached([]) == map[]
  {
  }

  /** One full attempt, then one more: if that gives the plain result, cases that share an id
      share their results. */
  lemma ResumedTwiceAgrees(runners: Runners, cases: seq<EvalCase>)
    requires ResumesPlain(runners, cases, Then(NoFile, InOrder(|cases|)), [])
    ensures Agreeing(runners, cases)
  {
    FullAttempt(runners, cases);
    hide Cached, FileAfter, Schedule, Complete, Appended, BaselinesOf, ControlledOf, Plain, RunPair;
    var file := Appended(runners, cases, InOrder(|cases|));
    var pairs := PairsFor(runners, cases, Cached(file));
    forall i: nat, j: nat | i < |cases| && j < |cases| && cases[i].id == cases[j].id
      ensures RunPair(runners, cases[i]) == RunPair(runners, cases[j])
    {
      assert pairs[i] == pairs[j];
      ResultAt(runners, cases, pairs, i);
      ResultAt(runners, cases, pairs, j);
    }
  }

  lemma ResultAt(runners: Runners, cases: seq<EvalCase>, pairs: seq<Pair>, i: nat)
    requires i < |cases| == |pairs| && BaselinesOf(pairs) + ControlledOf(pairs) == Plain(runners, cases)
    ensures pairs[i] == RunPair(runners, cases[i])
  {
    assert (BaselinesOf(pairs) + ControlledOf(pairs))[i] == pairs[i].baseline;
    assert (BaselinesOf(pairs) + ControlledOf(pairs))[|cases| + i] == pairs[i].controlled;
  }

  /** Whatever attempts were made and interrupted before, and in whatever order pairs finished:
      resuming gives what a plain evaluation gives, always, exactly when cases that share an
      id share their results. Unique ids, which the suite loader insists on, are enough. */
  lemma ResumingIsPlainIffAgreeing(runners: Runners, cases: seq<EvalCase>)
    ensures (forall h, order :: ResumesPlain(runners, cases, h, order)) <==> Agreeing(runners, cases)
    ensures UniqueIds(cases) ==> Agreeing(runners, cases)
  {
    hide ResumesPlain, Agreeing, UniqueIds;
    if Agreeing(runners, cases) {
      forall h, order ensures ResumesPlain(runners, cases, h, order) {
        AgreeingResumesPlain(runners, cases, h, order);
      }
    }
    if forall h, order :: ResumesPlain(runners, cases, h, order) {
      ResumedTwiceAgrees(runners, cases);
    }
    if UniqueIds(cases) {
      UniqueAgree(runners, cases);
    }
  }

  // ----- One line for each case -----

  ghost predicate LinesOk(cases: seq<EvalCase>, file: seq<Line>) {
    Distinct(IdsIn(file)) && forall id | id in IdsIn(file) :: id in CaseIds(cases)
  }

  lemma AttemptKeepsLines(runners: Runners, cases: seq<EvalCase>, file: seq<Line>, order: seq<nat>)
    requires UniqueIds(cases) && LinesOk(cases, file) && Schedule(cases, Cached(file), order)
    ensures LinesOk(cases, file + Appended(runners, cases, order))
  {
    hide IdsIn, Cached, UniqueIds;
    var held, added := IdsIn(file), IdsAt(cases, order);
    IdsInConcat(file, Appended(runners, cases, order));
    AppendedIds(runners, cases, order);
    forall i, j | 0 <= i < j < |held + added| ensures (held + added)[i] != (held + added)[j] {
      if j >= |held| {
        CacheHoldsTheIds(file, added[j - |held|]);
        if i >= |held| && cases[order[i - |held|]].id == cases[order[j - |held|]].id {
          UniqueCase(cases, order[i - |held|], order[j - |held|]);
        }
      }
    }
    forall id | id in added ensures id in CaseIds(cases) {
      var k :| 0 <= k < |order| && added[k] == id;
      assert CaseIds(cases)[order[k]] == id;
    }
  }

  lemma {:induction false} HistoryKeepsLines(runners: Runners, cases: seq<EvalCase>, h: History)
    requires UniqueIds(cases) && FileAfter(runners, cases, h).Some?
    ensures LinesOk(cases, FileAfter(runners, cases, h).value)
  {
    hide LinesOk, Schedule;
    match h
    case NoFile =>
      assert LinesOk(cases, []) by { EmptyLinesOk(cases); }
    case Then(earlier, order) =>
      HistoryKeepsLines(runners, cases, earlier);
      AttemptKeepsLines(runners, cases, FileAfter(runners, cases, earlier).value, order);
  }

  lemma EmptyLinesOk(cases: seq<EvalCase>)
    ensures LinesOk(cases, [])
  {
  }

  lemma {:induction false} SameElements<T>(s: seq<T>, t: seq<T>)
    requires Distinct(s) && Distinct(t) && forall x :: x in s <==> x in t
    ensures multiset(s) == multiset(t)
  {
    forall x ensures multiset(s)[x] == multiset(t)[x] {
      DistinctCount(s, x);
      DistinctCount(t, x);
    }
  }

  lemma {:induction false} DistinctCount<T>(s: seq<T>, x: T)
    requires Distinct(s)
    ensures multiset(s)[x] == if x in s then 1 else 0
  {
    if s != [] {
      DistinctCount(s[..|s| - 1], x);
      assert s == s[..|s| - 1] + [s[|s| - 1]];
    }
  }

  /** Everything a complete attempt leaves uncached it appends. */
  lemma CompleteCovers(runners: Runners, cases: seq<EvalCase>, file: seq<Line>, order: seq<nat>, i: nat)
    requires Schedule(cases, Cached(file), order) && Complete(cases, Cached(file), order) && i < |cases|
    ensures cases[i].id in IdsIn(file + Appended(runners, cases, order))
  {
    hide IdsIn, Cached;
    IdsInConcat(file, Appended(runners, cases, order));
    AppendedIds(runners, cases, order);
    CacheHoldsTheIds(file, cases[i].id);
    if cases[i].id !in Cached(file) {
      var k :| 0 <= k < |order| && order[k] == i;
      assert IdsAt(cases, order)[k] == cases[i].id;
    }
  }

  /** After any history that ends uninterrupted the file has one line for each case and no
      other, and evaluating again, however often, appends nothing. */
  lemma OneLineForEachCase(runners: Runners, cases: seq<EvalCase>, h: History, order: seq<nat>, again: seq<nat>)
    requires UniqueIds(cases) && FileAfter(runners, cases, Then(h, order)).Some?
    requires Complete(cases, Cached(FileAfter(runners, cases, h).value), order)
    ensures
      var file := FileAfter(runners, cases, Then(h, order)).value;
      && multiset(IdsIn(file)) == multiset(CaseIds(cases))
      && (Schedule(cases, Cached(file), again) ==> again == [])
  {
    hide IdsIn, Cached, UniqueIds, Complete;
    var file := FileAfter(runners, cases, Then(h, order)).value;
    HistoryKeepsLines(runners, cases, Then(h, order));
    forall i: nat | i < |cases| ensures cases[i].id in IdsIn(file) && cases[i].id in Cached(file) {
      CompleteCovers(runners, cases, FileAfter(runners, cases, h).value, order, i);
      CacheHoldsTheIds(file, cases[i].id);
    }
    forall id ensures id in CaseIds(cases) <==> id in IdsIn(file) {
      if id in CaseIds(cases) {
        var i :| 0 <= i < |cases| && CaseIds(cases)[i] == id;
        assert cases[i].id in IdsIn(file);
      }
    }
    assert Distinct(CaseIds(cases)) by { UniqueMeans(cases); }
    SameElements(IdsIn(file), CaseIds(cases));
    if again != [] {
      assert !(again[0] < |cases| && cases[again[0]].id !in Cached(file));
    }
  }

  lemma UniqueMeans(cases: seq<EvalCase>)
    requires UniqueIds(cases)
    ensures Distinct(CaseIds(cases))
  {
  }
}
