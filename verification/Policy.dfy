/** The deterministic policy engine (policy.py): the gates, the last-write-wins merge of
    facts with its conflict detection, and the conditions of each action. */
module Policy {
  import opened Domain

  // ----- Untrusted instructions in case notes -----

  function Lower(c: char): char {
    if 'A' <= c <= 'Z' then (c as int + 32) as char else c
  }

  predicate MatchesAt(text: string, word: string, i: nat) {
    i + |word| <= |text| && forall k | 0 <= k < |word| :: Lower(text[i + k]) == word[k]
  }

  predicate Mentions(text: string, word: string) {
    exists i | 0 <= i <= |text| :: MatchesAt(text, word, i)
  }

  /** The pattern "reveal .*tenant": both words in this order on one line. */
  predicate RevealsTenant(text: string) {
    exists i, j | 0 <= i <= |text| && i + 7 <= j <= |text| ::
      MatchesAt(text, "reveal ", i) && MatchesAt(text, "tenant", j) && '\n' !in text[i + 7..j]
  }

  predicate DetectUntrustedInstruction(text: string) {
    || Mentions(text, "ignore all") || Mentions(text, "ignore any")
    || Mentions(text, "ignore the") || Mentions(text, "ignore previous")
    || Mentions(text, "system prompt")
    || Mentions(text, "bypass policy") || Mentions(text, "bypass approval") || Mentions(text, "bypass tenant")
    || Mentions(text, "call the tool directly") || Mentions(text, "call tool directly")
    || RevealsTenant(text)
  }

  // ----- Facts -----

  /** Python's equality on scalars: a flag equals the number it stands for. */
  function Canon(v: FactValue): FactValue {
    if v.Flag? then Number(if v.flag then 1.0 else 0.0) else v
  }

  predicate SameFact(a: FactValue, b: FactValue) {
    Canon(a) == Canon(b)
  }

  predicate Truthy(v: FactValue) {
    match v
    case Text(t) => t != ""
    case Number(n) => n != 0.0
    case Flag(b) => b
    case Null => false
  }

  type Facts = map<string, FactValue>

  /** The value under a key, or None as Python's dict.get gives it. */
  function Lookup(facts: Facts, key: string): FactValue {
    if key in facts then facts[key] else Null
  }

  /** Later records overwrite earlier ones. */
  function MergedFacts(records: seq<EvidenceRecord>): Facts {
    if records == [] then map[] else MergedFacts(records[..|records| - 1]) + records[|records| - 1].facts
  }

  function Disagreements(facts: Facts, next: Facts): set<string> {
    set k | k in next && k in facts && !SameFact(facts[k], next[k])
  }

  /** The keys the merge flags, record by record. */
  function ConflictKeys(records: seq<EvidenceRecord>): set<string> {
    if records == [] then {}
    else
      var init, last := records[..|records| - 1], records[|records| - 1];
      ConflictKeys(init) + Disagreements(MergedFacts(init), last.facts)
  }

  /** The inner loop: the facts of one record, in any order. */
  method MergeRecord(before: Facts, flagged: set<string>, stated: Facts) returns (facts: Facts, conflicts: set<string>)
    ensures facts == before + stated
    ensures conflicts == flagged + Disagreements(before, stated)
  {
    facts, conflicts := before, flagged;
    var todo := stated.Keys;
    while todo != {}
      invariant todo <= stated.Keys
      invariant facts == before + (map k | k in stated && k !in todo :: stated[k])
      invariant conflicts == flagged + (Disagreements(before, stated) - todo)
    {
      var key :| key in todo;
      if key in facts && !SameFact(facts[key], stated[key]) {
        conflicts := conflicts + {key};
      }
      facts := facts[key := stated[key]];
      todo := todo - {key};
    }
    assert (map k | k in stated && k !in todo :: stated[k]) == stated;
  }

  /** The outer loop: the records in order. */
  method MergeFacts(records: seq<EvidenceRecord>) returns (facts: Facts, conflicts: set<string>)
    ensures facts == MergedFacts(records)
    ensures conflicts == ConflictKeys(records)
  {
    facts, conflicts := map[], {};
    for i := 0 to |records|
      invariant facts == MergedFacts(records[..i])
      invariant conflicts == ConflictKeys(records[..i])
    {
      facts, conflicts := MergeRecord(facts, conflicts, records[i].facts);
      assert records[..i + 1][..i] == records[..i];
    }
    assert records[..|records|] == records;
  }

  /** Some two records state different values for a key. */
  ghost predicate Disagree(records: seq<EvidenceRecord>, key: string) {
    exists i, j | 0 <= i < |records| && 0 <= j < |records| ::
      key in records[i].facts && key in records[j].facts && !SameFact(records[i].facts[key], records[j].facts[key])
  }

  ghost predicate Agree(records: seq<EvidenceRecord>) {
    forall i, j, k | 0 <= i < |records| && 0 <= j < |records| && k in records[i].facts && k in records[j].facts ::
      SameFact(records[i].facts[k], records[j].facts[k])
  }

  /** The merged value of a key is the one stated by some record, and a key is merged
      exactly when some record states it. */
  lemma {:induction false} MergedFrom(records: seq<EvidenceRecord>, key: string) returns (i: nat)
    ensures key in MergedFacts(records) ==>
              i < |records| && key in records[i].facts && records[i].facts[key] == MergedFacts(records)[key]
    ensures (exists j | 0 <= j < |records| :: key in records[j].facts) ==> key in MergedFacts(records)
  {
    i := 0;
    if records != [] {
      var init, last := records[..|records| - 1], |records| - 1;
      var m := MergedFrom(init, key);
      i := if key in records[last].facts then last else m;
      if j :| 0 <= j < |records| && key in records[j].facts {
        if j < last {
          assert init[j] == records[j];
        }
      }
    }
  }

  /** Some record states a key otherwise than the given facts do. */
  ghost predicate Differs(records: seq<EvidenceRecord>, facts: Facts, key: string) {
    key in facts && exists i | 0 <= i < |records| ::
        key in records[i].facts && !SameFact(records[i].facts[key], facts[key])
  }

  /** Disagreement in a longer list: earlier, or with the last record. */
  lemma DisagreeSnoc(init: seq<EvidenceRecord>, last: EvidenceRecord, key: string)
    ensures Disagree(init + [last], key) <==> Disagree(init, key) || Differs(init, last.facts, key)
  {
    hide SameFact;
    var records := init + [last];
    assert records[|init|] == last && forall i | 0 <= i < |init| :: records[i] == init[i];
    SameFactSymmetric();
    if Differs(init, last.facts, key) {
      var i :| 0 <= i < |init| && key in init[i].facts && !SameFact(init[i].facts[key], last.facts[key]);
      assert key in records[i].facts && key in records[|init|].facts
          && !SameFact(records[i].facts[key], records[|init|].facts[key]);
    }
    if Disagree(init, key) {
      var i, j :| 0 <= i < |init| && 0 <= j < |init| && key in init[i].facts && key in init[j].facts
                  && !SameFact(init[i].facts[key], init[j].facts[key]);
      assert key in records[i].facts && key in records[j].facts
          && !SameFact(records[i].facts[key], records[j].facts[key]);
    }
  }

  lemma SameFactSymmetric()
    ensures forall a, b :: SameFact(a, b) <==> SameFact(b, a)
    ensures forall a :: SameFact(a, a)
  {
  }

  /** As long as nothing disagrees, the merged value speaks for every record. */
  lemma MergedSpeaksForAll(records: seq<EvidenceRecord>, facts: Facts, key: string)
    requires !Disagree(records, key)
    ensures key in Disagreements(MergedFacts(records), facts) <==> Differs(records, facts, key)
  {
    var m := MergedFrom(records, key);
    hide MergedFacts;
    if key in MergedFacts(records) && key in facts {
      forall i | 0 <= i < |records| && key in records[i].facts
        ensures SameFact(records[i].facts[key], facts[key]) <==> SameFact(records[m].facts[key], facts[key])
      {
        assert SameFact(records[i].facts[key], records[m].facts[key]);
      }
    }
  }

  /** The merge flags a key exactly when two records disagree on it. */
  lemma {:induction false} ConflictIffDisagree(records: seq<EvidenceRecord>, key: string)
    ensures key in ConflictKeys(records) <==> Disagree(records, key)
  {
    if records != [] {
      var init, last := records[..|records| - 1], records[|records| - 1];
      ConflictIffDisagree(init, key);
      assert ConflictKeys(records) == ConflictKeys(init) + Disagreements(MergedFacts(init), last.facts);
      hide ConflictKeys, Disagree, Differs, Disagreements, MergedFacts;
      assert records == init + [last];
      DisagreeSnoc(init, last, key);
      if !Disagree(init, key) {
        MergedSpeaksForAll(init, last.facts, key);
      }
    }
  }

  lemma NoConflictIffAgree(records: seq<EvidenceRecord>)
    ensures ConflictKeys(records) == {} <==> Agree(records)
  {
    forall k ensures k in ConflictKeys(records) <==> Disagree(records, k) {
      ConflictIffDisagree(records, k);
    }
    if !Agree(records) {
      var i, j, k :| 0 <= i < |records| && 0 <= j < |records| && k in records[i].facts && k in records[j].facts
        && !SameFact(records[i].facts[k], records[j].facts[k]);
      assert Disagree(records, k);
    }
  }

  // ----- The decision -----

  predicate Fresh(record: EvidenceRecord, now: int) {
    record.expiresAt.None? || record.expiresAt.value >= now
  }

  predicate AnyForeign(records: seq<EvidenceRecord>, tenant: string) {
    exists i | 0 <= i < |records| :: records[i].tenantId != tenant
  }

  predicate AnyNonAuthoritative(records: seq<EvidenceRecord>) {
    exists i | 0 <= i < |records| :: !records[i].authoritative
  }

  predicate AnyStale(records: seq<EvidenceRecord>, now: int) {
    exists i | 0 <= i < |records| :: !Fresh(records[i], now)
  }

  /** What the requested action still misses, given the merged facts. */
  function ActionReasons(action: ActionName, facts: Facts): seq<ReasonCode> {
    match action
    case ReleaseTransfer =>
      (if Lookup(facts, "kyc_status") != Text("verified") then [KycNotVerified] else [])
      + (if Truthy(Lookup(facts, "high_severity_aml_open")) then [HighSeverityAmlOpen] else [])
      + (if Lookup(facts, "transfer_status") !in {Text("held"), Text("pending_review")} then [TransferNotReleasable]
          else [])
    case RemoveHold =>
      if Lookup(facts, "kyc_status") != Text("verified") || Truthy(Lookup(facts, "high_severity_aml_open"))
      then [HoldConditionNotCleared] else []
    case CloseCase => if !Truthy(Lookup(facts, "outcome_verified")) then [OutcomeNotVerified] else []
    case PlaceHold => []
  }

  function RecordReasons(records: seq<EvidenceRecord>, now: int): seq<ReasonCode> {
    (if AnyNonAuthoritative(records) then [NonAuthoritativeRecord] else [])
    + (if AnyStale(records, now) then [StaleRecord] else [])
    + (if ConflictKeys(records) != {} then [ConflictingRecords] else [])
  }

  function Stop(action: ActionName, code: ReasonCode): Decision {
    Decision(false, true, action, [code], true)
  }

  function Decide(request: CaseRequest, records: seq<EvidenceRecord>, tenant: string, now: int): Decision {
    var action := request.requestedAction;
    if request.tenantId != tenant then Stop(action, TenantMismatch)
    else if DetectUntrustedInstruction(request.notes) then Stop(action, UntrustedInstruction)
    else if records == [] then Stop(action, MissingAuthoritativeRecords)
    else if AnyForeign(records, request.tenantId) then Stop(action, CrossTenantEvidence)
    else
      var blocking := RecordReasons(records, now) + ActionReasons(action, MergedFacts(records));
      if blocking == [] then Decision(true, true, action, [PolicyConditionsMet], false)
      else Decision(false, true, action, blocking, true)
  }

  ghost predicate NoDuplicates<T>(s: seq<T>) {
    forall i, j | 0 <= i < j < |s| :: s[i] != s[j]
  }

  /** Python's tuple(dict.fromkeys(s)): first occurrences, in order. */
  function FirstOccurrences(s: seq<ReasonCode>): (r: seq<ReasonCode>)
    ensures NoDuplicates(r)
    ensures forall x :: x in r <==> x in s
    ensures NoDuplicates(s) ==> r == s
  {
    if s == [] then []
    else
      var init, last := s[..|s| - 1], s[|s| - 1];
      assert s == init + [last];
      var r := FirstOccurrences(init);
      if last in r then r else r + [last]
  }

  /** The part of the engine that looks at the requested action. */
  method AddActionReasons(action: ActionName, facts: Facts, before: seq<ReasonCode>) returns (reasons: seq<ReasonCode>)
    ensures reasons == before + ActionReasons(action, facts)
  {
    reasons := before;
    if action == ReleaseTransfer {
      if Lookup(facts, "kyc_status") != Text("verified") {
        reasons := reasons + [KycNotVerified];
      }
      if Truthy(Lookup(facts, "high_severity_aml_open")) {
        reasons := reasons + [HighSeverityAmlOpen];
      }
      if Lookup(facts, "transfer_status") !in {Text("held"), Text("pending_review")} {
        reasons := reasons + [TransferNotReleasable];
      }
    } else if action == RemoveHold {
      if Lookup(facts, "kyc_status") != Text("verified") || Truthy(Lookup(facts, "high_severity_aml_open")) {
        reasons := reasons + [HoldConditionNotCleared];
      }
    } else if action == CloseCase {
      if !Truthy(Lookup(facts, "outcome_verified")) {
        reasons := reasons + [OutcomeNotVerified];
      }
    }
  }

  /** The part of the engine that looks at the records themselves. */
  method CheckRecords(records: seq<EvidenceRecord>, now: int) returns (facts: Facts, reasons: seq<ReasonCode>)
    ensures facts == MergedFacts(records)
    ensures reasons == RecordReasons(records, now)
  {
    reasons := [];
    if AnyNonAuthoritative(records) {
      reasons := reasons + [NonAuthoritativeRecord];
    }
    if AnyStale(records, now) {
      reasons := reasons + [StaleRecord];
    }
    var conflicts;
    facts, conflicts := MergeFacts(records);
    if conflicts != {} {
      reasons := reasons + [ConflictingRecords];
    }
  }

  /** The blocking codes never repeat and never include the code of an allowed decision. */
  lemma BlockingCodes(action: ActionName, records: seq<EvidenceRecord>, now: int, facts: Facts)
    ensures NoDuplicates(RecordReasons(records, now) + ActionReasons(action, facts))
    ensures PolicyConditionsMet !in RecordReasons(records, now) + ActionReasons(action, facts)
  {
    hide AnyNonAuthoritative, AnyStale, ConflictKeys, Lookup;
    var a, b := RecordReasons(records, now), ActionReasons(action, facts);
    assert forall i | 0 <= i < |a| :: a[i] in {NonAuthoritativeRecord, StaleRecord, ConflictingRecords};
    assert forall i | 0 <= i < |b| :: b[i] !in {NonAuthoritativeRecord, StaleRecord, ConflictingRecords,
        PolicyConditionsMet};
    assert NoDuplicates(a) && NoDuplicates(b);
    hide RecordReasons, ActionReasons;
  }

  method DeterministicDecision(request: CaseRequest, records: seq<EvidenceRecord>, authenticatedTenant: string,
      now: int)
    returns (decision: Decision)
    ensures decision == Decide(request, records, authenticatedTenant, now)
    ensures NoDuplicates(decision.reasonCodes)
    ensures forall code :: code in decision.reasonCodes <==> Cause(code, request, records, authenticatedTenant, now)
  {
    hide DetectUntrustedInstruction, RecordReasons, ActionReasons, Cause;
    DecisionReportsCauses(request, records, authenticatedTenant, now);
    var action := request.requestedAction;
    if request.tenantId != authenticatedTenant {
      return Decision(false, true, action, [TenantMismatch], true);
    }
    if DetectUntrustedInstruction(request.notes) {
      return Decision(false, true, action, [UntrustedInstruction], true);
    }
    if records == [] {
      return Decision(false, true, action, [MissingAuthoritativeRecords], true);
    }
    if AnyForeign(records, request.tenantId) {
      return Decision(false, true, action, [CrossTenantEvidence], true);
    }
    var facts, reasons := CheckRecords(records, now);
    reasons := AddActionReasons(action, facts, reasons);
    BlockingCodes(action, records, now, facts);
    var blocking := FirstOccurrences(reasons);
    if blocking != [] {
      decision := Decision(false, true, action, blocking, true);
    } else {
      decision := Decision(true, true, action, [PolicyConditionsMet], false);
    }
  }

  // ----- What the decision means -----

  ghost predicate States(records: seq<EvidenceRecord>, key: string, value: FactValue) {
    exists i | 0 <= i < |records| :: key in records[i].facts && records[i].facts[key] == value
  }

  ghost predicate StatesTruly(records: seq<EvidenceRecord>, key: string) {
    exists i | 0 <= i < |records| :: key in records[i].facts && Truthy(records[i].facts[key])
  }

  /** The evidence an action needs, read off the records without any merging. */
  ghost predicate ActionCleared(action: ActionName, records: seq<EvidenceRecord>) {
    match action
    case ReleaseTransfer =>
      && States(records, "kyc_status", Text("verified"))
      && !StatesTruly(records, "high_severity_aml_open")
      && (States(records, "transfer_status", Text("held"))
          || States(records, "transfer_status", Text("pending_review")))
    case RemoveHold =>
      States(records, "kyc_status", Text("verified")) && !StatesTruly(records, "high_severity_aml_open")
    case CloseCase => StatesTruly(records, "outcome_verified")
    case PlaceHold => true
  }

  ghost predicate EvidenceSound(request: CaseRequest, records: seq<EvidenceRecord>, tenant: string, now: int) {
    && request.tenantId == tenant
    && !DetectUntrustedInstruction(request.notes)
    && records != []
    && (forall i | 0 <= i < |records| ::
          records[i].tenantId == request.tenantId && records[i].authoritative && Fresh(records[i], now))
    && Agree(records)
    && ActionCleared(request.requestedAction, records)
  }

  /** On agreeing records a merged text is what some record states, and a merged value is
      truthy exactly when some record states a truthy one. */
  lemma MergedStates(records: seq<EvidenceRecord>, key: string)
    requires Agree(records)
    ensures forall t :: Lookup(MergedFacts(records), key) == Text(t) <==> States(records, key, Text(t))
    ensures Truthy(Lookup(MergedFacts(records), key)) <==> StatesTruly(records, key)
  {
    var i := MergedFrom(records, key);
  }

  lemma ActionReasonsIffCleared(action: ActionName, records: seq<EvidenceRecord>)
    requires Agree(records)
    ensures ActionReasons(action, MergedFacts(records)) == [] <==> ActionCleared(action, records)
  {
    MergedStates(records, "kyc_status");
    MergedStates(records, "high_severity_aml_open");
    MergedStates(records, "transfer_status");
    MergedStates(records, "outcome_verified");
  }

  /** The engine allows an action exactly on sound evidence, and stops exactly when it
      does not allow. */
  lemma AllowedIffEvidenceSound(request: CaseRequest, records: seq<EvidenceRecord>, tenant: string, now: int)
    ensures Decide(request, records, tenant, now).allowed <==> EvidenceSound(request, records, tenant, now)
    ensures Decide(request, records, tenant, now).stop <==> !Decide(request, records, tenant, now).allowed
    ensures Decide(request, records, tenant, now).reasonCodes == [PolicyConditionsMet] <==>
            Decide(request, records, tenant, now).allowed
  {
    NoConflictIffAgree(records);
    if Agree(records) {
      ActionReasonsIffCleared(request.requestedAction, records);
    }
    hide DetectUntrustedInstruction, ActionReasons, MergedFacts, ActionCleared;
    BlockingCodes(request.requestedAction, records, now, MergedFacts(records));
  }

  ghost predicate SameRecords(a: seq<EvidenceRecord>, b: seq<EvidenceRecord>) {
    forall x :: x in a <==> x in b
  }

  lemma AgreeInvariant(a: seq<EvidenceRecord>, b: seq<EvidenceRecord>)
    requires SameRecords(a, b) && Agree(a)
    ensures Agree(b)
  {
    forall i, j, k | 0 <= i < |b| && 0 <= j < |b| && k in b[i].facts && k in b[j].facts
      ensures SameFact(b[i].facts[k], b[j].facts[k])
    {
      assert b[i] in a && b[j] in a;
    }
  }

  lemma StatesInvariant(a: seq<EvidenceRecord>, b: seq<EvidenceRecord>, key: string)
    requires SameRecords(a, b)
    ensures forall v :: States(a, key, v) <==> States(b, key, v)
    ensures StatesTruly(a, key) <==> StatesTruly(b, key)
  {
    assert forall i | 0 <= i < |a| :: a[i] in b;
    assert forall i | 0 <= i < |b| :: b[i] in a;
  }

  lemma RecordTestsInvariant(a: seq<EvidenceRecord>, b: seq<EvidenceRecord>, tenant: string, now: int)
    requires SameRecords(a, b)
    ensures a == [] <==> b == []
    ensures AnyForeign(a, tenant) <==> AnyForeign(b, tenant)
    ensures AnyNonAuthoritative(a) <==> AnyNonAuthoritative(b)
    ensures AnyStale(a, now) <==> AnyStale(b, now)
    ensures Agree(a) <==> Agree(b)
  {
    assert forall i | 0 <= i < |a| :: a[i] in b;
    assert forall i | 0 <= i < |b| :: b[i] in a;
    if a != [] { assert a[0] in b; }
    if b != [] { assert b[0] in a; }
    if Agree(a) { AgreeInvariant(a, b); }
    if Agree(b) { AgreeInvariant(b, a); }
  }

  /** Permuting or repeating records never changes the verdict, and without a conflict it
      changes nothing at all. */
  lemma OrderInvariant(request: CaseRequest, a: seq<EvidenceRecord>, b: seq<EvidenceRecord>, tenant: string, now: int)
    requires SameRecords(a, b)
    ensures Decide(request, a, tenant, now).allowed == Decide(request, b, tenant, now).allowed
    ensures Agree(a) ==> Decide(request, a, tenant, now) == Decide(request, b, tenant, now)
  {
    RecordTestsInvariant(a, b, request.tenantId, now);
    NoConflictIffAgree(a);
    NoConflictIffAgree(b);
    if Agree(a) {
      ActionReasonsInvariant(request.requestedAction, a, b);
    } else {
      assert ConflictingRecords in RecordReasons(a, now) && ConflictingRecords in RecordReasons(b, now);
    }
  }

  lemma ActionReasonsInvariant(action: ActionName, a: seq<EvidenceRecord>, b: seq<EvidenceRecord>)
    requires SameRecords(a, b) && Agree(a) && Agree(b)
    ensures ActionReasons(action, MergedFacts(a)) == ActionReasons(action, MergedFacts(b))
  {
    MergedTestsInvariant(a, b, "kyc_status");
    MergedTestsInvariant(a, b, "high_severity_aml_open");
    MergedTestsInvariant(a, b, "transfer_status");
    MergedTestsInvariant(a, b, "outcome_verified");
  }

  lemma MergedTestsInvariant(a: seq<EvidenceRecord>, b: seq<EvidenceRecord>, key: string)
    requires SameRecords(a, b) && Agree(a) && Agree(b)
    ensures forall t :: Lookup(MergedFacts(a), key) == Text(t) <==> Lookup(MergedFacts(b), key) == Text(t)
    ensures Truthy(Lookup(MergedFacts(a), key)) <==> Truthy(Lookup(MergedFacts(b), key))
  {
    MergedStates(a, key);
    MergedStates(b, key);
    StatesInvariant(a, b, key);
  }

  // ----- The code for every cause -----

  /** Some record states this value for the key, and no later record states any. */
  ghost predicate LastStates(records: seq<EvidenceRecord>, key: string, value: FactValue) {
    exists i | 0 <= i < |records| ::
      && key in records[i].facts && records[i].facts[key] == value
      && forall j | i < j < |records| :: key !in records[j].facts
  }

  /** The last word on the key is a value Python takes for true. */
  ghost predicate LastStatesTruly(records: seq<EvidenceRecord>, key: string) {
    exists v :: LastStates(records, key, v) && v !in {Text(""), Number(0.0), Flag(false), Null}
  }

  /** Python's equality of two values: the same, or a flag beside its number. */
  predicate PythonEqual(a: FactValue, b: FactValue) {
    || a == b
    || (a == Flag(true) && b == Number(1.0)) || (a == Number(1.0) && b == Flag(true))
    || (a == Flag(false) && b == Number(0.0)) || (a == Number(0.0) && b == Flag(false))
  }

  /** The request is its tenant's, its notes are clean, and the records are all of the tenant. */
  ghost predicate PastGates(request: CaseRequest, records: seq<EvidenceRecord>, tenant: string) {
    && request.tenantId == tenant && !DetectUntrustedInstruction(request.notes) && records != []
    && forall i | 0 <= i < |records| :: records[i].tenantId == request.tenantId
  }

  /** What each code says. The four gates come one after the other; past them every cause is
      reported. */
  ghost predicate Cause(code: ReasonCode, request: CaseRequest, records: seq<EvidenceRecord>, tenant: string,
      now: int) {
    var release := request.requestedAction == ReleaseTransfer;
    var verified := LastStates(records, "kyc_status", Text("verified"));
    match code
    case TenantMismatch => request.tenantId != tenant
    case UntrustedInstruction => request.tenantId == tenant && DetectUntrustedInstruction(request.notes)
    case MissingAuthoritativeRecords =>
      request.tenantId == tenant && !DetectUntrustedInstruction(request.notes) && records == []
    case CrossTenantEvidence =>
      && request.tenantId == tenant && !DetectUntrustedInstruction(request.notes)
      && exists i | 0 <= i < |records| :: records[i].tenantId != request.tenantId
    case NonAuthoritativeRecord =>
      PastGates(request, records, tenant) && exists i | 0 <= i < |records| :: !records[i].authoritative
    case StaleRecord =>
      && PastGates(request, records, tenant)
      && exists i | 0 <= i < |records| :: records[i].expiresAt.Some? && records[i].expiresAt.value < now
    case ConflictingRecords =>
      && PastGates(request, records, tenant)
      && exists i, j, k | 0 <= i < |records| && 0 <= j < |records| && k in records[i].facts && k in records[j].facts ::
           !PythonEqual(records[i].facts[k], records[j].facts[k])
    case KycNotVerified => PastGates(request, records, tenant) && release && !verified
    case HighSeverityAmlOpen =>
      PastGates(request, records, tenant) && release && LastStatesTruly(records, "high_severity_aml_open")
    case TransferNotReleasable =>
      && PastGates(request, records, tenant) && release
      && !LastStates(records, "transfer_status", Text("held"))
      && !LastStates(records, "transfer_status", Text("pending_review"))
    case HoldConditionNotCleared =>
      && PastGates(request, records, tenant) && request.requestedAction == RemoveHold
      && (!verified || LastStatesTruly(records, "high_severity_aml_open"))
    case OutcomeNotVerified =>
      && PastGates(request, records, tenant) && request.requestedAction == CloseCase
      && !LastStatesTruly(records, "outcome_verified")
    case PolicyConditionsMet => EvidenceSound(request, records, tenant, now)
  }

  /** The order in which causes are reported. */
  function Order(code: ReasonCode): nat {
    match code
    case TenantMismatch => 0
    case UntrustedInstruction => 1
    case MissingAuthoritativeRecords => 2
    case CrossTenantEvidence => 3
    case NonAuthoritativeRecord => 4
    case StaleRecord => 5
    case ConflictingRecords => 6
    case KycNotVerified => 7
    case HighSeverityAmlOpen => 8
    case TransferNotReleasable => 9
    case HoldConditionNotCleared => 10
    case OutcomeNotVerified => 11
    case PolicyConditionsMet => 12
  }

  lemma SameIsPythonEqual(a: FactValue, b: FactValue)
    ensures SameFact(a, b) <==> PythonEqual(a, b)
  {
  }

  /** The merge gives the last word on every key. */
  lemma {:induction false} MergedIsLast(records: seq<EvidenceRecord>, key: string, v: FactValue)
    ensures LastStates(records, key, v) <==> key in MergedFacts(records) && MergedFacts(records)[key] == v
  {
    if records == [] {
      assert !LastStates([], key, v);
    } else {
      var init, last := records[..|records| - 1], records[|records| - 1];
      MergedIsLast(init, key, v);
      assert MergedFacts(records) == MergedFacts(init) + last.facts;
      assert records == init + [last];
      hide MergedFacts, LastStates;
      LastOfLonger(init, last, key, v);
    }
  }

  lemma LastOfLonger(init: seq<EvidenceRecord>, last: EvidenceRecord, key: string, v: FactValue)
    ensures
      LastStates(init + [last], key, v) <==>
      if key in last.facts then last.facts[key] == v else LastStates(init, key, v)
  {
    var records := init + [last];
    assert records[|init|] == last && forall i | 0 <= i < |init| :: records[i] == init[i];
    if LastStates(init, key, v) && key !in last.facts {
      var i :| 0 <= i < |init| && key in init[i].facts && init[i].facts[key] == v
        && forall j | i < j < |init| :: key !in init[j].facts;
      assert key in records[i].facts && records[i].facts[key] == v;
    }
  }

  lemma LookupIsLast(records: seq<EvidenceRecord>, key: string)
    ensures forall t :: Lookup(MergedFacts(records), key) == Text(t) <==> LastStates(records, key, Text(t))
    ensures Truthy(Lookup(MergedFacts(records), key)) <==> LastStatesTruly(records, key)
  {
    hide MergedFacts, LastStates;
    forall v ensures LastStates(records, key, v) <==> key in MergedFacts(records) && MergedFacts(records)[key] == v {
      MergedIsLast(records, key, v);
    }
    if key in MergedFacts(records) {
      var v := MergedFacts(records)[key];
      assert LastStates(records, key, v);
      assert Truthy(v) <==> v !in {Text(""), Number(0.0), Flag(false), Null};
    }
  }

  lemma ActionCauses(request: CaseRequest, records: seq<EvidenceRecord>, tenant: string, now: int, code: ReasonCode)
    requires PastGates(request, records, tenant) && 7 <= Order(code) <= 11
    ensures code in ActionReasons(request.requestedAction, MergedFacts(records)) <==>
            Cause(code, request, records, tenant, now)
  {
    hide PastGates, MergedFacts, LastStates, LastStatesTruly, Lookup, Truthy, DetectUntrustedInstruction;
    LookupIsLast(records, "kyc_status");
    LookupIsLast(records, "high_severity_aml_open");
    LookupIsLast(records, "transfer_status");
    LookupIsLast(records, "outcome_verified");
  }

  lemma RecordCauses(request: CaseRequest, records: seq<EvidenceRecord>, tenant: string, now: int, code: ReasonCode)
    requires PastGates(request, records, tenant) && 4 <= Order(code) <= 6
    ensures code in RecordReasons(records, now) <==> Cause(code, request, records, tenant, now)
  {
    hide PastGates, DetectUntrustedInstruction;
    NoConflictIffAgree(records);
    hide ConflictKeys;
    forall a, b ensures SameFact(a, b) <==> PythonEqual(a, b) {
      SameIsPythonEqual(a, b);
    }
    hide SameFact, PythonEqual;
  }

  /** Each code comes before the next in the order of causes. */
  predicate InOrder(codes: seq<ReasonCode>) {
    forall i, j | 0 <= i < j < |codes| :: Order(codes[i]) < Order(codes[j])
  }

  predicate Within(codes: seq<ReasonCode>, low: nat, high: nat) {
    forall i | 0 <= i < |codes| :: low <= Order(codes[i]) <= high
  }

  lemma InOrderConcat(a: seq<ReasonCode>, b: seq<ReasonCode>)
    requires InOrder(a) && InOrder(b) && Within(a, 4, 6) && Within(b, 7, 11)
    ensures InOrder(a + b) && Within(a + b, 4, 11)
  {
    hide Order;
  }

  lemma ReasonsInOrder(request: CaseRequest, records: seq<EvidenceRecord>, now: int)
    ensures
      var codes := RecordReasons(records, now) + ActionReasons(request.requestedAction, MergedFacts(records));
      InOrder(codes) && Within(codes, 4, 11)
    ensures Within(RecordReasons(records, now), 4, 6)
    ensures Within(ActionReasons(request.requestedAction, MergedFacts(records)), 7, 11)
  {
    hide AnyNonAuthoritative, AnyStale, ConflictKeys, Lookup, MergedFacts, Truthy;
    var a, b := RecordReasons(records, now), ActionReasons(request.requestedAction, MergedFacts(records));
    InOrderConcat(a, b);
  }

  /** A decision reports exactly its causes, in their order, for the action that was asked, and
      always asks for a human. */
  lemma DecisionReportsCauses(request: CaseRequest, records: seq<EvidenceRecord>, tenant: string, now: int)
    ensures
      var d := Decide(request, records, tenant, now);
      && (forall code :: code in d.reasonCodes <==> Cause(code, request, records, tenant, now))
      && InOrder(d.reasonCodes) && d.reasonCodes != []
      && d.action == request.requestedAction && d.requiresHuman
  {
    ReasonsInOrder(request, records, now);
    hide RecordReasons, ActionReasons, MergedFacts, DetectUntrustedInstruction, Cause;
    forall code ensures code in Decide(request, records, tenant, now).reasonCodes <==>
                        Cause(code, request, records, tenant, now) {
      if PastGates(request, records, tenant) {
        CauseReported(request, records, tenant, now, code);
      } else {
        GateReported(request, records, tenant, now, code);
      }
    }
  }

  lemma GateReported(request: CaseRequest, records: seq<EvidenceRecord>, tenant: string, now: int, code: ReasonCode)
    requires !PastGates(request, records, tenant)
    ensures code in Decide(request, records, tenant, now).reasonCodes <==> Cause(code, request, records, tenant, now)
  {
    hide DetectUntrustedInstruction, RecordReasons, ActionReasons, MergedFacts, LastStates, LastStatesTruly,
        PythonEqual,
         Agree, ActionCleared;
  }

  lemma CauseReported(request: CaseRequest, records: seq<EvidenceRecord>, tenant: string, now: int, code: ReasonCode)
    requires PastGates(request, records, tenant)
    ensures code in Decide(request, records, tenant, now).reasonCodes <==> Cause(code, request, records, tenant, now)
  {
    AllowedIffEvidenceSound(request, records, tenant, now);
    ReasonsInOrder(request, records, now);
    var a, b := RecordReasons(records, now), ActionReasons(request.requestedAction, MergedFacts(records));
    assert code in a + b <==> code in a || code in b;
    CodesPastGates(request, records, tenant, now);
    hide RecordReasons, ActionReasons, MergedFacts, DetectUntrustedInstruction, EvidenceSound, Decide, PastGates, Cause;
    if 4 <= Order(code) <= 6 {
      RecordCauses(request, records, tenant, now, code);
    } else if 7 <= Order(code) <= 11 {
      ActionCauses(request, records, tenant, now, code);
    } else if Order(code) < 4 {
      NoGateCause(request, records, tenant, now, code);
    } else {
      SoundCause(request, records, tenant, now);
    }
  }

  lemma CodesPastGates(request: CaseRequest, records: seq<EvidenceRecord>, tenant: string, now: int)
    requires PastGates(request, records, tenant)
    ensures
      var blocking := RecordReasons(records, now) + ActionReasons(request.requestedAction, MergedFacts(records));
      Decide(request, records, tenant, now).reasonCodes == if blocking == [] then [PolicyConditionsMet] else blocking
  {
    hide RecordReasons, ActionReasons, MergedFacts, DetectUntrustedInstruction;
  }

  lemma NoGateCause(request: CaseRequest, records: seq<EvidenceRecord>, tenant: string, now: int, code: ReasonCode)
    requires PastGates(request, records, tenant) && Order(code) < 4
    ensures !Cause(code, request, records, tenant, now)
  {
    hide DetectUntrustedInstruction;
  }

  lemma SoundCause(request: CaseRequest, records: seq<EvidenceRecord>, tenant: string, now: int)
    ensures Cause(PolicyConditionsMet, request, records, tenant, now) <==> EvidenceSound(request, records, tenant, now)
  {
  }

  // ----- The notes that are refused -----

  function Folded(text: string): string {
    seq(|text|, i requires 0 <= i < |text| => Lower(text[i]))
  }

  /** A piece of the text reads, but for case, as the phrase. */
  ghost predicate Contains(text: string, phrase: string) {
    exists a, b | 0 <= a <= b <= |text| :: Folded(text[a..b]) == phrase
  }

  /** The phrases that mark a note as an instruction. */
  const PHRASES: set<string> := {
    "ignore all", "ignore any", "ignore the", "ignore previous", "system prompt", "bypass policy", "bypass approval",
    "bypass tenant", "call the tool directly", "call tool directly"
  }

  /** "reveal ", then anything within the line, then "tenant". */
  ghost predicate ContainsReveal(text: string) {
    exists a, b, c, d | 0 <= a <= b <= c <= d <= |text| ::
      Folded(text[a..b]) == "reveal " && '\n' !in text[b..c] && Folded(text[c..d]) == "tenant"
  }

  /** A capital letter stands for the small letter at its place in the alphabet, and every
      other character for itself. */
  lemma LowerFoldsLetters(c: char)
    ensures 'A' <= c <= 'Z' ==> 'a' <= Lower(c) <= 'z' && Lower(c) as int - 'a' as int == c as int - 'A' as int
    ensures !('A' <= c <= 'Z') ==> Lower(c) == c
  {
  }

  lemma MatchIsSlice(text: string, word: string, i: nat)
    ensures MatchesAt(text, word, i) <==> i + |word| <= |text| && Folded(text[i..i + |word|]) == word
  {
    if i + |word| <= |text| {
      var piece := text[i..i + |word|];
      assert forall k | 0 <= k < |word| :: piece[k] == text[i + k];
      if MatchesAt(text, word, i) {
        assert Folded(piece) == word;
      }
      if Folded(piece) == word {
        forall k | 0 <= k < |word| ensures Lower(text[i + k]) == word[k] {
          assert Folded(piece)[k] == word[k];
        }
      }
    }
  }

  lemma MentionsIsContains(text: string, word: string)
    ensures Mentions(text, word) <==> Contains(text, word)
  {
    hide MatchesAt;
    if Mentions(text, word) {
      var i :| 0 <= i <= |text| && MatchesAt(text, word, i);
      MatchIsSlice(text, word, i);
    }
    if Contains(text, word) {
      var a, b :| 0 <= a <= b <= |text| && Folded(text[a..b]) == word;
      MatchIsSlice(text, word, a);
      assert |word| == b - a;
    }
  }

  /** The two words stand at these places, with nothing but the line between them. */
  ghost predicate RevealsAt(text: string, i: nat, j: nat) {
    && i + 7 <= j <= |text| && '\n' !in text[i + 7..j]
    && MatchesAt(text, "reveal ", i) && MatchesAt(text, "tenant", j)
  }

  lemma RevealsAtContains(text: string, i: nat, j: nat)
    requires RevealsAt(text, i, j)
    ensures ContainsReveal(text)
  {
    hide MatchesAt, Folded;
    MatchIsSlice(text, "reveal ", i);
    MatchIsSlice(text, "tenant", j);
    assert Folded(text[i..i + 7]) == "reveal " && Folded(text[j..j + 6]) == "tenant";
  }

  lemma ContainsRevealsAt(text: string, a: nat, b: nat, c: nat, d: nat)
    requires a <= b <= c <= d <= |text|
    requires Folded(text[a..b]) == "reveal " && '\n' !in text[b..c] && Folded(text[c..d]) == "tenant"
    ensures RevealsAt(text, a, c)
  {
    hide MatchesAt;
    assert b == a + 7 && d == c + 6;
    MatchIsSlice(text, "reveal ", a);
    MatchIsSlice(text, "tenant", c);
  }

  lemma RevealsIsContains(text: string)
    ensures RevealsTenant(text) <==> ContainsReveal(text)
  {
    hide MatchesAt, Folded;
    if RevealsTenant(text) {
      var i, j :| 0 <= i <= |text| && i + 7 <= j <= |text| && MatchesAt(text, "reveal ", i)
        && MatchesAt(text, "tenant", j) && '\n' !in text[i + 7..j];
      RevealsAtContains(text, i, j);
    }
    if ContainsReveal(text) {
      var a, b, c, d :| 0 <= a <= b <= c <= d <= |text|
        && Folded(text[a..b]) == "reveal " && '\n' !in text[b..c] && Folded(text[c..d]) == "tenant";
      ContainsRevealsAt(text, a, b, c, d);
    }
  }

  /** Notes are refused exactly if they contain, in any case, one of the phrases or the pattern. */
  lemma DetectsExactly(text: string)
    ensures DetectUntrustedInstruction(text) <==> (exists p | p in PHRASES :: Contains(text, p)) || ContainsReveal(text)
  {
    hide Mentions, RevealsTenant, Contains, ContainsReveal;
    RevealsIsContains(text);
    forall p | p in PHRASES ensures Mentions(text, p) <==> Contains(text, p) {
      MentionsIsContains(text, p);
    }
  }
}
