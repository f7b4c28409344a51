/**
 * Comparing an observed conformance run with the published deviations
 * (`evals/conformance/delta.ts`).
 */
module Conformance {
  import opened Prelude

  datatype CaseStatus = Pass | Fail | Skip

  type Deviating = s: CaseStatus | s != Pass witness Fail

  /** A case the runner graded. */
  datatype Row = Row(name: string, verb: string, status: CaseStatus)

  datatype Deviation = Deviation(name: string, verb: string, status: Deviating)

  datatype DeltaStatus = Observed | Blocked

  datatype PublishedDelta = PublishedDelta(
    protocolVersion: real,
    status: DeltaStatus,
    commit: string,
    deviations: seq<Deviation>)

  /** A field that ought to hold a number. */
  datatype Numeric = NotNumeric | NaN | Number(value: real)
  {
    /** `===` with a number */
    predicate Is(x: real) {
      this == Number(x)
    }
  }

  /** An entry of `results`, whatever it may be. */
  datatype RawRow = NotARow | RawRow(name: Option<string>, verb: Option<string>, status: Option<string>)

  /** What a subprocess printed: perhaps an object, perhaps with these fields. */
  datatype RawReport =
    | NotAnObject
    | RawReport(
        protocolVersion: Numeric,
        results: Option<seq<RawRow>>,
        passed: Numeric,
        failed: Numeric,
        skipped: Numeric,
        saysOk: bool)

  datatype ViolationKind =
    | DeltaNotObserved | UnreadableReport | EmptyReport | InconsistentReport | ProtocolVersionMismatch | PinMismatch
    | UndeclaredDeviation | StaleDeviation | AbsentDeviation | StatusChanged | DuplicateDeclaration

  datatype DeltaResult = DeltaResult(passed: bool, violations: seq<ViolationKind>, checked: nat)

  // -------------------------------------------------------------------------
  // Reading the report.
  // -------------------------------------------------------------------------

  function StatusNamed(name: string): Option<CaseStatus> {
    if name == "pass" then Some(Pass) else if name == "fail" then Some(Fail) else if name == "skip" then
      Some(Skip) else None
  }

  predicate IsRow(raw: RawRow) {
    raw.RawRow? && raw.name.Some? && raw.verb.Some? && raw.status.Some? && StatusNamed(raw.status.value).Some?
  }

  /** `reportProblem` finds nothing. */
  predicate IsWellFormed(raw: RawReport) {
    && raw.RawReport? && !raw.protocolVersion.NotNumeric? && raw.results.Some?
    && forall i :: 0 <= i < |raw.results.value| ==> IsRow(raw.results.value[i])
  }

  function RowOf(raw: RawRow): Row
    requires IsRow(raw)
  {
    Row(raw.name.value, raw.verb.value, StatusNamed(raw.status.value).value)
  }

  function RowsOf(raw: RawReport): (r: seq<Row>)
    requires IsWellFormed(raw)
    ensures |r| == |raw.results.value|
  {
    seq(|raw.results.value|, i requires 0 <= i < |raw.results.value| => RowOf(raw.results.value[i]))
  }

  method FindProblem(raw: RawReport) returns (found: bool)
    ensures found <==> !IsWellFormed(raw)
  {
    if raw.NotAnObject? || raw.protocolVersion.NotNumeric? || raw.results.None? {
      return true;
    }
    for i := 0 to |raw.results.value|
      invariant forall j :: 0 <= j < i ==> IsRow(raw.results.value[j])
    {
      if !IsRow(raw.results.value[i]) {
        return true;
      }
    }
    found := false;
  }

  function Tally(rows: seq<Row>, status: CaseStatus): nat {
    if rows == [] then 0
    else Tally(rows[..|rows| - 1], status) + if rows[|rows| - 1].status == status then 1 else 0
  }

  /** The report's own counts are those of its rows. */
  predicate IsConsistent(raw: RawReport, rows: seq<Row>)
    requires raw.RawReport?
  {
    && raw.passed.Is(Tally(rows, Pass) as real) && raw.failed.Is(Tally(rows, Fail) as real)
    && raw.skipped.Is(Tally(rows, Skip) as real) && (raw.saysOk <==> Tally(rows, Fail) == 0)
  }

  // -------------------------------------------------------------------------
  // Keys.
  // -------------------------------------------------------------------------

  /** `keyOf` */
  function KeyOf(name: string, verb: string): string {
    verb + "::" + name
  }

  /** Different cases can share a key. */
  lemma KeysCollide()
    ensures KeyOf("c", "a::b") == KeyOf("b::c", "a")
  {
    assert KeyOf("c", "a::b") == "a::b::c" == KeyOf("b::c", "a");
  }

  function KeyOfRow(row: Row): string {
    KeyOf(row.name, row.verb)
  }

  function KeyOfDeviation(deviation: Deviation): string {
    KeyOf(deviation.name, deviation.verb)
  }

  /** The row of each key that `byKey` keeps: the last. */
  function LastRows(rows: seq<Row>): map<string, Row> {
    if rows == [] then map[]
    else
      var last := rows[|rows| - 1];
      LastRows(rows[..|rows| - 1])[KeyOfRow(last) := last]
  }

  predicate IsDeclared(deviations: seq<Deviation>, key: string) {
    exists i :: 0 <= i < |deviations| && KeyOfDeviation(deviations[i]) == key
  }

  /** The first declaration of each key, in order. */
  function FirstOnes(deviations: seq<Deviation>): seq<Deviation> {
    if deviations == [] then []
    else
      var before := deviations[..|deviations| - 1];
      var last := deviations[|deviations| - 1];
      FirstOnes(before) + if IsDeclared(before, KeyOfDeviation(last)) then [] else [last]
  }

  predicate HasUniqueDeclarations(deviations: seq<Deviation>) {
    forall i, j :: 0 <= i < j < |deviations| ==> KeyOfDeviation(deviations[i]) != KeyOfDeviation(deviations[j])
  }

  predicate HasUniqueRows(rows: seq<Row>) {
    forall i, j :: 0 <= i < j < |rows| ==> KeyOfRow(rows[i]) != KeyOfRow(rows[j])
  }

  /** `deviationOutcome`: None when observed exactly as declared. */
  function DeviationOutcome(deviation: Deviation, row: Option<Row>): (outcome: Option<ViolationKind>)
    ensures outcome.None? <==> row.Some? && row.value.status == deviation.status
  {
    if row.None? then Some(AbsentDeviation)
    else if row.value.status.Pass? then Some(StaleDeviation)
    else if row.value.status != deviation.status then Some(StatusChanged)
    else None
  }

  function Lookup(byKey: map<string, Row>, key: string): Option<Row> {
    if key in byKey then Some(byKey[key]) else None
  }

  function OutcomesOf(declared: seq<Deviation>, byKey: map<string, Row>): (r: seq<Option<ViolationKind>>)
    ensures |r| == |declared|
  {
    seq(|declared|, i requires 0 <= i < |declared| => DeviationOutcome(declared[i], Lookup(byKey,
      KeyOfDeviation(declared[i]))))
  }

  function CountNone(outcomes: seq<Option<ViolationKind>>): (n: nat)
    ensures n <= |outcomes|
    ensures n == |outcomes| <==> forall i :: 0 <= i < |outcomes| ==> outcomes[i].None?
  {
    if outcomes == [] then 0
    else
      assert forall i :: 0 <= i < |outcomes| - 1 ==> outcomes[..|outcomes| - 1][i] == outcomes[i];
      CountNone(outcomes[..|outcomes| - 1]) + if outcomes[|outcomes| - 1].None? then 1 else 0
  }

  /** `tallyDeviations`: None when an outcome is missing. */
  method TallyDeviations(outcomes: seq<Option<ViolationKind>>, declaredCount: nat)
    returns (violations: seq<ViolationKind>, checked: Option<nat>)
    ensures checked.None? <==> |outcomes| != declaredCount
    ensures checked.Some? ==> checked.value == CountNone(outcomes) && |violations| == declaredCount - checked.value
    ensures checked.Some? ==> forall kind :: kind in violations <==> Some(kind) in outcomes
  {
    violations := [];
    if |outcomes| != declaredCount {
      return violations, None;
    }
    for i := 0 to |outcomes|
      invariant |violations| == i - CountNone(outcomes[..i])
      invariant forall kind :: kind in violations <==> Some(kind) in outcomes[..i]
    {
      assert outcomes[..i + 1] == outcomes[..i] + [outcomes[i]];
      if outcomes[i].Some? {
        violations := violations + [outcomes[i].value];
      }
    }
    assert outcomes[..|outcomes|] == outcomes;
    checked := Some(|outcomes| - |violations|);
  }

  // -------------------------------------------------------------------------
  // The comparison.
  // -------------------------------------------------------------------------

  /** Every declaration's last row has the declared status. */
  predicate AreObserved(deviations: seq<Deviation>, rows: seq<Row>) {
    forall i :: 0 <= i < |deviations| ==>
      var row := Lookup(LastRows(rows), KeyOfDeviation(deviations[i]));
      row.Some? && row.value.status == deviations[i].status
  }

  /** Every row that does not pass has a declared key. */
  predicate AreDeclared(deviations: seq<Deviation>, rows: seq<Row>) {
    forall i :: 0 <= i < |rows| && rows[i].status != Pass ==> IsDeclared(deviations, KeyOfRow(rows[i]))
  }

  predicate IsMatch(deviations: seq<Deviation>, rows: seq<Row>) {
    HasUniqueDeclarations(deviations) && AreObserved(deviations, rows) && AreDeclared(deviations, rows)
  }

  /** When `assertDelta` passes. */
  predicate Holds(raw: RawReport, delta: PublishedDelta, commit: string) {
    && delta.status == Observed
    && IsWellFormed(raw) && RowsOf(raw) != [] && IsConsistent(raw, RowsOf(raw))
    && raw.protocolVersion.Is(delta.protocolVersion) && commit == delta.commit
    && IsMatch(delta.deviations, RowsOf(raw))
  }

  /** The report is looked at: something was observed, and graded. */
  predicate IsGraded(raw: RawReport, delta: PublishedDelta) {
    delta.status == Observed && IsWellFormed(raw) && RowsOf(raw) != []
  }

  /** What each violation says is wrong. */
  predicate Applies(kind: ViolationKind, raw: RawReport, delta: PublishedDelta, commit: string) {
    match kind
    case DeltaNotObserved => delta.status == Blocked
    case UnreadableReport => delta.status == Observed && !IsWellFormed(raw)
    case EmptyReport => delta.status == Observed && IsWellFormed(raw) && RowsOf(raw) == []
    case InconsistentReport => IsGraded(raw, delta) && !IsConsistent(raw, RowsOf(raw))
    case ProtocolVersionMismatch => IsGraded(raw, delta) && !raw.protocolVersion.Is(delta.protocolVersion)
    case PinMismatch => IsGraded(raw, delta) && commit != delta.commit
    case DuplicateDeclaration => IsGraded(raw, delta) && !HasUniqueDeclarations(delta.deviations)
    case UndeclaredDeviation => IsGraded(raw, delta) && !AreDeclared(delta.deviations, RowsOf(raw))
    case AbsentDeviation => IsGraded(raw, delta) && HasOutcome(kind, delta.deviations, RowsOf(raw))
    case StaleDeviation => IsGraded(raw, delta) && HasOutcome(kind, delta.deviations, RowsOf(raw))
    case StatusChanged => IsGraded(raw, delta) && HasOutcome(kind, delta.deviations, RowsOf(raw))
  }

  /** The first declaration of some key fares like this. */
  predicate HasOutcome(kind: ViolationKind, deviations: seq<Deviation>, rows: seq<Row>) {
    Some(kind) in OutcomesOf(FirstOnes(deviations), LastRows(rows))
  }

  method CountRows(rows: seq<Row>) returns (pass: nat, fail: nat, skip: nat)
    ensures pass == Tally(rows, Pass) && fail == Tally(rows, Fail) && skip == Tally(rows, Skip)
  {
    pass, fail, skip := 0, 0, 0;
    for i := 0 to |rows|
      invariant pass == Tally(rows[..i], Pass) && fail == Tally(rows[..i], Fail) && skip == Tally(rows[..i], Skip)
    {
      assert rows[..i + 1][..i] == rows[..i];
      match rows[i].status
      case Pass => pass := pass + 1;
      case Fail => fail := fail + 1;
      case Skip => skip := skip + 1;
    }
    assert rows[..|rows|] == rows;
  }

  lemma DeclaredOneMore(deviations: seq<Deviation>, n: nat, key: string)
    requires n < |deviations|
    ensures IsDeclared(deviations[..n + 1], key) <==>
      IsDeclared(deviations[..n], key) || KeyOfDeviation(deviations[n]) == key
  {
    var upTo := deviations[..n + 1];
    assert upTo[..n] == deviations[..n] && upTo[n] == deviations[n];
    assert forall i :: 0 <= i < n ==> upTo[i] == deviations[..n][i];
  }

  /** The map of declarations, by key, in the order of their first appearance. */
  method IndexDeclarations(deviations: seq<Deviation>)
    returns (declared: seq<Deviation>, keys: set<string>, duplicates: nat)
    ensures declared == FirstOnes(deviations)
    ensures forall key :: key in keys <==> IsDeclared(deviations, key)
    ensures duplicates == |deviations| - |declared|
    ensures duplicates == 0 <==> HasUniqueDeclarations(deviations)
  {
    declared, keys, duplicates := [], {}, 0;
    for i := 0 to |deviations|
      invariant declared == FirstOnes(deviations[..i])
      invariant forall key :: key in keys <==> IsDeclared(deviations[..i], key)
      invariant duplicates == i - |declared|
      invariant duplicates == 0 <==> HasUniqueDeclarations(deviations[..i])
    {
      var key := KeyOfDeviation(deviations[i]);
      assert deviations[..i + 1][..i] == deviations[..i];
      forall other {
        DeclaredOneMore(deviations, i, other);
      }
      UniqueOneMore(deviations, i);
      if key in keys {
        duplicates := duplicates + 1;
        continue;
      }
      keys := keys + {key};
      declared := declared + [deviations[i]];
    }
    assert deviations[..|deviations|] == deviations;
  }

  lemma UniqueOneMore(deviations: seq<Deviation>, n: nat)
    requires n < |deviations|
    ensures HasUniqueDeclarations(deviations[..n + 1]) <==>
      HasUniqueDeclarations(deviations[..n]) && !IsDeclared(deviations[..n], KeyOfDeviation(deviations[n]))
  {
    var upTo := deviations[..n + 1];
    assert upTo[n] == deviations[n];
    assert forall i :: 0 <= i < n ==> upTo[i] == deviations[..n][i];
    if IsDeclared(deviations[..n], KeyOfDeviation(deviations[n])) {
      var i :| 0 <= i < n && KeyOfDeviation(deviations[..n][i]) == KeyOfDeviation(deviations[n]);
      assert KeyOfDeviation(upTo[i]) == KeyOfDeviation(upTo[n]);
    }
  }

  method IndexRows(rows: seq<Row>) returns (byKey: map<string, Row>)
    ensures byKey == LastRows(rows)
  {
    byKey := map[];
    for i := 0 to |rows|
      invariant byKey == LastRows(rows[..i])
    {
      assert rows[..i + 1][..i] == rows[..i];
      byKey := byKey[KeyOfRow(rows[i]) := rows[i]];
    }
    assert rows[..|rows|] == rows;
  }

  method CountUndeclared(rows: seq<Row>, keys: set<string>) returns (undeclared: nat)
    ensures undeclared == 0 <==> forall i :: 0 <= i < |rows| && rows[i].status != Pass ==> KeyOfRow(rows[i]) in keys
  {
    undeclared := 0;
    for i := 0 to |rows|
      invariant undeclared == 0 <==> forall j :: 0 <= j < i && rows[j].status != Pass ==> KeyOfRow(rows[j]) in keys
    {
      if rows[i].status.Pass? || KeyOfRow(rows[i]) in keys {
        continue;
      }
      undeclared := undeclared + 1;
    }
  }

  function Repeat(kind: ViolationKind, n: nat): (r: seq<ViolationKind>)
    ensures |r| == n && forall other :: other in r <==> other == kind && n > 0
  {
    if n == 0 then [] else Repeat(kind, n - 1) + [kind]
  }

  lemma {:induction false} UniqueOnesAreAllFirst(deviations: seq<Deviation>)
    requires HasUniqueDeclarations(deviations)
    ensures FirstOnes(deviations) == deviations
  {
    if deviations != [] {
      var last := |deviations| - 1;
      assert deviations[..last + 1] == deviations;
      UniqueOneMore(deviations, last);
      UniqueOnesAreAllFirst(deviations[..last]);
    }
  }

  lemma OutcomesOfObserved(deviations: seq<Deviation>, rows: seq<Row>)
    ensures CountNone(OutcomesOf(deviations, LastRows(rows))) == |deviations| <==> AreObserved(deviations, rows)
  {
    var outcomes := OutcomesOf(deviations, LastRows(rows));
    assert forall i :: 0 <= i < |deviations| ==>
      outcomes[i] == DeviationOutcome(deviations[i], Lookup(LastRows(rows), KeyOfDeviation(deviations[i])));
  }

  /** The counts, the version and the commit. */
  method CompareHeads(raw: RawReport, rows: seq<Row>, delta: PublishedDelta, commit: string)
    returns (violations: seq<ViolationKind>)
    requires raw.RawReport?
    ensures forall kind :: kind in violations <==>
      || (kind == InconsistentReport && !IsConsistent(raw, rows))
      || (kind == ProtocolVersionMismatch && !raw.protocolVersion.Is(delta.protocolVersion))
      || (kind == PinMismatch && commit != delta.commit)
    ensures violations == [] <==>
      IsConsistent(raw, rows) && raw.protocolVersion.Is(delta.protocolVersion) && commit == delta.commit
  {
    violations := [];
    var pass, fail, skip := CountRows(rows);
    if !raw.passed.Is(pass as real) || !raw.failed.Is(fail as real) || !raw.skipped.Is(skip as real)
       || raw.saysOk != (fail == 0) {
      violations := violations + [InconsistentReport];
    }
    if !raw.protocolVersion.Is(delta.protocolVersion) {
      violations := violations + [ProtocolVersionMismatch];
    }
    if commit != delta.commit {
      violations := violations + [PinMismatch];
    }
  }

  /** The cases, against the declarations. */
  method CompareCases(rows: seq<Row>, deviations: seq<Deviation>) returns (violations: seq<ViolationKind>, checked: nat)
    ensures forall kind :: kind in violations <==>
      || (kind == DuplicateDeclaration && !HasUniqueDeclarations(deviations))
      || (kind == UndeclaredDeviation && !AreDeclared(deviations, rows))
      || HasOutcome(kind, deviations, rows)
    ensures violations == [] <==> IsMatch(deviations, rows)
    ensures checked == CountNone(OutcomesOf(FirstOnes(deviations), LastRows(rows)))
    ensures violations == [] ==> checked == |deviations|
  {
    var declared, keys, duplicates := IndexDeclarations(deviations);
    var byKey := IndexRows(rows);
    var mismatches, tally := TallyDeviations(OutcomesOf(declared, byKey), |declared|);
    var undeclared := CountUndeclared(rows, keys);
    violations := Repeat(DuplicateDeclaration, duplicates) + mismatches + Repeat(UndeclaredDeviation, undeclared);
    checked := tally.value;
    OutcomesOfObserved(declared, rows);
    if duplicates == 0 {
      UniqueOnesAreAllFirst(deviations);
    }
  }

  lemma OutcomesAreOutcomes(kind: ViolationKind, deviations: seq<Deviation>, rows: seq<Row>)
    requires HasOutcome(kind, deviations, rows)
    ensures kind == AbsentDeviation || kind == StaleDeviation || kind == StatusChanged
  {
    var declared, byKey := FirstOnes(deviations), LastRows(rows);
    var i :| 0 <= i < |declared| && OutcomesOf(declared, byKey)[i] == Some(kind);
    assert DeviationOutcome(declared[i], Lookup(byKey, KeyOfDeviation(declared[i]))) == Some(kind);
  }

  /** Of a graded report the heads are compared first, then the cases. */
  lemma WhatAppliesToAGradedReport(kind: ViolationKind, raw: RawReport, delta: PublishedDelta, commit: string)
    requires IsGraded(raw, delta)
    ensures Applies(kind, raw, delta, commit) <==>
      || (kind == InconsistentReport && !IsConsistent(raw, RowsOf(raw)))
      || (kind == ProtocolVersionMismatch && !raw.protocolVersion.Is(delta.protocolVersion))
      || (kind == PinMismatch && commit != delta.commit)
      || (kind == DuplicateDeclaration && !HasUniqueDeclarations(delta.deviations))
      || (kind == UndeclaredDeviation && !AreDeclared(delta.deviations, RowsOf(raw)))
      || HasOutcome(kind, delta.deviations, RowsOf(raw))
  {
    if HasOutcome(kind, delta.deviations, RowsOf(raw)) {
      OutcomesAreOutcomes(kind, delta.deviations, RowsOf(raw));
    }
  }

  /** A graded report, against the delta. */
  method CompareReport(raw: RawReport, delta: PublishedDelta, commit: string)
    returns (violations: seq<ViolationKind>, checked: nat)
    requires IsGraded(raw, delta)
    ensures violations == [] <==> Holds(raw, delta, commit)
    ensures forall kind :: kind in violations <==> Applies(kind, raw, delta, commit)
    ensures violations == [] ==> checked == |delta.deviations|
    ensures checked == CountNone(OutcomesOf(FirstOnes(delta.deviations), LastRows(RowsOf(raw))))
  {
    var rows := RowsOf(raw);
    var heads := CompareHeads(raw, rows, delta, commit);
    var cases;
    cases, checked := CompareCases(rows, delta.deviations);
    violations := heads + cases;
    forall kind ensures kind in violations <==> Applies(kind, raw, delta, commit) {
      WhatAppliesToAGradedReport(kind, raw, delta, commit);
    }
  }

  /** `assertDelta`: it passes exactly when the comparison holds, having checked every declaration. */
  method AssertDelta(raw: RawReport, delta: PublishedDelta, commit: string) returns (r: DeltaResult)
    ensures r.passed <==> Holds(raw, delta, commit)
    ensures r.passed <==> r.violations == []
    ensures forall kind :: kind in r.violations <==> Applies(kind, raw, delta, commit)
    ensures r.passed ==> r.checked == |delta.deviations|
    ensures r.checked == if IsGraded(raw, delta)
      then CountNone(OutcomesOf(FirstOnes(delta.deviations), LastRows(RowsOf(raw)))) else 0
  {
    if delta.status == Blocked {
      return DeltaResult(false, [DeltaNotObserved], 0);
    }
    var problem := FindProblem(raw);
    if problem {
      return DeltaResult(false, [UnreadableReport], 0);
    }
    if |RowsOf(raw)| == 0 {
      return DeltaResult(false, [EmptyReport], 0);
    }
    var violations, checked := CompareReport(raw, delta, commit);
    r := DeltaResult(|violations| == 0, violations, checked);
  }

  // -------------------------------------------------------------------------
  // As sets.
  // -------------------------------------------------------------------------

  ghost function NonPassing(rows: seq<Row>): set<(string, CaseStatus)> {
    set i | 0 <= i < |rows| && rows[i].status != Pass :: (KeyOfRow(rows[i]), rows[i].status)
  }

  ghost function DeclaredPairs(deviations: seq<Deviation>): set<(string, CaseStatus)> {
    set i | 0 <= i < |deviations| :: (KeyOfDeviation(deviations[i]), deviations[i].status)
  }

  lemma {:induction false} LastRowIsARow(rows: seq<Row>, key: string)
    ensures forall i :: 0 <= i < |rows| && KeyOfRow(rows[i]) == key ==> Lookup(LastRows(rows), key).Some?
    ensures Lookup(LastRows(rows), key).Some? ==>
      exists i :: 0 <= i < |rows| && KeyOfRow(rows[i]) == key && Lookup(LastRows(rows), key) == Some(rows[i])
  {
    if rows != [] {
      var last := |rows| - 1;
      var before := rows[..last];
      LastRowIsARow(before, key);
      assert forall i :: 0 <= i < last ==> before[i] == rows[i];
      if KeyOfRow(rows[last]) != key && Lookup(LastRows(rows), key).Some? {
        var i :| 0 <= i < last && KeyOfRow(before[i]) == key && Lookup(LastRows(before), key) == Some(before[i]);
        assert KeyOfRow(rows[i]) == key && Lookup(LastRows(rows), key) == Some(rows[i]);
      } else if KeyOfRow(rows[last]) == key {
        assert Lookup(LastRows(rows), key) == Some(rows[last]);
      }
    }
  }

  /** Rows of one key that do not pass all have one status. */
  predicate FailuresAgree(rows: seq<Row>) {
    forall i, j
      | 0 <= i < |rows| && 0 <= j < |rows| && KeyOfRow(rows[i]) == KeyOfRow(rows[j])
        && rows[i].status != Pass && rows[j].status != Pass
      :: rows[i].status == rows[j].status
  }

  /** The last row of a key that has a row which does not pass does not pass. */
  predicate FailuresStay(rows: seq<Row>) {
    forall i :: 0 <= i < |rows| && rows[i].status != Pass ==>
      var last := Lookup(LastRows(rows), KeyOfRow(rows[i]));
      last.Some? && last.value.status != Pass
  }

  lemma DeclaredPairsAreRows(deviations: seq<Deviation>, rows: seq<Row>, pair: (string, CaseStatus))
    requires IsMatch(deviations, rows) && pair in DeclaredPairs(deviations)
    ensures pair in NonPassing(rows)
  {
    var j :| 0 <= j < |deviations| && pair == (KeyOfDeviation(deviations[j]), deviations[j].status);
    LastRowIsARow(rows, pair.0);
    var i :| 0 <= i < |rows| && KeyOfRow(rows[i]) == pair.0 && Lookup(LastRows(rows), pair.0) == Some(rows[i]);
    assert pair == (KeyOfRow(rows[i]), rows[i].status);
  }

  lemma AgreeingRowsAreDeclared(deviations: seq<Deviation>, rows: seq<Row>, pair: (string, CaseStatus))
    requires IsMatch(deviations, rows) && FailuresAgree(rows) && pair in NonPassing(rows)
    ensures pair in DeclaredPairs(deviations)
  {
    var i :| 0 <= i < |rows| && rows[i].status != Pass && pair == (KeyOfRow(rows[i]), rows[i].status);
    assert IsDeclared(deviations, pair.0);
    var j :| 0 <= j < |deviations| && KeyOfDeviation(deviations[j]) == pair.0;
    LastRowIsARow(rows, pair.0);
    var last :| 0 <= last < |rows| && KeyOfRow(rows[last]) == pair.0 && Lookup(LastRows(rows), pair.0) ==
      Some(rows[last]);
    assert rows[last].status == deviations[j].status;
    assert pair == (KeyOfDeviation(deviations[j]), deviations[j].status);
  }

  lemma DeclaredRowsAgree(deviations: seq<Deviation>, rows: seq<Row>)
    requires HasUniqueDeclarations(deviations) && NonPassing(rows) == DeclaredPairs(deviations)
    ensures FailuresAgree(rows)
  {
    forall i, j | 0 <= i < |rows| && 0 <= j < |rows| && rows[i].status != Pass && rows[j].status != Pass
        && KeyOfRow(rows[i]) == KeyOfRow(rows[j])
      ensures rows[i].status == rows[j].status
    {
      var one, other := (KeyOfRow(rows[i]), rows[i].status), (KeyOfRow(rows[j]), rows[j].status);
      assert one in NonPassing(rows) && other in NonPassing(rows);
      var a :| 0 <= a < |deviations| && one == (KeyOfDeviation(deviations[a]), deviations[a].status);
      var b :| 0 <= b < |deviations| && other == (KeyOfDeviation(deviations[b]), deviations[b].status);
    }
  }

  /**
   * What a passing comparison leaves unreported: the cases that do not pass are
   * exactly the declared ones, with their statuses, if and only if rows of one
   * key that do not pass agree on their status.
   */
  lemma EveryDeviationIsReportedIff(deviations: seq<Deviation>, rows: seq<Row>)
    requires IsMatch(deviations, rows)
    ensures NonPassing(rows) == DeclaredPairs(deviations) <==> FailuresAgree(rows)
  {
    forall pair | pair in DeclaredPairs(deviations) ensures pair in NonPassing(rows) {
      DeclaredPairsAreRows(deviations, rows, pair);
    }
    if FailuresAgree(rows) {
      forall pair | pair in NonPassing(rows) ensures pair in DeclaredPairs(deviations) {
        AgreeingRowsAreDeclared(deviations, rows, pair);
      }
    }
    if NonPassing(rows) == DeclaredPairs(deviations) {
      DeclaredRowsAgree(deviations, rows);
    }
  }

  /**
   * And the other way: when exactly the deviations are declared, each once, the
   * comparison passes if and only if no key ends on a row that passes after one
   * that does not.
   */
  lemma DeclaredDeviationsPassIff(deviations: seq<Deviation>, rows: seq<Row>)
    requires HasUniqueDeclarations(deviations) && NonPassing(rows) == DeclaredPairs(deviations)
    ensures IsMatch(deviations, rows) <==> FailuresStay(rows)
  {
    DeclaredRowsAgree(deviations, rows);
    forall i | 0 <= i < |rows| && rows[i].status != Pass ensures IsDeclared(deviations, KeyOfRow(rows[i])) {
      assert (KeyOfRow(rows[i]), rows[i].status) in NonPassing(rows);
      var j :| 0 <= j < |deviations|
        && (KeyOfRow(rows[i]), rows[i].status) == (KeyOfDeviation(deviations[j]), deviations[j].status);
    }
    if FailuresStay(rows) {
      StayingFailuresAreObserved(deviations, rows);
    }
    if AreObserved(deviations, rows) {
      ObservedFailuresStay(deviations, rows);
    }
  }

  lemma StayingFailuresAreObserved(deviations: seq<Deviation>, rows: seq<Row>)
    requires FailuresStay(rows) && FailuresAgree(rows) && NonPassing(rows) == DeclaredPairs(deviations)
    ensures AreObserved(deviations, rows)
  {
    forall j | 0 <= j < |deviations|
      ensures Lookup(LastRows(rows), KeyOfDeviation(deviations[j])).Some?
      ensures Lookup(LastRows(rows), KeyOfDeviation(deviations[j])).value.status == deviations[j].status
    {
      var pair := (KeyOfDeviation(deviations[j]), deviations[j].status);
      assert pair in DeclaredPairs(deviations);
      var i :| 0 <= i < |rows| && rows[i].status != Pass && pair == (KeyOfRow(rows[i]), rows[i].status);
      LastRowIsARow(rows, pair.0);
      var last :| 0 <= last < |rows| && KeyOfRow(rows[last]) == pair.0 && Lookup(LastRows(rows), pair.0) ==
        Some(rows[last]);
    }
  }

  lemma ObservedFailuresStay(deviations: seq<Deviation>, rows: seq<Row>)
    requires AreObserved(deviations, rows) && NonPassing(rows) == DeclaredPairs(deviations)
    ensures FailuresStay(rows)
  {
    forall i | 0 <= i < |rows| && rows[i].status != Pass
      ensures Lookup(LastRows(rows), KeyOfRow(rows[i])).Some?
      ensures Lookup(LastRows(rows), KeyOfRow(rows[i])).value.status != Pass
    {
      var pair := (KeyOfRow(rows[i]), rows[i].status);
      assert pair in NonPassing(rows);
      var j :| 0 <= j < |deviations| && pair == (KeyOfDeviation(deviations[j]), deviations[j].status);
    }
  }

  lemma UniqueRowsAgreeAndStay(rows: seq<Row>)
    requires HasUniqueRows(rows)
    ensures FailuresAgree(rows) && FailuresStay(rows)
  {
    forall i | 0 <= i < |rows| && rows[i].status != Pass
      ensures Lookup(LastRows(rows), KeyOfRow(rows[i])) == Some(rows[i])
    {
      var key := KeyOfRow(rows[i]);
      LastRowIsARow(rows, key);
      var last :| 0 <= last < |rows| && KeyOfRow(rows[last]) == key && Lookup(LastRows(rows), key) == Some(rows[last]);
    }
  }

  /**
   * When no two rows share a key, the comparison holds exactly when the
   * declarations are unique and the cases that do not pass, with their
   * statuses, are exactly the declared ones.
   */
  lemma MatchingIsEqualityOfSets(deviations: seq<Deviation>, rows: seq<Row>)
    requires HasUniqueRows(rows)
    ensures IsMatch(deviations, rows)
      <==> HasUniqueDeclarations(deviations) && NonPassing(rows) == DeclaredPairs(deviations)
  {
    UniqueRowsAgreeAndStay(rows);
    if IsMatch(deviations, rows) {
      EveryDeviationIsReportedIff(deviations, rows);
    }
    if HasUniqueDeclarations(deviations) && NonPassing(rows) == DeclaredPairs(deviations) {
      DeclaredDeviationsPassIff(deviations, rows);
    }
  }

  /** It happens: an undeclared skip hides behind a later row of its key. */
  lemma ARepeatedKeyCanHideADeviation(name: string, verb: string)
    ensures var rows := [Row(name, verb, Skip), Row(name, verb, Fail)];
      var deviations := [Deviation(name, verb, Fail)];
      IsMatch(deviations, rows) && NonPassing(rows) != DeclaredPairs(deviations)
  {
    var first, second := Row(name, verb, Skip), Row(name, verb, Fail);
    var rows := [first, second];
    var deviations := [Deviation(name, verb, Fail)];
    assert rows[..1] == [first];
    assert LastRows(rows)[KeyOf(name, verb)] == second;
    assert KeyOfDeviation(deviations[0]) == KeyOf(name, verb);
    assert (KeyOf(name, verb), rows[0].status) in NonPassing(rows);
    assert (KeyOf(name, verb), Skip) !in DeclaredPairs(deviations);
  }

  // -------------------------------------------------------------------------
  // What the violations say, from the printed report on.
  // -------------------------------------------------------------------------

  /** An entry with these three texts. */
  predicate Says(raw: RawRow, name: string, verb: string, status: string) {
    raw == RawRow(Some(name), Some(verb), Some(status))
  }

  /** A readable entry is a case and a verb with one of three statuses, and its row is that case. */
  lemma WhatAnEntrySays(raw: RawRow, name: string, verb: string)
    ensures IsRow(raw) && RowOf(raw) == Row(name, verb, Pass) <==> Says(raw, name, verb, "pass")
    ensures IsRow(raw) && RowOf(raw) == Row(name, verb, Fail) <==> Says(raw, name, verb, "fail")
    ensures IsRow(raw) && RowOf(raw) == Row(name, verb, Skip) <==> Says(raw, name, verb, "skip")
  {
    var pass, fail, skip := "pass", "fail", "skip";
    assert pass[0] != fail[0] && fail[0] != skip[0] && pass[0] != skip[0];
  }

  /** The case was graded, and this is the last time. */
  predicate IsLastGrading(rows: seq<Row>, r: nat, deviation: Deviation) {
    && r < |rows| && rows[r].verb + "::" + rows[r].name == deviation.verb + "::" + deviation.name
    && forall later :: r < later < |rows| ==>
        rows[later].verb + "::" + rows[later].name != deviation.verb + "::" + deviation.name
  }

  lemma {:induction false} TheLastGradingIsKept(rows: seq<Row>, r: nat, deviation: Deviation)
    requires IsLastGrading(rows, r, deviation)
    ensures Lookup(LastRows(rows), KeyOfDeviation(deviation)) == Some(rows[r])
  {
    var last := |rows| - 1;
    if r < last {
      assert KeyOfRow(rows[last]) != KeyOfDeviation(deviation);
      assert forall i :: 0 <= i < last ==> rows[..last][i] == rows[i];
      TheLastGradingIsKept(rows[..last], r, deviation);
    }
  }

  lemma {:induction false} GradedForTheLastTime(rows: seq<Row>, deviation: Deviation) returns (r: nat)
    requires exists i :: 0 <= i < |rows| && KeyOfRow(rows[i]) == KeyOfDeviation(deviation)
    ensures IsLastGrading(rows, r, deviation)
  {
    var last := |rows| - 1;
    if KeyOfRow(rows[last]) == KeyOfDeviation(deviation) {
      r := last;
    } else {
      var i :| 0 <= i < |rows| && KeyOfRow(rows[i]) == KeyOfDeviation(deviation);
      assert rows[..last][i] == rows[i];
      r := GradedForTheLastTime(rows[..last], deviation);
    }
  }

  predicate IsNeverGraded(rows: seq<Row>, deviation: Deviation) {
    forall r :: 0 <= r < |rows| ==> KeyOfRow(rows[r]) != KeyOfDeviation(deviation)
  }

  /** How a declared deviation fares, by the case's last grading. */
  ghost predicate Fares(rows: seq<Row>, deviation: Deviation, kind: ViolationKind) {
    match kind
    case AbsentDeviation => IsNeverGraded(rows, deviation)
    case StaleDeviation => exists r: nat :: IsLastGrading(rows, r, deviation) && rows[r].status == Pass
    case StatusChanged =>
      exists r: nat :: IsLastGrading(rows, r, deviation) && rows[r].status != Pass
        && rows[r].status != deviation.status
    case _ => false
  }

  lemma HowADeviationFares(rows: seq<Row>, deviation: Deviation, kind: ViolationKind)
    ensures DeviationOutcome(deviation, Lookup(LastRows(rows), KeyOfDeviation(deviation))) == Some(kind) <==>
      Fares(rows, deviation, kind)
  {
    forall r: nat | IsLastGrading(rows, r, deviation)
      ensures Lookup(LastRows(rows), KeyOfDeviation(deviation)) == Some(rows[r]) {
      TheLastGradingIsKept(rows, r, deviation);
    }
    if IsNeverGraded(rows, deviation) {
      LastRowIsARow(rows, KeyOfDeviation(deviation));
      forall r: nat ensures !IsLastGrading(rows, r, deviation) {
      }
    } else {
      var r := GradedForTheLastTime(rows, deviation);
      assert IsLastGrading(rows, r, deviation);
    }
  }

  /**
   * With unique declarations each of the three kinds is reported exactly when
   * some declared deviation fares so: never graded, passing when last graded,
   * or deviating then in another way than declared.
   */
  lemma WhatADeviationIsReportedAs(deviations: seq<Deviation>, rows: seq<Row>, kind: ViolationKind)
    requires HasUniqueDeclarations(deviations)
    ensures HasOutcome(kind, deviations, rows) <==>
      exists i :: 0 <= i < |deviations| && Fares(rows, deviations[i], kind)
  {
    UniqueOnesAreAllFirst(deviations);
    var outcomes := OutcomesOf(deviations, LastRows(rows));
    forall i | 0 <= i < |deviations| ensures outcomes[i] == Some(kind) <==> Fares(rows, deviations[i], kind) {
      HowADeviationFares(rows, deviations[i], kind);
    }
  }
}
