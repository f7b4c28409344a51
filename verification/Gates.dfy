/**
 * The quality gate (`evals/gates.ts`): the two-state check of every floor, and
 * the three-state one that may call a floor not yet measurable.
 */
module Gates {
  import opened Prelude
  import opened Metrics
  import opened Corpora
  import opened EvalRun
  import opened LexicalReach

  datatype MetricId = NdcgOf10 | HitOf1 | HitOf3 | DilutionHitOf3

  datatype Scope = Aggregate | OneType(t: QuestionType) | OneFamily(f: QueryFamily)

  datatype RankingFloor = RankingFloor(id: string, metric: MetricId, scope: Scope, minimum: real, minimumQueries: int)

  datatype Measurement = Measurement(value: Measured, count: nat)

  datatype FaultKind = Unmeasured | InsufficientQueries | NonFinite | BelowFloor | Leak | StaleDeferral

  datatype FloorViolation = FloorViolation(floor: string, kind: FaultKind)

  const VISIBILITY := "visibility"

  // -------------------------------------------------------------------------
  // Two states.
  // -------------------------------------------------------------------------

  function BucketFor(report: EvalReport, scope: Scope): Option<Bucket> {
    match scope
    case Aggregate => Some(report.aggregate)
    case OneType(t) => if t in report.byType then Some(report.byType[t]) else None
    case OneFamily(f) => if f in report.byFamily then Some(report.byFamily[f].bucket) else None
  }

  /** `measure`: None when the report does not carry the number. */
  function Measure(report: EvalReport, floor: RankingFloor): Option<Measurement> {
    var bucket := BucketFor(report, floor.scope);
    if bucket.None? then None
    else match floor.metric
      case NdcgOf10 => Some(Measurement(bucket.value.ndcg10, bucket.value.count))
      case HitOf1 => Some(Measurement(bucket.value.hit1, bucket.value.count))
      case HitOf3 => Some(Measurement(bucket.value.hit3, bucket.value.count))
      case DilutionHitOf3 =>
        if floor.scope.OneFamily? then
          Some(Measurement(report.byFamily[floor.scope.f].dilutionHit3, report.byFamily[floor.scope.f].bucket.count))
        else None
  }

  /** There is a number, over enough queries. */
  predicate IsMeasured(report: EvalReport, floor: RankingFloor) {
    var m := Measure(report, floor);
    m.Some? && m.value.count >= floor.minimumQueries && m.value.value.Finite?
  }

  predicate IsMet(report: EvalReport, floor: RankingFloor) {
    IsMeasured(report, floor) && Measure(report, floor).value.value.value >= floor.minimum
  }

  predicate IsBelow(report: EvalReport, floor: RankingFloor) {
    IsMeasured(report, floor) && Measure(report, floor).value.value.value < floor.minimum
  }

  predicate AllMet(report: EvalReport, floors: seq<RankingFloor>) {
    forall i :: 0 <= i < |floors| ==> IsMet(report, floors[i])
  }

  function LeakViolations(report: EvalReport): (r: seq<FloorViolation>)
    ensures |r| == |report.violations|
  {
    seq(|report.violations|, _ => FloorViolation(VISIBILITY, Leak))
  }

  datatype GateResult = GateResult(
    passed: bool,
    violations: seq<FloorViolation>,
    checked: nat,
    measurements: map<string, Measurement>)

  /** Only floors that carry a measurement have one, the last under each id. */
  function MeasurementsOf(report: EvalReport, floors: seq<RankingFloor>): map<string, Measurement> {
    if floors == [] then map[]
    else
      var last := floors[|floors| - 1];
      var m := Measure(report, last);
      var before := MeasurementsOf(report, floors[..|floors| - 1]);
      if m.Some? then before[last.id := m.value] else before
  }

  /** What is wrong with a floor, in the order it is looked at; nothing, when it is met. */
  function FloorFaultOf(report: EvalReport, floor: RankingFloor): (fault: Option<FaultKind>)
    ensures fault.None? <==> IsMet(report, floor)
    ensures fault == Some(BelowFloor) <==> IsBelow(report, floor)
  {
    var m := Measure(report, floor);
    if m.None? then Some(Unmeasured)
    else if m.value.count < floor.minimumQueries then Some(InsufficientQueries)
    else if m.value.value.NotANumber? then Some(NonFinite)
    else if m.value.value.value < floor.minimum then Some(BelowFloor)
    else None
  }

  /** One violation for each floor that is not met, in the order of the floors. */
  function FaultsOf(report: EvalReport, floors: seq<RankingFloor>): seq<FloorViolation> {
    if floors == [] then []
    else
      var last := floors[|floors| - 1];
      var fault := FloorFaultOf(report, last);
      FaultsOf(report, floors[..|floors| - 1])
      + if fault.Some? then [FloorViolation(last.id, fault.value)] else []
  }

  lemma {:induction false} NoFaultIffAllMet(report: EvalReport, floors: seq<RankingFloor>)
    ensures FaultsOf(report, floors) == [] <==> AllMet(report, floors)
  {
    if floors != [] {
      var last := |floors| - 1;
      NoFaultIffAllMet(report, floors[..last]);
      assert forall i :: 0 <= i < last ==> floors[..last][i] == floors[i];
    }
  }

  lemma {:induction false} FaultsAreListed(report: EvalReport, floors: seq<RankingFloor>)
    ensures forall i :: 0 <= i < |floors| && FloorFaultOf(report, floors[i]).Some? ==>
      FloorViolation(floors[i].id, FloorFaultOf(report, floors[i]).value) in FaultsOf(report, floors)
  {
    if floors != [] {
      var last := |floors| - 1;
      FaultsAreListed(report, floors[..last]);
      assert forall i :: 0 <= i < last ==> floors[..last][i] == floors[i];
    }
  }

  method ReportLeaks(report: EvalReport) returns (violations: seq<FloorViolation>)
    ensures violations == LeakViolations(report)
  {
    violations := [];
    for i := 0 to |report.violations|
      invariant violations == LeakViolations(report)[..i]
    {
      violations := violations + [FloorViolation(VISIBILITY, Leak)];
    }
  }

  /** `checkFloors`; None when it is given no floors. */
  method CheckFloors(report: EvalReport, floors: seq<RankingFloor>) returns (r: Option<GateResult>)
    ensures r.None? <==> floors == []
    ensures r.Some? ==> (r.value.passed <==> report.violations == [] && AllMet(report, floors))
    ensures r.Some? ==> (r.value.passed <==> r.value.violations == [])
    ensures r.Some? ==> r.value.violations == LeakViolations(report) + FaultsOf(report, floors)
    ensures r.Some? ==> forall i :: 0 <= i < |floors| && FloorFaultOf(report, floors[i]).Some? ==>
      FloorViolation(floors[i].id, FloorFaultOf(report, floors[i]).value) in r.value.violations
    ensures r.Some? ==> r.value.checked == |floors| && r.value.measurements == MeasurementsOf(report, floors)
  {
    if |floors| == 0 {
      return None;
    }
    var violations := ReportLeaks(report);
    var measurements: map<string, Measurement> := map[];
    var checked := 0;
    for i := 0 to |floors|
      invariant checked == i && measurements == MeasurementsOf(report, floors[..i])
      invariant violations == LeakViolations(report) + FaultsOf(report, floors[..i])
    {
      var floor := floors[i];
      assert floors[..i + 1][..i] == floors[..i];
      checked := checked + 1;
      var measurement := Measure(report, floor);
      if measurement.None? {
        violations := violations + [FloorViolation(floor.id, Unmeasured)];
        continue;
      }
      measurements := measurements[floor.id := measurement.value];
      if measurement.value.count < floor.minimumQueries {
        violations := violations + [FloorViolation(floor.id, InsufficientQueries)];
        continue;
      }
      if measurement.value.value.NotANumber? {
        violations := violations + [FloorViolation(floor.id, NonFinite)];
        continue;
      }
      if measurement.value.value.value < floor.minimum {
        violations := violations + [FloorViolation(floor.id, BelowFloor)];
      }
    }
    assert floors[..|floors|] == floors;
    NoFaultIffAllMet(report, floors);
    FaultsAreListed(report, floors);
    r := Some(GateResult(|violations| == 0, violations, checked, measurements));
  }

  // -------------------------------------------------------------------------
  // Three states.
  // -------------------------------------------------------------------------

  datatype FloorStatus = Met | Missed | Deferred

  /** `probes` names the responsible queries of a deferred floor. */
  datatype FloorOutcome = FloorOutcome(
    floor: string,
    status: FloorStatus,
    value: Measured,
    minimum: real,
    count: nat,
    probes: seq<QueryId>)

  /** What eligibility is judged on: the corpus, and how many vectors come from a provider. */
  datatype DeferralContext = DeferralContext(corpus: Corpus, knowledge: Knowledge, providerVectors: nat)

  /** `deferrableCutoffFor`: a mean has no rank. */
  function DeferrableCutoffFor(metric: MetricId): Option<int> {
    match metric
    case HitOf1 => Some(1)
    case HitOf3 => Some(3)
    case DilutionHitOf3 => Some(3)
    case NdcgOf10 => None
  }

  function InScope(scope: Scope): QueryOutcome -> bool {
    match scope
    case Aggregate => (o: QueryOutcome) => true
    case OneType(t) => (o: QueryOutcome) => o.questionType == t
    case OneFamily(f) => (o: QueryOutcome) => o.family == f
  }

  function ProbesFor(report: EvalReport, floor: RankingFloor): seq<QueryOutcome> {
    Keep(report.perQuery, InScope(floor.scope))
  }

  /** The probe scored zero on the floor's metric. */
  predicate IsResponsible(metric: MetricId, o: QueryOutcome) {
    match metric
    case DilutionHitOf3 => o.dilutionHit3 == Some(0.0)
    case HitOf1 => o.hit1 == 0.0
    case HitOf3 => o.hit3 == 0.0
    case NdcgOf10 => false
  }

  function IsInGroup(c: Corpus, group: GroupId): ChunkId -> bool {
    (id: ChunkId) => c.GroupOf(id) == Some(group)
  }

  function ChunksOfGroups(c: Corpus, groups: seq<GroupId>): seq<ChunkId> {
    if groups == [] then []
    else ChunksOfGroups(c, groups[..|groups| - 1]) + Keep(c.chunkIds, IsInGroup(c, groups[|groups| - 1]))
  }

  /** The chunks that would have had to reach the cutoff. */
  function RequiredChunks(c: Corpus, metric: MetricId, q: Query, o: QueryOutcome): seq<ChunkId> {
    if metric.DilutionHitOf3? then ChunksOfGroups(c, o.missedGroups) else q.answers
  }

  /** A probe on the hook is one no keyed mechanism could have answered. */
  predicate IsExcused(context: DeferralContext, metric: MetricId, o: QueryOutcome) {
    var c := context.corpus;
    && o.query in c.queriesById
    && (IsResponsible(metric, o) ==>
          var q := c.queriesById[o.query];
          var required := RequiredChunks(c, metric, q, o);
          && DeferrableCutoffFor(metric).Some?
          && CanJudge(c, q, required, DeferrableCutoffFor(metric).value)
          && IsSemanticOnly(c, context.knowledge, q, required, DeferrableCutoffFor(metric).value))
  }

  function ResponsibleIds(metric: MetricId, probes: seq<QueryOutcome>): seq<QueryId> {
    if probes == [] then []
    else
      var last := probes[|probes| - 1];
      ResponsibleIds(metric, probes[..|probes| - 1]) + if IsResponsible(metric, last) then [last.query] else []
  }

  predicate AreExcused(context: DeferralContext, metric: MetricId, probes: seq<QueryOutcome>) {
    forall i :: 0 <= i < |probes| ==> IsExcused(context, metric, probes[i])
  }

  /**
   * Not yet measurable: below the bar, with synthetic vectors only, on a metric
   * that has a rank, and every one of the probes responsible (there are some)
   * beyond the reach of a key.
   */
  predicate IsDeferred(report: EvalReport, floor: RankingFloor, context: DeferralContext) {
    && IsBelow(report, floor)
    && context.providerVectors == 0
    && DeferrableCutoffFor(floor.metric).Some?
    && AreExcused(context, floor.metric, ProbesFor(report, floor))
    && ResponsibleIds(floor.metric, ProbesFor(report, floor)) != []
  }

  function StatusOf(report: EvalReport, floor: RankingFloor, context: DeferralContext): FloorStatus {
    if IsMet(report, floor) then Met else if IsDeferred(report, floor, context) then Deferred else Missed
  }

  /** What every corpus that loads has: answers that are chunks, and a grant to see them with. */
  predicate IsJudgeable(c: Corpus) {
    forall id :: id in c.queriesById ==>
      var q := c.queriesById[id];
      q.answers != [] && q.grant != [] && forall i :: 0 <= i < |q.answers| ==> q.answers[i] in c.chunks
  }

  lemma LoadedCorporaAreJudgeable(input: CorpusInput, c: Corpus)
    requires IsAcceptable(input) && IsBuiltFrom(c, input)
    ensures IsJudgeable(c)
  {
    forall id | id in c.queriesById
      ensures var q := c.queriesById[id];
        q.answers != [] && q.grant != [] && forall i :: 0 <= i < |q.answers| ==> q.answers[i] in c.chunks {
      assert HasQuery(c.queries, id);
      var i :| 0 <= i < |c.queries| && c.queries[i].id == id;
      assert IsIndexed(c.queries[i], c.queriesById, c.gold) && IsAnswerable(c.queries[i], c.chunks);
    }
  }

  lemma {:induction false} GroupChunksAreChunks(c: Corpus, groups: seq<GroupId>)
    ensures forall id :: id in ChunksOfGroups(c, groups) ==> id in c.chunks
  {
    if groups != [] {
      GroupChunksAreChunks(c, groups[..|groups| - 1]);
    }
  }

  method CollectGroupChunks(c: Corpus, groups: seq<GroupId>) returns (chunks: seq<ChunkId>)
    ensures chunks == ChunksOfGroups(c, groups)
  {
    chunks := [];
    for i := 0 to |groups|
      invariant chunks == ChunksOfGroups(c, groups[..i])
    {
      assert groups[..i + 1][..i] == groups[..i];
      chunks := chunks + Keep(c.chunkIds, IsInGroup(c, groups[i]));
    }
    assert groups[..|groups|] == groups;
  }

  /** One turn of the loop in `classifyFloor`: whether the probe keeps a deferral alive. */
  method JudgeProbe(context: DeferralContext, metric: MetricId, o: QueryOutcome)
      returns (excused: bool, responsible: bool)
    requires IsJudgeable(context.corpus) && DeferrableCutoffFor(metric).Some?
    ensures excused <==> IsExcused(context, metric, o)
    ensures excused ==> (responsible <==> IsResponsible(metric, o))
  {
    var c := context.corpus;
    if o.query !in c.queriesById {
      return false, false;
    }
    var q := c.queriesById[o.query];
    if !IsResponsible(metric, o) {
      return true, false;
    }
    var required := q.answers;
    if metric.DilutionHitOf3? {
      required := CollectGroupChunks(c, o.missedGroups);
      GroupChunksAreChunks(c, o.missedGroups);
      if |required| == 0 {
        return false, true;
      }
    }
    var reach := ProbeReach(c, context.knowledge, q, required, DeferrableCutoffFor(metric).value);
    return reach.value.semanticOnly, true;
  }

  /** `classifyFloor` */
  method ClassifyFloor(report: EvalReport, floor: RankingFloor, context: DeferralContext)
      returns (outcome: FloorOutcome)
    requires IsJudgeable(context.corpus)
    ensures outcome.status == StatusOf(report, floor, context)
    ensures outcome.floor == floor.id && outcome.minimum == floor.minimum
    ensures outcome.value == if Measure(report, floor).Some? then Measure(report, floor).value.value else NotANumber
    ensures outcome.count == if Measure(report, floor).Some? then Measure(report, floor).value.count else 0
    ensures outcome.probes == if outcome.status.Deferred? then
      ResponsibleIds(floor.metric, ProbesFor(report, floor)) else []
  {
    var measurement := Measure(report, floor);
    var value := if measurement.Some? then measurement.value.value else NotANumber;
    var count := if measurement.Some? then measurement.value.count else 0;
    var missed := FloorOutcome(floor.id, Missed, value, floor.minimum, count, []);
    if measurement.None? || count < floor.minimumQueries || value.NotANumber? {
      return missed;
    }
    if value.value >= floor.minimum {
      return missed.(status := Met);
    }
    if context.providerVectors > 0 {
      return missed;
    }
    var cutoff := DeferrableCutoffFor(floor.metric);
    if cutoff.None? {
      return missed;
    }
    var probes := ProbesFor(report, floor);
    var responsible: seq<QueryId> := [];
    for i := 0 to |probes|
      invariant AreExcused(context, floor.metric, probes[..i])
      invariant responsible == ResponsibleIds(floor.metric, probes[..i])
    {
      var excused, onTheHook := JudgeProbe(context, floor.metric, probes[i]);
      if !excused {
        return missed;
      }
      assert probes[..i + 1] == probes[..i] + [probes[i]];
      if onTheHook {
        responsible := responsible + [probes[i].query];
      }
    }
    assert probes[..|probes|] == probes;
    if |responsible| == 0 {
      return missed;
    }
    outcome := missed.(status := Deferred, probes := responsible);
  }

  /** `violationsOf`, also for outcomes no floor produces. */
  function FaultOf(outcome: FloorOutcome): Option<FaultKind> {
    match outcome.status
    case Met => None
    case Missed => Some(BelowFloor)
    case Deferred =>
      if outcome.value.Finite? && outcome.value.value >= outcome.minimum then Some(StaleDeferral) else None
  }

  method ViolationsOf(outcomes: seq<FloorOutcome>) returns (violations: seq<FloorViolation>)
    ensures violations == [] <==> forall i :: 0 <= i < |outcomes| ==> FaultOf(outcomes[i]).None?
    ensures forall v :: v in violations <==>
      exists i :: 0 <= i < |outcomes| && FaultOf(outcomes[i]) == Some(v.kind) && v.floor == outcomes[i].floor
  {
    violations := [];
    for i := 0 to |outcomes|
      invariant violations == [] <==> forall j :: 0 <= j < i ==> FaultOf(outcomes[j]).None?
      invariant forall v :: v in violations <==>
        exists j :: 0 <= j < i && FaultOf(outcomes[j]) == Some(v.kind) && v.floor == outcomes[j].floor
    {
      var outcome := outcomes[i];
      if outcome.status.Met? {
        continue;
      }
      if outcome.status.Deferred? {
        if outcome.value.Finite? && outcome.value.value >= outcome.minimum {
          violations := violations + [FloorViolation(outcome.floor, StaleDeferral)];
        }
        continue;
      }
      violations := violations + [FloorViolation(outcome.floor, BelowFloor)];
    }
  }

  datatype ClassifiedGate = ClassifiedGate(
    outcomes: seq<FloorOutcome>,
    deferrals: seq<FloorOutcome>,
    violations: seq<FloorViolation>,
    passed: bool)

  function IsDeferral(): FloorOutcome -> bool {
    (o: FloorOutcome) => o.status.Deferred?
  }

  predicate AllMetOrDeferred(report: EvalReport, floors: seq<RankingFloor>, context: DeferralContext) {
    forall i :: 0 <= i < |floors| ==> !StatusOf(report, floors[i], context).Missed?
  }

  /** The floors one by one; a deferral is never of a floor at or above its bar. */
  method ClassifyEach(report: EvalReport, floors: seq<RankingFloor>, context: DeferralContext)
    returns (outcomes: seq<FloorOutcome>)
    requires IsJudgeable(context.corpus)
    ensures |outcomes| == |floors|
    ensures forall i :: 0 <= i < |floors| ==> outcomes[i].status == StatusOf(report, floors[i], context)
    ensures forall i :: 0 <= i < |floors| ==>
      FaultOf(outcomes[i]) == (if outcomes[i].status.Missed? then Some(BelowFloor) else None)
  {
    outcomes := [];
    for i := 0 to |floors|
      invariant |outcomes| == i
      invariant forall j :: 0 <= j < i ==> outcomes[j].status == StatusOf(report, floors[j], context)
      invariant forall j :: 0 <= j < i ==>
        FaultOf(outcomes[j]) == (if outcomes[j].status.Missed? then Some(BelowFloor) else None)
    {
      var outcome := ClassifyFloor(report, floors[i], context);
      outcomes := outcomes + [outcome];
    }
  }

  /** `classifyFloors`: no deferral it makes is stale. */
  method ClassifyFloors(report: EvalReport, floors: seq<RankingFloor>, context: DeferralContext)
    returns (r: Option<ClassifiedGate>)
    requires IsJudgeable(context.corpus)
    ensures r.None? <==> floors == []
    ensures r.Some? ==> |r.value.outcomes| == |floors|
    ensures r.Some? ==> forall i :: 0 <= i < |floors| ==>
      r.value.outcomes[i].status == StatusOf(report, floors[i], context)
    ensures r.Some? ==> r.value.deferrals == Keep(r.value.outcomes, IsDeferral())
    ensures r.Some? ==> (r.value.passed <==> report.violations == [] && AllMetOrDeferred(report, floors, context))
    ensures r.Some? ==> (r.value.passed <==> r.value.violations == [])
    ensures r.Some? ==> forall v :: v in r.value.violations ==> v.kind != StaleDeferral
  {
    if |floors| == 0 {
      return None;
    }
    var leaks := ReportLeaks(report);
    var outcomes := ClassifyEach(report, floors, context);
    var violations := ViolationsOf(outcomes);
    violations := leaks + violations;
    r := Some(ClassifiedGate(outcomes, Keep(outcomes, IsDeferral()), violations, |violations| == 0));
  }

  // -------------------------------------------------------------------------
  // What a floor measures, from the outcomes of the single queries.
  // -------------------------------------------------------------------------

  predicate IsProbeOf(scope: Scope, o: QueryOutcome) {
    match scope
    case Aggregate => true
    case OneType(t) => o.questionType == t
    case OneFamily(f) => o.family == f
  }

  /** What a probe scored; only the dilution family has a dilution score. */
  function ValueOn(metric: MetricId, o: QueryOutcome): Option<real> {
    match metric
    case NdcgOf10 => Some(o.ndcg10)
    case HitOf1 => Some(o.hit1)
    case HitOf3 => Some(o.hit3)
    case DilutionHitOf3 => o.dilutionHit3
  }

  function ProbeCount(outcomes: seq<QueryOutcome>, scope: Scope): nat {
    if outcomes == [] then 0
    else
      var last := |outcomes| - 1;
      ProbeCount(outcomes[..last], scope) + if IsProbeOf(scope, outcomes[last]) then 1 else 0
  }

  /** How many probes have a score on the metric, and what the scores add up to. */
  function ScoredCount(outcomes: seq<QueryOutcome>, scope: Scope, metric: MetricId): nat {
    if outcomes == [] then 0
    else
      var last := |outcomes| - 1;
      ScoredCount(outcomes[..last], scope, metric)
      + if IsProbeOf(scope, outcomes[last]) && ValueOn(metric, outcomes[last]).Some? then 1 else 0
  }

  function ScoreSum(outcomes: seq<QueryOutcome>, scope: Scope, metric: MetricId): real {
    if outcomes == [] then 0.0
    else
      var last := |outcomes| - 1;
      ScoreSum(outcomes[..last], scope, metric)
      + if IsProbeOf(scope, outcomes[last]) && ValueOn(metric, outcomes[last]).Some?
        then ValueOn(metric, outcomes[last]).value else 0.0
  }

  /** The numbers whose mean the report carries for a metric. */
  function ValuesOn(metric: MetricId, selected: seq<Scored>): seq<real> {
    match metric
    case NdcgOf10 => Each(selected, NDCG10)
    case HitOf1 => Each(selected, HIT1)
    case HitOf3 => Each(selected, HIT3)
    case DilutionHitOf3 => Defined(Each(selected, DILUTION3))
  }

  lemma ValuesWithOneMore(metric: MetricId, selected: seq<Scored>, q: Query, s: Scored)
    ensures ValuesOn(metric, selected + [s]) == ValuesOn(metric, selected)
      + if ValueOn(metric, OutcomeOf(q, s)).Some? then [ValueOn(metric, OutcomeOf(q, s)).value] else []
  {
    if metric.DilutionHitOf3? {
      assert Each(selected + [s], DILUTION3)[..|selected|] == Each(selected, DILUTION3);
    }
  }

  lemma TotalWithOneMore(values: seq<real>, x: real)
    ensures Total(values + [x]) == Total(values) + x
  {
    assert (values + [x])[..|values|] == values;
  }

  ghost predicate Selects(p: Query -> bool, scope: Scope) {
    forall q, s :: IsProbeOf(scope, OutcomeOf(q, s)) <==> p(q)
  }

  ghost predicate Measures(selected: seq<Scored>, outcomes: seq<QueryOutcome>, scope: Scope, metric: MetricId) {
    && |selected| == ProbeCount(outcomes, scope)
    && |ValuesOn(metric, selected)| == ScoredCount(outcomes, scope, metric)
    && Total(ValuesOn(metric, selected)) == ScoreSum(outcomes, scope, metric)
  }

  /** What one outcome more adds to the three sums. */
  lemma SumsWithOneMore(outcomes: seq<QueryOutcome>, o: QueryOutcome, scope: Scope, metric: MetricId)
    ensures !IsProbeOf(scope, o) ==>
      && ProbeCount(outcomes + [o], scope) == ProbeCount(outcomes, scope)
      && ScoredCount(outcomes + [o], scope, metric) == ScoredCount(outcomes, scope, metric)
      && ScoreSum(outcomes + [o], scope, metric) == ScoreSum(outcomes, scope, metric)
    ensures IsProbeOf(scope, o) ==> ProbeCount(outcomes + [o], scope) == ProbeCount(outcomes, scope) + 1
    ensures IsProbeOf(scope, o) && ValueOn(metric, o).None? ==>
      && ScoredCount(outcomes + [o], scope, metric) == ScoredCount(outcomes, scope, metric)
      && ScoreSum(outcomes + [o], scope, metric) == ScoreSum(outcomes, scope, metric)
    ensures IsProbeOf(scope, o) && ValueOn(metric, o).Some? ==>
      && ScoredCount(outcomes + [o], scope, metric) == ScoredCount(outcomes, scope, metric) + 1
      && ScoreSum(outcomes + [o], scope, metric) == ScoreSum(outcomes, scope, metric) + ValueOn(metric, o).value
  {
    assert (outcomes + [o])[..|outcomes|] == outcomes;
  }

  /** One query more in the scope. */
  lemma MeasuresOneMore(selected: seq<Scored>, q: Query, s: Scored, outcomes: seq<QueryOutcome>,
                        scope: Scope, metric: MetricId)
    requires Measures(selected, outcomes, scope, metric) && IsProbeOf(scope, OutcomeOf(q, s))
    ensures Measures(selected + [s], outcomes + [OutcomeOf(q, s)], scope, metric)
  {
    SumsWithOneMore(outcomes, OutcomeOf(q, s), scope, metric);
    ValuesWithOneMore(metric, selected, q, s);
    if ValueOn(metric, OutcomeOf(q, s)).Some? {
      TotalWithOneMore(ValuesOn(metric, selected), ValueOn(metric, OutcomeOf(q, s)).value);
    } else {
      assert ValuesOn(metric, selected) + [] == ValuesOn(metric, selected);
    }
  }

  lemma {:induction false} SelectionMeasures(queries: seq<Query>, scores: seq<Scored>, outcomes: seq<QueryOutcome>,
      p: Query -> bool, scope: Scope, metric: MetricId)
    requires |queries| == |scores| && AreOutcomes(queries, scores, outcomes) && Selects(p, scope)
    ensures Measures(Select(queries, scores, p), outcomes, scope, metric)
  {
    if queries == [] {
      assert Defined(Each([], DILUTION3)) == [];
    } else {
      var last := |queries| - 1;
      SelectionMeasures(queries[..last], scores[..last], outcomes[..last], p, scope, metric);
      var before := Select(queries[..last], scores[..last], p);
      var o := OutcomeOf(queries[last], scores[last]);
      assert outcomes == outcomes[..last] + [o];
      if p(queries[last]) {
        MeasuresOneMore(before, queries[last], scores[last], outcomes[..last], scope, metric);
      } else {
        SumsWithOneMore(outcomes[..last], o, scope, metric);
        assert before + [] == before;
      }
    }
  }

  function Everything(): Query -> bool {
    (q: Query) => true
  }

  lemma {:induction false} SelectingAll(queries: seq<Query>, scores: seq<Scored>)
    requires |queries| == |scores|
    ensures Select(queries, scores, Everything()) == scores
  {
    if queries != [] {
      var last := |queries| - 1;
      SelectingAll(queries[..last], scores[..last]);
      assert Select(queries, scores, Everything()) == scores[..last] + [scores[last]];
    }
  }

  lemma ScopesMeasure(queries: seq<Query>, scores: seq<Scored>, outcomes: seq<QueryOutcome>,
                      scope: Scope, metric: MetricId)
    requires |queries| == |scores| && AreOutcomes(queries, scores, outcomes)
    ensures Measures(SelectFor(queries, scores, scope), outcomes, scope, metric)
  {
    match scope
    case Aggregate =>
      SelectingAll(queries, scores);
      SelectionMeasures(queries, scores, outcomes, Everything(), scope, metric);
    case OneType(t) => SelectionMeasures(queries, scores, outcomes, OfType(t), scope, metric);
    case OneFamily(f) => SelectionMeasures(queries, scores, outcomes, OfFamily(f), scope, metric);
  }

  /** The reports carry every mean but that of the dilution score, which families alone carry. */
  predicate IsCarried(floor: RankingFloor) {
    floor.metric.DilutionHitOf3? ==> floor.scope.OneFamily?
  }

  /** A report's number for a floor is the mean of these values, over this many queries. */
  lemma TheMeasurementIsAMean(c: Corpus, rank: Ranker, scores: seq<Scored>, report: EvalReport, floor: RankingFloor)
    requires |scores| == |c.queries| && IsReport(c, rank, scores, report)
    ensures var selected := SelectFor(c.queries, scores, floor.scope);
      Measure(report, floor) ==
        if IsCarried(floor) then Some(Measurement(MeanOf(ValuesOn(floor.metric, selected)), |selected|)) else None
  {
    ReportsCarryBuckets(c, rank, scores, report, floor.scope);
  }

  /** `value` is the mean of `n` numbers with this sum, if there are any; and which side of a bar it is on. */
  ghost predicate IsMean(value: Measured, sum: real, n: nat, bar: real) {
    && (value.Finite? <==> n > 0)
    && (n > 0 ==> value.value * n as real == sum && (value.value >= bar <==> sum >= n as real * bar))
  }

  lemma MeansAndSums(values: seq<real>, bar: real)
    ensures IsMean(MeanOf(values), Total(values), |values|, bar)
  {
    if values != [] {
      MeanBound(Total(values), |values|, bar);
    }
  }

  /** The measurement is the mean of the scores there are, over the probes there are. */
  ghost predicate IsMeasurementOf(m: Option<Measurement>, floor: RankingFloor, outcomes: seq<QueryOutcome>) {
    && (m.Some? <==> IsCarried(floor))
    && (m.Some? ==>
      && m.value.count == ProbeCount(outcomes, floor.scope)
      && IsMean(m.value.value, ScoreSum(outcomes, floor.scope, floor.metric),
          ScoredCount(outcomes, floor.scope, floor.metric), floor.minimum))
  }

  lemma SelectionsAreMeasured(m: Option<Measurement>, floor: RankingFloor, selected: seq<Scored>,
                              outcomes: seq<QueryOutcome>)
    requires m ==
      if IsCarried(floor) then Some(Measurement(MeanOf(ValuesOn(floor.metric, selected)), |selected|)) else None
    requires Measures(selected, outcomes, floor.scope, floor.metric)
    ensures IsMeasurementOf(m, floor, outcomes)
  {
    MeansAndSums(ValuesOn(floor.metric, selected), floor.minimum);
  }

  /**
   * What a report's number is, read off the single queries: it is there unless
   * a dilution floor is not of a family, its count is that of the probes in the
   * scope, and its value, times the number of scores, is their sum.
   */
  lemma WhatIsMeasured(c: Corpus, rank: Ranker, scores: seq<Scored>, report: EvalReport, floor: RankingFloor)
    requires |scores| == |c.queries| && IsReport(c, rank, scores, report)
    ensures IsMeasurementOf(Measure(report, floor), floor, report.perQuery)
  {
    TheMeasurementIsAMean(c, rank, scores, report, floor);
    ScopesMeasure(c.queries, scores, report.perQuery, floor.scope, floor.metric);
    SelectionsAreMeasured(Measure(report, floor), floor, SelectFor(c.queries, scores, floor.scope), report.perQuery);
  }

  /** There are enough probes, at least one with a score; a dilution floor is one of a family. */
  predicate IsMeasurable(report: EvalReport, floor: RankingFloor) {
    && IsCarried(floor)
    && ProbeCount(report.perQuery, floor.scope) >= floor.minimumQueries
    && ScoredCount(report.perQuery, floor.scope, floor.metric) > 0
  }

  /** The scores of the probes add up to the bar once for each. */
  predicate AddUp(report: EvalReport, floor: RankingFloor) {
    ScoreSum(report.perQuery, floor.scope, floor.metric)
      >= ScoredCount(report.perQuery, floor.scope, floor.metric) as real * floor.minimum
  }

  lemma MeasurementsDecide(report: EvalReport, floor: RankingFloor)
    requires IsMeasurementOf(Measure(report, floor), floor, report.perQuery)
    ensures IsMet(report, floor) <==> IsMeasurable(report, floor) && AddUp(report, floor)
    ensures IsBelow(report, floor) <==> IsMeasurable(report, floor) && !AddUp(report, floor)
  {
  }

  /**
   * A floor is met exactly when it is measurable and the scores of its probes
   * reach its bar together, and below it exactly when measurable and they do not.
   */
  lemma FloorsAreMetIff(c: Corpus, rank: Ranker, scores: seq<Scored>, report: EvalReport, floor: RankingFloor)
    requires |scores| == |c.queries| && IsReport(c, rank, scores, report)
    ensures IsMet(report, floor) <==> IsMeasurable(report, floor) && AddUp(report, floor)
    ensures IsBelow(report, floor) <==> IsMeasurable(report, floor) && !AddUp(report, floor)
  {
    WhatIsMeasured(c, rank, scores, report, floor);
    MeasurementsDecide(report, floor);
  }

  /** And which fault a floor that is not met is given. */
  lemma WhatAFaultSays(c: Corpus, rank: Ranker, scores: seq<Scored>, report: EvalReport, floor: RankingFloor)
    requires |scores| == |c.queries| && IsReport(c, rank, scores, report)
    ensures var probes := ProbeCount(report.perQuery, floor.scope);
      var n := ScoredCount(report.perQuery, floor.scope, floor.metric);
      match FloorFaultOf(report, floor)
      case None => IsMeasurable(report, floor)
      case Some(Unmeasured) => floor.metric.DilutionHitOf3? && !floor.scope.OneFamily?
      case Some(InsufficientQueries) => probes < floor.minimumQueries
      case Some(NonFinite) => probes >= floor.minimumQueries && n == 0
      case Some(BelowFloor) => IsMeasurable(report, floor)
      case Some(_) => false
  {
    WhatIsMeasured(c, rank, scores, report, floor);
  }

  // -------------------------------------------------------------------------
  // The third state refines the second.
  // -------------------------------------------------------------------------

  predicate PassesCheck(report: EvalReport, floors: seq<RankingFloor>) {
    report.violations == [] && AllMet(report, floors)
  }

  predicate PassesClassify(report: EvalReport, floors: seq<RankingFloor>, context: DeferralContext) {
    report.violations == [] && AllMetOrDeferred(report, floors, context)
  }

  /** A probe the report holds against the floor, and that the deferral has to excuse. */
  predicate HasExcusedMiss(report: EvalReport, floor: RankingFloor, context: DeferralContext) {
    exists i :: 0 <= i < |report.perQuery| && InScope(floor.scope)(report.perQuery[i])
                && IsResponsible(floor.metric, report.perQuery[i])
                  && IsExcused(context, floor.metric, report.perQuery[i])
  }

  lemma {:induction false} SomeoneIsResponsible(metric: MetricId, probes: seq<QueryOutcome>)
    ensures ResponsibleIds(metric, probes) != [] <==> exists i :: 0 <= i < |probes| && IsResponsible(metric, probes[i])
  {
    if probes != [] {
      var before := probes[..|probes| - 1];
      SomeoneIsResponsible(metric, before);
      assert forall i :: 0 <= i < |before| ==> before[i] == probes[i];
    }
  }

  /** Every missed probe of a deferred floor is excused, and there is one. */
  lemma ADeferralNamesItsProbes(report: EvalReport, floor: RankingFloor, context: DeferralContext)
    requires IsDeferred(report, floor, context)
    ensures HasExcusedMiss(report, floor, context)
    ensures forall i :: 0 <= i < |report.perQuery| && InScope(floor.scope)(report.perQuery[i]) ==>
      IsExcused(context, floor.metric, report.perQuery[i])
    ensures floor.metric.HitOf1? || floor.metric.HitOf3? || floor.metric.DilutionHitOf3?
  {
    var probes := ProbesFor(report, floor);
    SomeoneIsResponsible(floor.metric, probes);
    var i :| 0 <= i < |probes| && IsResponsible(floor.metric, probes[i]);
    assert probes[i] in probes;
    var j :| 0 <= j < |report.perQuery| && report.perQuery[j] == probes[i];
    forall n | 0 <= n < |report.perQuery| && InScope(floor.scope)(report.perQuery[n])
      ensures IsExcused(context, floor.metric, report.perQuery[n]) {
      KeepKeeps(report.perQuery, InScope(floor.scope), report.perQuery[n]);
      var m :| 0 <= m < |probes| && probes[m] == report.perQuery[n];
    }
  }

  /**
   * The three-state gate refines the two-state one: it passes whatever the other
   * passes; the two differ exactly when nothing leaked, no floor is missed and
   * at least one is deferred, and never once a provider vector is there.
   */
  lemma TheThirdStateRefinesTheSecond(report: EvalReport, floors: seq<RankingFloor>, context: DeferralContext)
    ensures PassesCheck(report, floors) ==> PassesClassify(report, floors, context)
    ensures context.providerVectors > 0 ==> (PassesCheck(report, floors) <==> PassesClassify(report, floors, context))
    ensures PassesClassify(report, floors, context) && !PassesCheck(report, floors) <==>
      && report.violations == [] && AllMetOrDeferred(report, floors, context)
      && exists i :: 0 <= i < |floors| && IsDeferred(report, floors[i], context)
    ensures PassesClassify(report, floors, context) && !PassesCheck(report, floors) ==>
      exists i :: 0 <= i < |floors| && IsBelow(report, floors[i]) && DeferrableCutoffFor(floors[i].metric).Some?
                  && HasExcusedMiss(report, floors[i], context)
  {
    if PassesClassify(report, floors, context) && !PassesCheck(report, floors) {
      var i :| 0 <= i < |floors| && !IsMet(report, floors[i]);
      assert !StatusOf(report, floors[i], context).Missed?;
      assert IsDeferred(report, floors[i], context);
      ADeferralNamesItsProbes(report, floors[i], context);
    }
  }

  // -------------------------------------------------------------------------
  // Refusals that reports over accepted corpora never reach.
  // -------------------------------------------------------------------------

  /** A report of `runEval` over a corpus the loader accepted. */
  ghost predicate IsGenuine(d: nat -> real, input: CorpusInput, c: Corpus, rank: Ranker, scores: seq<Scored>,
      report: EvalReport)
    requires IsDiscount(d)
  {
    && IsAcceptable(input) && IsBuiltFrom(c, input) && AreRecords(c.queries)
    && AreScores(d, c, c.queries, rank, scores) && IsReport(c, rank, scores, report)
  }

  lemma {:induction false} GroupsWithAChunk(c: Corpus, groups: seq<GroupId>, group: GroupId, id: ChunkId)
    requires group in groups && id in c.chunkIds && c.GroupOf(id) == Some(group)
    ensures id in ChunksOfGroups(c, groups)
  {
    var last := |groups| - 1;
    if groups[last] == group {
      KeepKeeps(c.chunkIds, IsInGroup(c, group), id);
    } else {
      assert groups == groups[..last] + [groups[last]];
      GroupsWithAChunk(c, groups[..last], group, id);
    }
  }

  lemma RequiredGroupsHaveChunks(input: CorpusInput, c: Corpus, q: Query, group: GroupId)
    requires IsBuiltFrom(c, input) && IsAnswerable(q, c.chunks) && q.family.Dilution? && group in Required(q)
    ensures exists id :: id in c.chunkIds && c.GroupOf(id) == Some(group)
  {
    var i :| 0 <= i < |q.requiredGroups.value| && q.requiredGroups.value[i] == group;
    assert IsReachable(q, c.chunks, group);
    var id :| IsMember(c.chunks, group, id) && IsVisible(c.chunks, q.grant, id) && IsGraded(q, id);
    IdsNameTheChunks(input.pages, id);
  }

  /** A zero dilution score comes with chunks to judge. */
  lemma AMissedGroupHasChunks(d: nat -> real, input: CorpusInput, c: Corpus, q: Query, ranked: seq<ChunkId>, s: Scored)
    requires IsDiscount(d) && IsBuiltFrom(c, input) && IsAnswerable(q, c.chunks)
    requires CanScore(c, q, ranked) && IsScore(d, c, q, ranked, s) && s.dilutionHit3 == Some(0.0)
    ensures ChunksOfGroups(c, s.missedGroups) != []
  {
    assert q.family.Dilution? && Required(q) != [];
    DilutionScoreNamesItsMisses(d, c, q, ranked, s);
    var group := s.missedGroups[0];
    assert group in s.missedGroups;
    RequiredGroupsHaveChunks(input, c, q, group);
    var id :| id in c.chunkIds && c.GroupOf(id) == Some(group);
    GroupsWithAChunk(c, s.missedGroups, group, id);
  }

  /** A probe of a genuine report: some query of the corpus, and its score. */
  ghost predicate IsProbe(d: nat -> real, input: CorpusInput, c: Corpus, ranked: seq<ChunkId>, q: Query, s: Scored)
    requires IsDiscount(d)
  {
    && IsBuiltFrom(c, input) && IsAnswerable(q, c.chunks) && q.id in c.queriesById && c.queriesById[q.id] == q
    && CanScore(c, q, ranked) && IsScore(d, c, q, ranked, s)
  }

  lemma GenuineProbes(d: nat -> real, input: CorpusInput, c: Corpus, rank: Ranker, scores: seq<Scored>,
                      report: EvalReport, i: nat)
    requires IsDiscount(d) && IsGenuine(d, input, c, rank, scores, report) && i < |report.perQuery|
    ensures i < |c.queries| == |scores| && report.perQuery[i] == OutcomeOf(c.queries[i], scores[i])
    ensures IsProbe(d, input, c, rank(c.queries[i]), c.queries[i], scores[i])
  {
    assert IsIndexed(c.queries[i], c.queriesById, c.gold);
    assert IsAnswerable(c.queries[i], c.chunks);
  }

  /**
   * In a genuine report every probe is a known query, and a zero dilution score
   * comes with chunks to judge: two refusals of `classifyFloor` never fire.
   */
  lemma GenuineProbesCanBeJudged(d: nat -> real, input: CorpusInput, c: Corpus, rank: Ranker, scores: seq<Scored>,
                                 report: EvalReport, i: nat)
    requires IsDiscount(d) && IsGenuine(d, input, c, rank, scores, report) && i < |report.perQuery|
    ensures report.perQuery[i].query in c.queriesById
    ensures report.perQuery[i].dilutionHit3 == Some(0.0) ==> ChunksOfGroups(c, report.perQuery[i].missedGroups) != []
  {
    GenuineProbes(d, input, c, rank, scores, report, i);
    if scores[i].dilutionHit3 == Some(0.0) {
      AMissedGroupHasChunks(d, input, c, c.queries[i], rank(c.queries[i]), scores[i]);
    }
  }

  lemma {:induction false} SelectedComeFromQueries(queries: seq<Query>, scores: seq<Scored>, p: Query -> bool,
      s: Scored)
    returns (i: nat)
    requires |queries| == |scores| && s in Select(queries, scores, p)
    ensures i < |queries| && p(queries[i]) && scores[i] == s
  {
    var last := |queries| - 1;
    if s in Select(queries[..last], scores[..last], p) {
      i := SelectedComeFromQueries(queries[..last], scores[..last], p, s);
    } else {
      i := last;
    }
  }

  lemma {:induction false} DefinedOnes(values: seq<Option<real>>)
    requires forall i :: 0 <= i < |values| ==> values[i] == None || values[i] == Some(1.0)
    ensures forall i :: 0 <= i < |Defined(values)| ==> Defined(values)[i] == 1.0
  {
    if values != [] {
      DefinedOnes(values[..|values| - 1]);
    }
  }

  /** All the scores of a floor's scope pass, so its mean is 1 or not a number. */
  lemma PerfectScoresAreNotBelow(report: EvalReport, floor: RankingFloor, selected: seq<Scored>)
    requires floor.minimum <= 1.0 && !floor.metric.NdcgOf10?
    requires IsBucketOf(report, floor.scope, selected)
    requires forall i :: 0 <= i < |selected| ==> Passes(floor.metric, selected[i])
    ensures !IsBelow(report, floor)
  {
    match floor.metric
    case HitOf1 => MeanOfOnes(Each(selected, HIT1));
    case HitOf3 => MeanOfOnes(Each(selected, HIT3));
    case DilutionHitOf3 =>
      DefinedOnes(Each(selected, DILUTION3));
      MeanOfOnes(Defined(Each(selected, DILUTION3)));
    case NdcgOf10 =>
  }

  predicate IsBucketOf(report: EvalReport, scope: Scope, selected: seq<Scored>) {
    match scope
    case Aggregate => report.aggregate == BucketOf(selected)
    case OneType(t) => t in report.byType && report.byType[t] == BucketOf(selected)
    case OneFamily(f) => f in report.byFamily && report.byFamily[f] == FamilyBucketOf(selected)
  }

  predicate Passes(metric: MetricId, s: Scored) {
    match metric
    case HitOf1 => s.hit1 == 1.0
    case HitOf3 => s.hit3 == 1.0
    case DilutionHitOf3 => s.dilutionHit3 == None || s.dilutionHit3 == Some(1.0)
    case NdcgOf10 => true
  }

  /** Scores on the hit-type metrics are all or nothing. */
  lemma HitsAreAllOrNothing(d: nat -> real, c: Corpus, q: Query, ranked: seq<ChunkId>, s: Scored, metric: MetricId)
    requires IsDiscount(d) && CanScore(c, q, ranked) && IsScore(d, c, q, ranked, s)
    requires metric != NdcgOf10
    ensures Passes(metric, s) <==> !IsResponsible(metric, OutcomeOf(q, s))
  {
  }

  function SelectFor(queries: seq<Query>, scores: seq<Scored>, scope: Scope): seq<Scored>
    requires |queries| == |scores|
  {
    match scope
    case Aggregate => scores
    case OneType(t) => Select(queries, scores, OfType(t))
    case OneFamily(f) => Select(queries, scores, OfFamily(f))
  }

  lemma SelectedAreInScope(queries: seq<Query>, scores: seq<Scored>, scope: Scope, n: nat) returns (i: nat)
    requires |queries| == |scores| && n < |SelectFor(queries, scores, scope)|
    ensures i < |queries| && InScope(scope)(OutcomeOf(queries[i], scores[i]))
    ensures scores[i] == SelectFor(queries, scores, scope)[n]
  {
    var s := SelectFor(queries, scores, scope)[n];
    match scope
    case Aggregate => i := n;
    case OneType(t) => i := SelectedComeFromQueries(queries, scores, OfType(t), s);
    case OneFamily(f) => i := SelectedComeFromQueries(queries, scores, OfFamily(f), s);
  }

  lemma BlamedProbe(report: EvalReport, floor: RankingFloor, i: nat)
    requires i < |report.perQuery| && InScope(floor.scope)(report.perQuery[i])
    requires IsResponsible(floor.metric, report.perQuery[i])
    ensures ResponsibleIds(floor.metric, ProbesFor(report, floor)) != []
  {
    KeepKeeps(report.perQuery, InScope(floor.scope), report.perQuery[i]);
    var m :| 0 <= m < |ProbesFor(report, floor)| && ProbesFor(report, floor)[m] == report.perQuery[i];
    SomeoneIsResponsible(floor.metric, ProbesFor(report, floor));
  }

  lemma AFailingScore(report: EvalReport, floor: RankingFloor, selected: seq<Scored>) returns (n: nat)
    requires floor.minimum <= 1.0 && floor.metric != NdcgOf10 && IsBelow(report, floor)
    requires IsBucketOf(report, floor.scope, selected)
    ensures n < |selected| && !Passes(floor.metric, selected[n])
  {
    if forall n :: 0 <= n < |selected| ==> Passes(floor.metric, selected[n]) {
      PerfectScoresAreNotBelow(report, floor, selected);
    }
    n :| 0 <= n < |selected| && !Passes(floor.metric, selected[n]);
  }

  lemma ReportsCarryBuckets(c: Corpus, rank: Ranker, scores: seq<Scored>, report: EvalReport, scope: Scope)
    requires |scores| == |c.queries| && IsReport(c, rank, scores, report)
    ensures IsBucketOf(report, scope, SelectFor(c.queries, scores, scope))
  {
  }

  lemma ProbeOfAScore(d: nat -> real, input: CorpusInput, ranked: seq<ChunkId>, c: Corpus, i: nat, s: Scored,
                      report: EvalReport, floor: RankingFloor)
    requires IsDiscount(d) && i < |report.perQuery| && i < |c.queries|
    requires report.perQuery[i] == OutcomeOf(c.queries[i], s) && IsProbe(d, input, c, ranked, c.queries[i], s)
    requires InScope(floor.scope)(report.perQuery[i]) && floor.metric != NdcgOf10 && !Passes(floor.metric, s)
    ensures ResponsibleIds(floor.metric, ProbesFor(report, floor)) != []
  {
    HitsAreAllOrNothing(d, c, c.queries[i], ranked, s, floor.metric);
    BlamedProbe(report, floor, i);
  }

  lemma AFailingQuery(c: Corpus, rank: Ranker, scores: seq<Scored>, report: EvalReport, floor: RankingFloor)
      returns (i: nat)
    requires |scores| == |c.queries| && IsReport(c, rank, scores, report)
    requires floor.minimum <= 1.0 && floor.metric != NdcgOf10 && IsBelow(report, floor)
    ensures i < |c.queries| && InScope(floor.scope)(OutcomeOf(c.queries[i], scores[i]))
      && !Passes(floor.metric, scores[i])
  {
    ReportsCarryBuckets(c, rank, scores, report, floor.scope);
    var n := AFailingScore(report, floor, SelectFor(c.queries, scores, floor.scope));
    i := SelectedAreInScope(c.queries, scores, floor.scope, n);
  }

  lemma GenuineReportsAreComplete(d: nat -> real, input: CorpusInput, c: Corpus, rank: Ranker, scores: seq<Scored>,
                                  report: EvalReport)
    requires IsDiscount(d) && IsGenuine(d, input, c, rank, scores, report)
    ensures |scores| == |c.queries| == |report.perQuery| && IsReport(c, rank, scores, report)
  {
  }

  /** A hit-type floor below a bar of at most 1 always has a probe to blame. */
  lemma ALowFloorHasAProbeToBlame(d: nat -> real, input: CorpusInput, c: Corpus, rank: Ranker, scores: seq<Scored>,
                                  report: EvalReport, floor: RankingFloor)
    requires IsDiscount(d) && IsGenuine(d, input, c, rank, scores, report)
    requires floor.minimum <= 1.0 && floor.metric != NdcgOf10 && IsBelow(report, floor)
    ensures ResponsibleIds(floor.metric, ProbesFor(report, floor)) != []
  {
    GenuineReportsAreComplete(d, input, c, rank, scores, report);
    var i := AFailingQuery(c, rank, scores, report, floor);
    GenuineProbes(d, input, c, rank, scores, report, i);
    ProbeOfAScore(d, input, rank(c.queries[i]), c, i, scores[i], report, floor);
  }

  /** The ranks that count: one for Hit@1, three for the other two. */
  function RanksFor(metric: MetricId): int {
    if metric.HitOf1? then 1 else 3
  }

  /** A chunk the probe needed: an answer, or, on dilution, one of a group it missed. */
  predicate IsNeeded(c: Corpus, metric: MetricId, q: Query, o: QueryOutcome, id: ChunkId) {
    if metric.DilutionHitOf3? then id in c.chunkIds && IsInOneOf(c, id, o.missedGroups) else id in q.answers
  }

  /** None of the chunks a probe needed is within a key's reach. */
  ghost predicate IsOutOfReach(context: DeferralContext, metric: MetricId, o: QueryOutcome) {
    var c := context.corpus;
    && o.query in c.queriesById
    && var q := c.queriesById[o.query];
      forall id :: IsNeeded(c, metric, q, o, id) && id in c.chunks ==>
        !IsIsolable(c, context.knowledge, q, id, RanksFor(metric))
  }

  predicate IsInOneOf(c: Corpus, id: ChunkId, groups: seq<GroupId>) {
    exists g :: 0 <= g < |groups| && c.GroupOf(id) == Some(groups[g])
  }

  lemma InOneGroupMore(c: Corpus, id: ChunkId, groups: seq<GroupId>)
    requires groups != []
    ensures IsInOneOf(c, id, groups) <==>
      IsInOneOf(c, id, groups[..|groups| - 1]) || c.GroupOf(id) == Some(groups[|groups| - 1])
  {
    var before := groups[..|groups| - 1];
    if IsInOneOf(c, id, before) {
      var g :| 0 <= g < |before| && c.GroupOf(id) == Some(before[g]);
      assert c.GroupOf(id) == Some(groups[g]);
    }
    if IsInOneOf(c, id, groups) {
      var g :| 0 <= g < |groups| && c.GroupOf(id) == Some(groups[g]);
      assert g < |before| ==> c.GroupOf(id) == Some(before[g]);
    }
  }

  lemma {:induction false} ChunksOfGroupsAre(c: Corpus, groups: seq<GroupId>, id: ChunkId)
    ensures id in ChunksOfGroups(c, groups) <==> id in c.chunkIds && IsInOneOf(c, id, groups)
  {
    if groups != [] {
      var last := groups[|groups| - 1];
      ChunksOfGroupsAre(c, groups[..|groups| - 1], id);
      InOneGroupMore(c, id, groups);
      if id in c.chunkIds && c.GroupOf(id) == Some(last) {
        KeepKeeps(c.chunkIds, IsInGroup(c, last), id);
      }
    }
  }

  lemma RequiredAreNeeded(c: Corpus, metric: MetricId, q: Query, o: QueryOutcome, id: ChunkId)
    ensures id in RequiredChunks(c, metric, q, o) <==> IsNeeded(c, metric, q, o, id)
  {
    ChunksOfGroupsAre(c, o.missedGroups, id);
  }

  lemma ResponsibleScoredNothing(metric: MetricId, o: QueryOutcome)
    requires metric != NdcgOf10
    ensures IsResponsible(metric, o) <==> ValueOn(metric, o) == Some(0.0)
    ensures DeferrableCutoffFor(metric) == Some(RanksFor(metric))
  {
  }

  lemma AnswersCanBeJudged(c: Corpus, q: Query, cutoff: int)
    requires IsAnswerable(q, c.chunks) && cutoff >= 1
    ensures CanJudge(c, q, q.answers, cutoff)
  {
  }

  lemma GroupsCanBeJudged(c: Corpus, q: Query, groups: seq<GroupId>, cutoff: int)
    requires IsAnswerable(q, c.chunks) && cutoff >= 1 && ChunksOfGroups(c, groups) != []
    ensures CanJudge(c, q, ChunksOfGroups(c, groups), cutoff)
  {
    var required := ChunksOfGroups(c, groups);
    GroupChunksAreChunks(c, groups);
    assert forall i :: 0 <= i < |required| ==> required[i] in required;
  }

  lemma ProbesCanBeJudged(d: nat -> real, input: CorpusInput, c: Corpus, ranked: seq<ChunkId>, q: Query, s: Scored,
                          metric: MetricId)
    requires IsDiscount(d) && IsProbe(d, input, c, ranked, q, s) && metric != NdcgOf10
    requires IsResponsible(metric, OutcomeOf(q, s))
    ensures CanJudge(c, q, RequiredChunks(c, metric, q, OutcomeOf(q, s)), DeferrableCutoffFor(metric).value)
  {
    if metric.DilutionHitOf3? {
      AMissedGroupHasChunks(d, input, c, q, ranked, s);
      GroupsCanBeJudged(c, q, s.missedGroups, DeferrableCutoffFor(metric).value);
    } else {
      AnswersCanBeJudged(c, q, DeferrableCutoffFor(metric).value);
    }
  }

  lemma NoneByElement<T(!new)>(s: seq<T>, p: T -> bool)
    ensures NoneOf(s, p) <==> forall x :: x in s ==> !p(x)
  {
    if forall x :: x in s ==> !p(x) {
      assert forall i :: 0 <= i < |s| ==> s[i] in s;
    }
  }

  lemma JudgingAProbe(d: nat -> real, input: CorpusInput, ranked: seq<ChunkId>, q: Query, s: Scored,
                      metric: MetricId, context: DeferralContext)
    requires IsDiscount(d) && IsProbe(d, input, context.corpus, ranked, q, s) && metric != NdcgOf10
    ensures IsExcused(context, metric, OutcomeOf(q, s)) <==>
      (IsResponsible(metric, OutcomeOf(q, s)) ==> IsOutOfReach(context, metric, OutcomeOf(q, s)))
  {
    var c := context.corpus;
    var o := OutcomeOf(q, s);
    if IsResponsible(metric, o) {
      ProbesCanBeJudged(d, input, c, ranked, q, s, metric);
      ResponsibleScoredNothing(metric, o);
      NoneByElement(RequiredChunks(c, metric, q, o), Isolable(c, context.knowledge, q, RanksFor(metric)));
      forall id ensures id in RequiredChunks(c, metric, q, o) <==> IsNeeded(c, metric, q, o, id) {
        RequiredAreNeeded(c, metric, q, o, id);
      }
    }
  }

  /** Every probe of the scope that scored nothing is out of reach. */
  ghost predicate AreOutOfReach(context: DeferralContext, metric: MetricId, scope: Scope, probes: seq<QueryOutcome>) {
    forall i :: 0 <= i < |probes| && IsProbeOf(scope, probes[i]) && ValueOn(metric, probes[i]) == Some(0.0) ==>
      IsOutOfReach(context, metric, probes[i])
  }

  lemma ProbesAreOfTheReport(report: EvalReport, floor: RankingFloor, o: QueryOutcome)
    ensures o in ProbesFor(report, floor) <==> o in report.perQuery && IsProbeOf(floor.scope, o)
  {
    if o in report.perQuery && IsProbeOf(floor.scope, o) {
      KeepKeeps(report.perQuery, InScope(floor.scope), o);
    }
  }

  predicate ExcusedWhere(context: DeferralContext, metric: MetricId, scope: Scope, outcomes: seq<QueryOutcome>) {
    forall i :: 0 <= i < |outcomes| && IsProbeOf(scope, outcomes[i]) ==> IsExcused(context, metric, outcomes[i])
  }

  lemma ExcusedInScope(report: EvalReport, floor: RankingFloor, context: DeferralContext)
    ensures AreExcused(context, floor.metric, ProbesFor(report, floor)) <==>
      ExcusedWhere(context, floor.metric, floor.scope, report.perQuery)
  {
    var probes := ProbesFor(report, floor);
    if AreExcused(context, floor.metric, probes) {
      forall i | 0 <= i < |report.perQuery| && IsProbeOf(floor.scope, report.perQuery[i])
        ensures IsExcused(context, floor.metric, report.perQuery[i]) {
        ProbesAreOfTheReport(report, floor, report.perQuery[i]);
        var m :| 0 <= m < |probes| && probes[m] == report.perQuery[i];
      }
    }
    if ExcusedWhere(context, floor.metric, floor.scope, report.perQuery) {
      forall m | 0 <= m < |probes| ensures IsExcused(context, floor.metric, probes[m]) {
        ProbesAreOfTheReport(report, floor, probes[m]);
        var i :| 0 <= i < |report.perQuery| && report.perQuery[i] == probes[m];
      }
    }
  }

  ghost predicate IsExcusedIff(context: DeferralContext, metric: MetricId, o: QueryOutcome) {
    IsExcused(context, metric, o) <==> (ValueOn(metric, o) == Some(0.0) ==> IsOutOfReach(context, metric, o))
  }

  lemma ExcusedTogether(report: EvalReport, floor: RankingFloor, context: DeferralContext)
    requires forall i :: 0 <= i < |report.perQuery| ==> IsExcusedIff(context, floor.metric, report.perQuery[i])
    ensures AreExcused(context, floor.metric, ProbesFor(report, floor)) <==>
      AreOutOfReach(context, floor.metric, floor.scope, report.perQuery)
  {
    ExcusedInScope(report, floor, context);
    assert forall i :: 0 <= i < |report.perQuery| ==> IsExcusedIff(context, floor.metric, report.perQuery[i]);
  }

  lemma ProbeIsExcusedIff(d: nat -> real, input: CorpusInput, rank: Ranker, scores: seq<Scored>,
                          report: EvalReport, metric: MetricId, context: DeferralContext, i: nat)
    requires IsDiscount(d) && IsGenuine(d, input, context.corpus, rank, scores, report) && metric != NdcgOf10
    requires i < |report.perQuery|
    ensures IsExcusedIff(context, metric, report.perQuery[i])
  {
    var c := context.corpus;
    GenuineProbes(d, input, c, rank, scores, report, i);
    JudgingAProbe(d, input, rank(c.queries[i]), c.queries[i], scores[i], metric, context);
    ResponsibleScoredNothing(metric, report.perQuery[i]);
  }

  lemma ProbesAreExcusedIff(d: nat -> real, input: CorpusInput, rank: Ranker, scores: seq<Scored>,
                            report: EvalReport, floor: RankingFloor, context: DeferralContext)
    requires IsDiscount(d) && IsGenuine(d, input, context.corpus, rank, scores, report) && floor.metric != NdcgOf10
    ensures AreExcused(context, floor.metric, ProbesFor(report, floor)) <==>
      AreOutOfReach(context, floor.metric, floor.scope, report.perQuery)
  {
    forall i | 0 <= i < |report.perQuery| ensures IsExcusedIff(context, floor.metric, report.perQuery[i]) {
      ProbeIsExcusedIff(d, input, rank, scores, report, floor.metric, context, i);
    }
    ExcusedTogether(report, floor, context);
  }

  lemma DeferringABlamedFloor(report: EvalReport, floor: RankingFloor, context: DeferralContext)
    requires floor.metric != NdcgOf10 && ResponsibleIds(floor.metric, ProbesFor(report, floor)) != []
    ensures IsDeferred(report, floor, context) <==>
      && IsBelow(report, floor) && context.providerVectors == 0
      && AreExcused(context, floor.metric, ProbesFor(report, floor))
  {
  }

  /**
   * For a genuine report and a bar of at most 1, a floor is deferred exactly
   * when it is below the bar, the vectors are all synthetic, the metric has a
   * rank, and every missed probe is beyond the reach of a key.
   */
  lemma WhatADeferralTakes(d: nat -> real, input: CorpusInput, rank: Ranker, scores: seq<Scored>,
                           report: EvalReport, floor: RankingFloor, context: DeferralContext)
    requires IsDiscount(d) && IsGenuine(d, input, context.corpus, rank, scores, report) && floor.minimum <= 1.0
    ensures IsDeferred(report, floor, context) <==>
      && IsBelow(report, floor) && context.providerVectors == 0 && floor.metric != NdcgOf10
      && AreOutOfReach(context, floor.metric, floor.scope, report.perQuery)
  {
    if floor.metric != NdcgOf10 && IsBelow(report, floor) {
      ALowFloorHasAProbeToBlame(d, input, context.corpus, rank, scores, report, floor);
      ProbesAreExcusedIff(d, input, rank, scores, report, floor, context);
      DeferringABlamedFloor(report, floor, context);
    }
  }
}
