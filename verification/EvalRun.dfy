/**
 * One run of a ranker over the fixture queries (`evals/run.ts`): scoring a
 * query, and the means by question type and by query family.
 */
module EvalRun {
  import opened Prelude
  import opened Metrics
  import opened Corpora

  datatype ViolationKind = Fence | Visibility | UnknownChunk

  datatype Violation = Violation(query: QueryId, kind: ViolationKind, chunk: ChunkId)

  /** A score; `dilutionHit3` is defined for the dilution family only. */
  datatype Scored = Scored(
    ndcg10: real,
    hit1: real,
    hit3: real,
    dilutionHit3: Option<real>,
    duplicateOccupancy3: real,
    missedGroups: seq<GroupId>)

  datatype RunError = TooManyResults(query: QueryId) | NoGoldKey(query: QueryId) | Unscored(fault: MetricError)

  /** A mean; that of nothing is not a number. */
  datatype Measured = NotANumber | Finite(value: real)

  datatype Bucket = Bucket(count: nat, ndcg10: Measured, hit1: Measured, hit3: Measured)

  datatype FamilyBucket = FamilyBucket(bucket: Bucket, dilutionHit3: Measured, duplicateOccupancy3: Measured)

  datatype QueryOutcome = QueryOutcome(
    query: QueryId,
    family: QueryFamily,
    questionType: QuestionType,
    ndcg10: real,
    hit1: real,
    hit3: real,
    dilutionHit3: Option<real>,
    missedGroups: seq<GroupId>)

  datatype EvalReport = EvalReport(
    queryCount: nat,
    aggregate: Bucket,
    byType: map<QuestionType, Bucket>,
    byFamily: map<QueryFamily, FamilyBucket>,
    violations: seq<Violation>,
    perQuery: seq<QueryOutcome>)

  type Ranker = Query -> seq<ChunkId>

  const QUESTION_TYPES: seq<QuestionType> := [Relational, NamedEntity, Temporal, ContextFenced]

  const QUERY_FAMILIES: seq<QueryFamily> := [TitleSubstring, Alias, Dilution, General]

  // -------------------------------------------------------------------------
  // One query.
  // -------------------------------------------------------------------------

  /** What is wrong with returning a chunk, if anything. */
  function LeakOf(c: Corpus, q: Query, id: ChunkId): (kind: Option<ViolationKind>)
    ensures kind.None? <==> IsVisible(c.chunks, q.grant, id)
  {
    if id !in c.chunks then Some(UnknownChunk)
    else if !c.chunks[id].live then Some(Visibility)
    else if c.chunks[id].origin !in q.grant then Some(Fence)
    else None
  }

  function LeaksOf(c: Corpus, q: Query, ranked: seq<ChunkId>): seq<Violation> {
    if ranked == [] then []
    else
      var id := ranked[|ranked| - 1];
      var leak := LeakOf(c, q, id);
      LeaksOf(c, q, ranked[..|ranked| - 1]) + if leak.Some? then [Violation(q.id, leak.value, id)] else []
  }

  predicate Leaks(c: Corpus, q: Query, ranked: seq<ChunkId>) {
    exists i :: 0 <= i < |ranked| && !IsVisible(c.chunks, q.grant, ranked[i])
  }

  lemma {:induction false} LeaksAreReported(c: Corpus, q: Query, ranked: seq<ChunkId>)
    ensures LeaksOf(c, q, ranked) == [] <==> !Leaks(c, q, ranked)
  {
    if ranked != [] {
      var before := ranked[..|ranked| - 1];
      LeaksAreReported(c, q, before);
      assert forall i :: 0 <= i < |before| ==> before[i] == ranked[i];
      assert Leaks(c, q, ranked) <==> Leaks(c, q, before) || !IsVisible(c.chunks, q.grant, ranked[|ranked| - 1]);
    }
  }

  function Required(q: Query): seq<GroupId> {
    if q.requiredGroups.Some? then q.requiredGroups.value else []
  }

  /** Scoring succeeds exactly when no guard of the metrics trips. */
  predicate CanScore(c: Corpus, q: Query, ranked: seq<ChunkId>) {
    && |ranked| <= 50 && NoRepeats(ranked) && q.id in c.gold
    && (Leaks(c, q, ranked)
        || (HasGrades(c.gold[q.id]) && q.answers != [] && (q.family.Dilution? ==> Required(q) != [])))
  }

  function Bit(b: bool): real {
    if b then 1.0 else 0.0
  }

  /** The share of the first three slots spent on repeats of a group. */
  ghost predicate IsOccupancy(c: Corpus, ranked: seq<ChunkId>, share: real) {
    if ranked == [] then share == 0.0
    else
      var filled := Min(3, |ranked|);
      share == (GroupedSlots(ranked, c.GroupOf, filled) - |GroupsSeen(ranked, c.GroupOf,
        filled)|) as real / filled as real
  }

  /** What the score of a query says. */
  ghost predicate IsScore(d: nat -> real, c: Corpus, q: Query, ranked: seq<ChunkId>, s: Scored)
    requires IsDiscount(d) && CanScore(c, q, ranked)
  {
    var leaked := Leaks(c, q, ranked);
    && (leaked ==> s.ndcg10 == 0.0 && s.hit1 == 0.0 && s.hit3 == 0.0)
    && (!leaked ==>
          && s.ndcg10 == Ndcg(d, ranked, c.gold[q.id], 10)
          && s.hit1 == Bit(IsHit(ranked, q.answers, 1))
          && s.hit3 == Bit(IsHit(ranked, q.answers, 3)))
    && IsOccupancy(c, ranked, s.duplicateOccupancy3)
    && (if q.family.Dilution? then
          && s.dilutionHit3 == Some(Bit(!leaked && ReachesAll(ranked, Required(q), c.GroupOf, 3)))
          && IsMissed(c, q, ranked, leaked, s.missedGroups)
        else s.dilutionHit3 == None && s.missedGroups == [])
  }

  /** The required groups without a place in the top three, in order; after a leak, all of them. */
  predicate IsMissed(c: Corpus, q: Query, ranked: seq<ChunkId>, leaked: bool, missed: seq<GroupId>) {
    missed == Keep(Required(q), group => leaked || !Reaches(ranked, c.GroupOf, group, 3))
  }

  method FindLeaks(q: Query, ranked: seq<ChunkId>, c: Corpus, violations: seq<Violation>)
    returns (leaked: bool, violations': seq<Violation>)
    ensures leaked <==> Leaks(c, q, ranked)
    ensures violations' == violations + LeaksOf(c, q, ranked)
  {
    leaked, violations' := false, violations;
    for i := 0 to |ranked|
      invariant leaked <==> LeaksOf(c, q, ranked[..i]) != []
      invariant violations' == violations + LeaksOf(c, q, ranked[..i])
    {
      var id := ranked[i];
      assert ranked[..i + 1][..i] == ranked[..i];
      if id !in c.chunks {
        violations' := violations' + [Violation(q.id, UnknownChunk, id)];
        leaked := true;
        continue;
      }
      if !c.chunks[id].live {
        violations' := violations' + [Violation(q.id, Visibility, id)];
        leaked := true;
      } else if c.chunks[id].origin !in q.grant {
        violations' := violations' + [Violation(q.id, Fence, id)];
        leaked := true;
      }
    }
    assert ranked[..|ranked|] == ranked;
    LeaksAreReported(c, q, ranked);
  }

  method OccupancyOf(ranked: seq<ChunkId>, c: Corpus) returns (r: Result<real, MetricError>)
    ensures r.Ok? <==> NoRepeats(ranked)
    ensures r.Ok? ==> IsOccupancy(c, ranked, r.value)
  {
    if |ranked| == 0 {
      return Ok(0.0);
    }
    r := DuplicateOccupancyAt(ranked, c.GroupOf, 3);
  }

  /** `scoreQuery`: an answer, and every leak on the way to it. */
  method ScoreQuery(d: nat -> real, q: Query, ranked: seq<ChunkId>, c: Corpus, violations: seq<Violation>)
    returns (r: Result<Scored, RunError>, violations': seq<Violation>)
    requires IsDiscount(d) && (q.id in c.gold ==> IsGoldKey(c.gold[q.id]))
    ensures r.Ok? <==> CanScore(c, q, ranked)
    ensures r.Ok? ==> IsScore(d, c, q, ranked, r.value)
    ensures r.Ok? ==> violations' == violations + LeaksOf(c, q, ranked)
  {
    if |ranked| > RESULT_LIMIT {
      return Err(TooManyResults(q.id)), violations;
    }
    var leaked;
    leaked, violations' := FindLeaks(q, ranked, c, violations);
    var relevance := c.RelevanceFor(q.id);
    if relevance.None? {
      return Err(NoGoldKey(q.id)), violations';
    }
    var missed := if q.family.Dilution?
      then Keep(Required(q), group => leaked || !Reaches(ranked, c.GroupOf, group, 3))
      else [];
    if leaked {
      var occupancy := OccupancyOf(ranked, c);
      if occupancy.Err? {
        return Err(Unscored(occupancy.error)), violations';
      }
      var zero := if q.family.Dilution? then Some(0.0) else None;
      return Ok(Scored(0.0, 0.0, 0.0, zero, occupancy.value, missed)), violations';
    }
    var dilution := None;
    if q.family.Dilution? {
      var reached := DilutionHitAt(ranked, Required(q), c.GroupOf, 3);
      if reached.Err? {
        return Err(Unscored(reached.error)), violations';
      }
      dilution := Some(reached.value as real);
    }
    var ndcg10 := NdcgAt(d, ranked, relevance.value, NDCG_CUTOFF);
    if ndcg10.Err? {
      return Err(Unscored(ndcg10.error)), violations';
    }
    var hit1 := HitAt(ranked, q.answers, 1);
    if hit1.Err? {
      return Err(Unscored(hit1.error)), violations';
    }
    var hit3 := HitAt(ranked, q.answers, 3);
    var occupancy := OccupancyOf(ranked, c);
    r := Ok(Scored(ndcg10.value, hit1.value as real, hit3.value as real, dilution, occupancy.value, missed));
  }

  lemma {:induction false} KeptNothing<T>(s: seq<T>, p: T -> bool)
    ensures Keep(s, p) == [] <==> forall i :: 0 <= i < |s| ==> !p(s[i])
  {
    if s != [] {
      KeptNothing(s[..|s| - 1], p);
    }
  }

  /** The all-or-nothing dilution score says exactly that no required group was missed. */
  lemma DilutionScoreNamesItsMisses(d: nat -> real, c: Corpus, q: Query, ranked: seq<ChunkId>, s: Scored)
    requires IsDiscount(d) && CanScore(c, q, ranked) && IsScore(d, c, q, ranked, s)
    requires q.family.Dilution? && Required(q) != []
    ensures s.dilutionHit3 == Some(1.0) <==> s.missedGroups == []
    ensures s.dilutionHit3 == Some(0.0) <==> s.missedGroups != []
    ensures forall group :: group in s.missedGroups ==> group in Required(q)
  {
    var leaked := Leaks(c, q, ranked);
    KeptNothing(Required(q), group => leaked || !Reaches(ranked, c.GroupOf, group, 3));
  }

  /** Scores stay in range, and a leaking answer earns nothing. */
  lemma ScoresAreInRange(d: nat -> real, c: Corpus, q: Query, ranked: seq<ChunkId>, s: Scored)
    requires IsDiscount(d) && CanScore(c, q, ranked) && IsScore(d, c, q, ranked, s)
    requires IsGoldKey(c.gold[q.id])
    ensures 0.0 <= s.ndcg10 <= 1.0
    ensures s.hit1 <= s.hit3
    ensures Leaks(c, q, ranked) ==> s.ndcg10 + s.hit1 + s.hit3 == 0.0
  {
    if !Leaks(c, q, ranked) {
      NdcgIsAtMostOne(d, ranked, c.gold[q.id], NDCG_CUTOFF);
      if IsHit(ranked, q.answers, 1) {
        assert ranked[0] in q.answers;
      }
    }
  }

  /** Over a corpus the loader accepted, only the ranker can make scoring fail. */
  lemma AcceptedQueriesAreScored(input: CorpusInput, c: Corpus, i: nat, ranked: seq<ChunkId>)
    requires IsAcceptable(input) && IsBuiltFrom(c, input) && i < |c.queries| && IsRecord(c.queries[i].supporting)
    ensures var q := c.queries[i];
      && q.id in c.gold && IsGoldKey(c.gold[q.id])
      && (CanScore(c, q, ranked) <==> |ranked| <= 50 && NoRepeats(ranked))
      && (q.family.Dilution? ==> Required(q) != [])
  {
    assert IsIndexed(c.queries[i], c.queriesById, c.gold);
    assert IsAnswerable(c.queries[i], c.chunks);
    GoldKeysAreSound(c.queries[i], c.chunks);
  }

  // -------------------------------------------------------------------------
  // Means.
  // -------------------------------------------------------------------------

  function Total(values: seq<real>): real {
    if values == [] then 0.0 else Total(values[..|values| - 1]) + values[|values| - 1]
  }

  function MeanOf(values: seq<real>): Measured {
    if values == [] then NotANumber else Finite(Total(values) / |values| as real)
  }

  method Mean(values: seq<real>) returns (m: Measured)
    ensures m == MeanOf(values)
  {
    if |values| == 0 {
      return NotANumber;
    }
    var total := 0.0;
    for i := 0 to |values|
      invariant total == Total(values[..i])
    {
      total := total + values[i];
      assert values[..i + 1][..i] == values[..i];
    }
    assert values[..|values|] == values;
    m := Finite(total / |values| as real);
  }

  const NDCG10: Scored -> real := (s: Scored) => s.ndcg10
  const HIT1: Scored -> real := (s: Scored) => s.hit1
  const HIT3: Scored -> real := (s: Scored) => s.hit3
  const OCCUPANCY3: Scored -> real := (s: Scored) => s.duplicateOccupancy3
  const DILUTION3: Scored -> Option<real> := (s: Scored) => s.dilutionHit3

  function BucketOf(scores: seq<Scored>): Bucket {
    Bucket(|scores|, MeanOf(Each(scores, NDCG10)), MeanOf(Each(scores, HIT1)), MeanOf(Each(scores, HIT3)))
  }

  function Defined(values: seq<Option<real>>): seq<real> {
    if values == [] then []
    else
      var last := values[|values| - 1];
      Defined(values[..|values| - 1]) + if last.Some? then [last.value] else []
  }

  function FamilyBucketOf(scores: seq<Scored>): FamilyBucket {
    FamilyBucket(BucketOf(scores), MeanOf(Defined(Each(scores, DILUTION3))), MeanOf(Each(scores, OCCUPANCY3)))
  }

  method ComputeBucket(scores: seq<Scored>) returns (bucket: Bucket)
    ensures bucket == BucketOf(scores)
  {
    var ndcg10 := Mean(Each(scores, NDCG10));
    var hit1 := Mean(Each(scores, HIT1));
    var hit3 := Mean(Each(scores, HIT3));
    bucket := Bucket(|scores|, ndcg10, hit1, hit3);
  }

  method ComputeFamilyBucket(scores: seq<Scored>) returns (bucket: FamilyBucket)
    ensures bucket == FamilyBucketOf(scores)
  {
    var shared := ComputeBucket(scores);
    var dilutionHit3 := Mean(Defined(Each(scores, DILUTION3)));
    var occupancy := Mean(Each(scores, OCCUPANCY3));
    bucket := FamilyBucket(shared, dilutionHit3, occupancy);
  }

  // -------------------------------------------------------------------------
  // The run.
  // -------------------------------------------------------------------------

  /** The scores of the queries that pass a test. */
  function Select(queries: seq<Query>, scores: seq<Scored>, p: Query -> bool): seq<Scored>
    requires |queries| == |scores|
  {
    if queries == [] then []
    else
      var last := |queries| - 1;
      Select(queries[..last], scores[..last], p) + if p(queries[last]) then [scores[last]] else []
  }

  function OfType(t: QuestionType): Query -> bool {
    (q: Query) => q.questionType == t
  }

  function OfFamily(f: QueryFamily): Query -> bool {
    (q: Query) => q.family == f
  }

  function OutcomeOf(q: Query, s: Scored): QueryOutcome {
    QueryOutcome(q.id, q.family, q.questionType, s.ndcg10, s.hit1, s.hit3, s.dilutionHit3, s.missedGroups)
  }

  function AllLeaks(c: Corpus, queries: seq<Query>, rank: Ranker): seq<Violation> {
    if queries == [] then []
    else
      var q := queries[|queries| - 1];
      AllLeaks(c, queries[..|queries| - 1], rank) + LeaksOf(c, q, rank(q))
  }

  ghost predicate AreScores(d: nat -> real, c: Corpus, queries: seq<Query>, rank: Ranker, scores: seq<Scored>)
    requires IsDiscount(d)
  {
    && |scores| == |queries|
    && forall i :: 0 <= i < |queries| ==>
        CanScore(c, queries[i], rank(queries[i])) && IsScore(d, c, queries[i], rank(queries[i]), scores[i])
  }

  /** What a report says about the scores it is made of. */
  ghost predicate IsReport(c: Corpus, rank: Ranker, scores: seq<Scored>, report: EvalReport)
    requires |scores| == |c.queries|
  {
    && report.queryCount == |c.queries|
    && report.aggregate == BucketOf(scores)
    && (forall t :: t in report.byType && report.byType[t] == BucketOf(Select(c.queries, scores, OfType(t))))
    && (forall f ::
          f in report.byFamily && report.byFamily[f] == FamilyBucketOf(Select(c.queries, scores, OfFamily(f))))
    && report.violations == AllLeaks(c, c.queries, rank)
    && AreOutcomes(c.queries, scores, report.perQuery)
  }

  lemma SelectOneMore(queries: seq<Query>, n: nat, scores: seq<Scored>, s: Scored, p: Query -> bool)
    requires n < |queries| && |scores| == n
    ensures Select(queries[..n + 1], scores + [s], p) ==
      Select(queries[..n], scores, p) + if p(queries[n]) then [s] else []
  {
    var upTo := queries[..n + 1];
    var longer := scores + [s];
    assert upTo[..n] == queries[..n] && longer[..n] == scores;
    assert upTo[n] == queries[n] && longer[n] == s && |upTo| - 1 == n;
  }

  /** Every score under its query's type and under its query's family. */
  ghost predicate AreFiled(queries: seq<Query>, scores: seq<Scored>,
                           byType: map<QuestionType, seq<Scored>>, byFamily: map<QueryFamily, seq<Scored>>)
    requires |queries| == |scores|
  {
    && (forall t :: t in byType && byType[t] == Select(queries, scores, OfType(t)))
    && (forall f :: f in byFamily && byFamily[f] == Select(queries, scores, OfFamily(f)))
  }

  lemma FileOneMore(queries: seq<Query>, n: nat, scores: seq<Scored>, s: Scored,
                    byType: map<QuestionType, seq<Scored>>, byFamily: map<QueryFamily, seq<Scored>>)
    requires n < |queries| && |scores| == n && AreFiled(queries[..n], scores, byType, byFamily)
    ensures var q := queries[n];
      AreFiled(queries[..n + 1], scores + [s], byType[q.questionType := byType[q.questionType] + [s]],
               byFamily[q.family := byFamily[q.family] + [s]])
  {
    forall t ensures Select(queries[..n + 1], scores + [s], OfType(t)) ==
        byType[t] + if queries[n].questionType == t then [s] else [] {
      SelectOneMore(queries, n, scores, s, OfType(t));
    }
    forall f ensures Select(queries[..n + 1], scores + [s], OfFamily(f)) ==
        byFamily[f] + if queries[n].family == f then [s] else [] {
      SelectOneMore(queries, n, scores, s, OfFamily(f));
    }
  }

  lemma NothingFiled()
    ensures AreFiled([], [], map[Relational := [], NamedEntity := [], Temporal := [], ContextFenced := []],
                     map[TitleSubstring := [], Alias := [], Dilution := [], General := []])
  {
    var byType: map<QuestionType, seq<Scored>> := map[Relational := [], NamedEntity := [], Temporal := [],
      ContextFenced := []];
    var byFamily: map<QueryFamily, seq<Scored>> := map[TitleSubstring := [], Alias := [], Dilution := [],
      General := []];
    forall t: QuestionType ensures t in byType && byType[t] == [] {
      match t case Relational => case NamedEntity => case Temporal => case ContextFenced =>
    }
    forall f: QueryFamily ensures f in byFamily && byFamily[f] == [] {
      match f case TitleSubstring => case Alias => case Dilution => case General =>
    }
  }

  ghost predicate AreScorable(c: Corpus, queries: seq<Query>, rank: Ranker) {
    forall i :: 0 <= i < |queries| ==> CanScore(c, queries[i], rank(queries[i]))
  }

  ghost predicate AreOutcomes(queries: seq<Query>, scores: seq<Scored>, outcomes: seq<QueryOutcome>)
    requires |queries| == |scores|
  {
    && |outcomes| == |queries|
    && forall i :: 0 <= i < |queries| ==> outcomes[i] == OutcomeOf(queries[i], scores[i])
  }

  lemma ScoresOneMore(d: nat -> real, c: Corpus, rank: Ranker, n: nat, scores: seq<Scored>, s: Scored)
    requires IsDiscount(d) && n < |c.queries| && AreScores(d, c, c.queries[..n], rank, scores)
    requires CanScore(c, c.queries[n], rank(c.queries[n])) && IsScore(d, c, c.queries[n], rank(c.queries[n]), s)
    ensures AreScores(d, c, c.queries[..n + 1], rank, scores + [s])
  {
    var upTo, all := c.queries[..n + 1], scores + [s];
    forall i | 0 <= i < |upTo|
      ensures CanScore(c, upTo[i], rank(upTo[i])) && IsScore(d, c, upTo[i], rank(upTo[i]), all[i])
    {
      if i < n {
        assert upTo[i] == c.queries[..n][i] && all[i] == scores[i];
      } else {
        assert upTo[i] == c.queries[n] && all[i] == s;
      }
    }
  }

  lemma OutcomesOneMore(queries: seq<Query>, n: nat, scores: seq<Scored>, s: Scored, outcomes: seq<QueryOutcome>)
    requires n < |queries| && |scores| == n && AreOutcomes(queries[..n], scores, outcomes)
    ensures AreOutcomes(queries[..n + 1], scores + [s], outcomes + [OutcomeOf(queries[n], s)])
  {
    assert forall i :: 0 <= i < n ==> queries[..n + 1][i] == queries[..n][i];
  }

  lemma LeaksOneMore(c: Corpus, queries: seq<Query>, n: nat, rank: Ranker)
    requires n < |queries|
    ensures AllLeaks(c, queries[..n + 1], rank) ==
      AllLeaks(c, queries[..n], rank) + LeaksOf(c, queries[n], rank(queries[n]))
  {
    assert queries[..n + 1][..n] == queries[..n];
  }

  /** The first loop of `runEval`: score every query and file each score twice. */
  method ScoreAll(d: nat -> real, c: Corpus, rank: Ranker)
    returns (fault: Option<RunError>, all: seq<Scored>, perQuery: seq<QueryOutcome>, violations: seq<Violation>,
             byType: map<QuestionType, seq<Scored>>, byFamily: map<QueryFamily, seq<Scored>>)
    requires IsDiscount(d) && forall id :: id in c.gold ==> IsGoldKey(c.gold[id])
    ensures fault.None? <==> AreScorable(c, c.queries, rank)
    ensures fault.None? ==> AreScores(d, c, c.queries, rank, all) && AreOutcomes(c.queries, all, perQuery)
    ensures fault.None? ==> violations == AllLeaks(c, c.queries, rank)
    ensures fault.None? ==> AreFiled(c.queries, all, byType, byFamily)
  {
    all, perQuery, violations := [], [], [];
    byType := map[Relational := [], NamedEntity := [], Temporal := [], ContextFenced := []];
    byFamily := map[TitleSubstring := [], Alias := [], Dilution := [], General := []];
    assert c.queries[..0] == [];
    NothingFiled();
    for i := 0 to |c.queries|
      invariant AreScores(d, c, c.queries[..i], rank, all)
      invariant AreOutcomes(c.queries[..i], all, perQuery)
      invariant violations == AllLeaks(c, c.queries[..i], rank)
      invariant AreFiled(c.queries[..i], all, byType, byFamily)
    {
      var q := c.queries[i];
      var scored;
      scored, violations := ScoreQuery(d, q, rank(q), c, violations);
      if scored.Err? {
        return Some(scored.error), all, perQuery, violations, byType, byFamily;
      }
      FileOneMore(c.queries, i, all, scored.value, byType, byFamily);
      ScoresOneMore(d, c, rank, i, all, scored.value);
      OutcomesOneMore(c.queries, i, all, scored.value, perQuery);
      LeaksOneMore(c, c.queries, i, rank);
      all := all + [scored.value];
      perQuery := perQuery + [OutcomeOf(q, scored.value)];
      byType := byType[q.questionType := byType[q.questionType] + [scored.value]];
      byFamily := byFamily[q.family := byFamily[q.family] + [scored.value]];
    }
    assert c.queries[..|c.queries|] == c.queries;
    fault := None;
  }

  /** `runEval`: a report exactly when every query can be scored. */
  method RunEval(d: nat -> real, c: Corpus, rank: Ranker)
    returns (r: Result<EvalReport, RunError>, ghost scores: seq<Scored>)
    requires IsDiscount(d) && forall id :: id in c.gold ==> IsGoldKey(c.gold[id])
    ensures r.Ok? <==> AreScorable(c, c.queries, rank)
    ensures r.Ok? ==> AreScores(d, c, c.queries, rank, scores) && IsReport(c, rank, scores, r.value)
  {
    var fault, all, perQuery, violations, ofType, ofFamily := ScoreAll(d, c, rank);
    scores := all;
    if fault.Some? {
      return Err(fault.value), scores;
    }
    assert |all| == |c.queries|;
    var aggregate := ComputeBucket(all);
    var byType: map<QuestionType, Bucket> := map[];
    for i := 0 to |QUESTION_TYPES|
      invariant forall j :: 0 <= j < i ==>
        QUESTION_TYPES[j] in byType && byType[QUESTION_TYPES[j]] == BucketOf(ofType[QUESTION_TYPES[j]])
    {
      var bucket := ComputeBucket(ofType[QUESTION_TYPES[i]]);
      byType := byType[QUESTION_TYPES[i] := bucket];
    }
    var byFamily: map<QueryFamily, FamilyBucket> := map[];
    for i := 0 to |QUERY_FAMILIES|
      invariant forall j :: 0 <= j < i ==>
        QUERY_FAMILIES[j] in byFamily && byFamily[QUERY_FAMILIES[j]] == FamilyBucketOf(ofFamily[QUERY_FAMILIES[j]])
    {
      var bucket := ComputeFamilyBucket(ofFamily[QUERY_FAMILIES[i]]);
      byFamily := byFamily[QUERY_FAMILIES[i] := bucket];
    }
    forall t: QuestionType ensures t in byType && byType[t] == BucketOf(ofType[t]) {
      var n := match t case Relational => 0 case NamedEntity => 1 case Temporal => 2 case ContextFenced => 3;
      assert t == QUESTION_TYPES[n];
    }
    forall f: QueryFamily ensures f in byFamily && byFamily[f] == FamilyBucketOf(ofFamily[f]) {
      assert f == QUERY_FAMILIES[match f case TitleSubstring => 0 case Alias => 1 case Dilution => 2 case General => 3];
    }
    r := Ok(EvalReport(|all|, aggregate, byType, byFamily, violations, perQuery));
  }

  // -------------------------------------------------------------------------
  // Conservation.
  // -------------------------------------------------------------------------

  /** The four tests that sort queries by type, or by family. */
  function TypeTests(): seq<Query -> bool> {
    [OfType(Relational), OfType(NamedEntity), OfType(Temporal), OfType(ContextFenced)]
  }

  function FamilyTests(): seq<Query -> bool> {
    [OfFamily(TitleSubstring), OfFamily(Alias), OfFamily(Dilution), OfFamily(General)]
  }

  function Passed(p: seq<Query -> bool>, q: Query): nat {
    if p == [] then 0 else Passed(p[..|p| - 1], q) + if p[|p| - 1](q) then 1 else 0
  }

  /** Every query passes exactly one of the tests. */
  ghost predicate IsPartition(p: seq<Query -> bool>) {
    forall q: Query :: Passed(p, q) == 1
  }

  /** How many queries the tests select, with repetition. */
  function Counted(queries: seq<Query>, scores: seq<Scored>, p: seq<Query -> bool>): nat
    requires |queries| == |scores|
  {
    if p == [] then 0 else Counted(queries, scores, p[..|p| - 1]) + |Select(queries, scores, p[|p| - 1])|
  }

  /** A mean times its count; an empty bucket weighs nothing. */
  function Weighted(scores: seq<Scored>, f: Scored -> real): real {
    var mean := MeanOf(Each(scores, f));
    if mean.Finite? then |scores| as real * mean.value else 0.0
  }

  /** The count-weighted means of the buckets, added up. */
  function WeightedSum(queries: seq<Query>, scores: seq<Scored>, p: seq<Query -> bool>, f: Scored -> real): real
    requires |queries| == |scores|
  {
    if p == [] then 0.0
    else WeightedSum(queries, scores, p[..|p| - 1], f) + Weighted(Select(queries, scores, p[|p| - 1]), f)
  }

  /** What the scores add up to. */
  function Mass(scores: seq<Scored>, f: Scored -> real): real {
    if scores == [] then 0.0 else Mass(scores[..|scores| - 1], f) + f(scores[|scores| - 1])
  }

  function MassSum(queries: seq<Query>, scores: seq<Scored>, p: seq<Query -> bool>, f: Scored -> real): real
    requires |queries| == |scores|
  {
    if p == [] then 0.0
    else MassSum(queries, scores, p[..|p| - 1], f) + Mass(Select(queries, scores, p[|p| - 1]), f)
  }

  lemma {:induction false} MassIsTheTotal(scores: seq<Scored>, f: Scored -> real)
    ensures Mass(scores, f) == Total(Each(scores, f))
  {
    if scores != [] {
      MassIsTheTotal(scores[..|scores| - 1], f);
      assert Each(scores, f)[..|scores| - 1] == Each(scores[..|scores| - 1], f);
    }
  }

  lemma TimesTheCount(total: real, n: int)
    requires n > 0
    ensures n as real * (total / n as real) == total
  {
  }

  lemma WeightedIsTheMass(scores: seq<Scored>, f: Scored -> real)
    ensures Weighted(scores, f) == Mass(scores, f)
  {
    MassIsTheTotal(scores, f);
    if scores != [] {
      TimesTheCount(Mass(scores, f), |scores|);
    }
  }

  lemma {:induction false} WeightsAreMasses(queries: seq<Query>, scores: seq<Scored>, p: seq<Query -> bool>,
      f: Scored -> real)
    requires |queries| == |scores|
    ensures WeightedSum(queries, scores, p, f) == MassSum(queries, scores, p, f)
  {
    if p != [] {
      WeightsAreMasses(queries, scores, p[..|p| - 1], f);
      WeightedIsTheMass(Select(queries, scores, p[|p| - 1]), f);
    }
  }

  lemma MassOneMore(scores: seq<Scored>, s: Scored, f: Scored -> real)
    ensures Mass(scores + [s], f) == Mass(scores, f) + f(s)
  {
    assert (scores + [s])[..|scores|] == scores;
  }

  lemma SelectedOneMore(queries: seq<Query>, scores: seq<Scored>, p: Query -> bool, f: Scored -> real)
    requires |queries| == |scores| > 0
    ensures var last := |queries| - 1;
      Mass(Select(queries, scores, p), f) ==
        Mass(Select(queries[..last], scores[..last], p), f) + if p(queries[last]) then f(scores[last]) else 0.0
  {
    var last := |queries| - 1;
    var before := Select(queries[..last], scores[..last], p);
    if p(queries[last]) {
      MassOneMore(before, scores[last], f);
    } else {
      assert Select(queries, scores, p) == before;
    }
  }

  /** What a query adds: its score, once per test it passes. */
  function Credit(p: seq<Query -> bool>, q: Query, x: real): real {
    if p == [] then 0.0 else Credit(p[..|p| - 1], q, x) + if p[|p| - 1](q) then x else 0.0
  }

  lemma {:induction false} CreditIsPerPass(p: seq<Query -> bool>, q: Query, x: real)
    ensures Credit(p, q, x) == Passed(p, q) as real * x
  {
    if p != [] {
      CreditIsPerPass(p[..|p| - 1], q, x);
    }
  }

  lemma {:induction false} OneQueryMore(queries: seq<Query>, scores: seq<Scored>, p: seq<Query -> bool>,
      f: Scored -> real)
    requires |queries| == |scores| > 0
    ensures var last := |queries| - 1;
      && Counted(queries, scores, p) == Counted(queries[..last], scores[..last], p) + Passed(p, queries[last])
      && MassSum(queries, scores, p, f) ==
           MassSum(queries[..last], scores[..last], p, f) + Credit(p, queries[last], f(scores[last]))
  {
    if p != [] {
      OneQueryMore(queries, scores, p[..|p| - 1], f);
      SelectedOneMore(queries, scores, p[|p| - 1], f);
    }
  }

  lemma {:induction false} NoQueries(p: seq<Query -> bool>, f: Scored -> real)
    ensures Counted([], [], p) == 0 && MassSum([], [], p, f) == 0.0
  {
    if p != [] {
      NoQueries(p[..|p| - 1], f);
    }
  }

  lemma CreditOfOnePass(p: seq<Query -> bool>, q: Query, x: real)
    requires IsPartition(p)
    ensures Passed(p, q) == 1 && Credit(p, q, x) == x
  {
    CreditIsPerPass(p, q, x);
  }

  /** Sorting the queries into disjoint buckets loses and repeats nothing. */
  lemma {:induction false} PartsMakeTheWhole(queries: seq<Query>, scores: seq<Scored>, p: seq<Query -> bool>,
      f: Scored -> real)
    requires |queries| == |scores| && IsPartition(p)
    ensures Counted(queries, scores, p) == |queries|
    ensures MassSum(queries, scores, p, f) == Mass(scores, f)
  {
    if queries == [] {
      NoQueries(p, f);
    } else {
      var last := |queries| - 1;
      PartsMakeTheWhole(queries[..last], scores[..last], p, f);
      OneQueryMore(queries, scores, p, f);
      CreditOfOnePass(p, queries[last], f(scores[last]));
      MassOfLast(scores, f);
    }
  }

  lemma MassOfLast(scores: seq<Scored>, f: Scored -> real)
    requires scores != []
    ensures Mass(scores, f) == Mass(scores[..|scores| - 1], f) + f(scores[|scores| - 1])
  {
  }

  lemma PassedOneOfFour(p: seq<Query -> bool>, q: Query)
    requires |p| == 4
    ensures Passed(p, q) == (if p[0](q) then 1 else 0) + (if p[1](q) then 1 else 0)
      + (if p[2](q) then 1 else 0) + (if p[3](q) then 1 else 0)
  {
    assert p[..3][..2] == p[..2] && p[..2][..1] == p[..1] && p[..1][..0] == [];
    assert Passed(p[..1], q) == if p[0](q) then 1 else 0;
    assert Passed(p[..2], q) == Passed(p[..1], q) + if p[1](q) then 1 else 0;
    assert Passed(p[..3], q) == Passed(p[..2], q) + if p[2](q) then 1 else 0;
  }

  lemma TypesMakeTheWhole(queries: seq<Query>, scores: seq<Scored>, f: Scored -> real)
    requires |queries| == |scores|
    ensures Counted(queries, scores, TypeTests()) == |queries|
    ensures MassSum(queries, scores, TypeTests(), f) == Mass(scores, f)
  {
    forall q ensures Passed(TypeTests(), q) == 1 {
      PassedOneOfFour(TypeTests(), q);
    }
    PartsMakeTheWhole(queries, scores, TypeTests(), f);
  }

  lemma FamiliesMakeTheWhole(queries: seq<Query>, scores: seq<Scored>, f: Scored -> real)
    requires |queries| == |scores|
    ensures Counted(queries, scores, FamilyTests()) == |queries|
    ensures MassSum(queries, scores, FamilyTests(), f) == Mass(scores, f)
  {
    forall q ensures Passed(FamilyTests(), q) == 1 {
      PassedOneOfFour(FamilyTests(), q);
    }
    PartsMakeTheWhole(queries, scores, FamilyTests(), f);
  }

  /**
   * The four types, and the four families, each account for every query once:
   * counts add up, and so do the count-weighted means of any metric.
   */
  lemma BucketsConserve(queries: seq<Query>, scores: seq<Scored>, f: Scored -> real)
    requires |queries| == |scores|
    ensures Counted(queries, scores, TypeTests()) == Counted(queries, scores, FamilyTests()) == |queries|
    ensures WeightedSum(queries, scores, TypeTests(), f) == Weighted(scores, f)
    ensures WeightedSum(queries, scores, FamilyTests(), f) == Weighted(scores, f)
  {
    TypesMakeTheWhole(queries, scores, f);
    FamiliesMakeTheWhole(queries, scores, f);
    WeightsAreMasses(queries, scores, TypeTests(), f);
    WeightsAreMasses(queries, scores, FamilyTests(), f);
    WeightedIsTheMass(scores, f);
  }

  /** The mean is at least `bar`, or over no queries at all. */
  predicate MeetsIfAny(scores: seq<Scored>, f: Scored -> real, bar: real) {
    scores == [] || (MeanOf(Each(scores, f)).Finite? && MeanOf(Each(scores, f)).value >= bar)
  }

  /** A metric measured from the bar. */
  function Above(f: Scored -> real, bar: real): Scored -> real {
    (s: Scored) => f(s) - bar
  }

  lemma {:induction false} MassAbove(scores: seq<Scored>, f: Scored -> real, bar: real)
    ensures Mass(scores, Above(f, bar)) == Mass(scores, f) - |scores| as real * bar
  {
    if scores != [] {
      MassAbove(scores[..|scores| - 1], f, bar);
      OneMoreTimes(|scores| - 1, bar);
    }
  }

  lemma OneMoreTimes(n: int, x: real)
    ensures (n + 1) as real * x == n as real * x + x
  {
  }

  lemma MeanBound(mass: real, n: int, bar: real)
    requires n > 0
    ensures mass / n as real >= bar <==> mass - n as real * bar >= 0.0
  {
    var mean := mass / n as real;
    assert n as real * mean == mass;
    if mean >= bar {
      assert n as real * (mean - bar) >= 0.0;
    } else {
      assert n as real * (bar - mean) > 0.0;
    }
  }

  lemma MeetingTheBar(scores: seq<Scored>, f: Scored -> real, bar: real)
    ensures MeetsIfAny(scores, f, bar) <==> Mass(scores, Above(f, bar)) >= 0.0
  {
    MassIsTheTotal(scores, f);
    MassAbove(scores, f, bar);
    if scores != [] {
      MeanBound(Mass(scores, f), |scores|, bar);
    }
  }

  lemma {:induction false} SumOfMasses(queries: seq<Query>, scores: seq<Scored>, p: seq<Query -> bool>,
      f: Scored -> real)
    requires |queries| == |scores|
    requires forall k :: 0 <= k < |p| ==> Mass(Select(queries, scores, p[k]), f) >= 0.0
    ensures MassSum(queries, scores, p, f) >= 0.0
  {
    if p != [] {
      SumOfMasses(queries, scores, p[..|p| - 1], f);
    }
  }

  ghost predicate TypeMeets(queries: seq<Query>, scores: seq<Scored>, t: QuestionType, f: Scored -> real, bar: real)
    requires |queries| == |scores|
  {
    MeetsIfAny(Select(queries, scores, OfType(t)), f, bar)
  }

  lemma TypeMeetsTheBar(queries: seq<Query>, scores: seq<Scored>, t: QuestionType, f: Scored -> real, bar: real)
    requires |queries| == |scores|
    ensures TypeMeets(queries, scores, t, f, bar) <==> Mass(Select(queries, scores, OfType(t)), Above(f, bar)) >= 0.0
  {
    MeetingTheBar(Select(queries, scores, OfType(t)), f, bar);
  }

  lemma MassesOfTypes(queries: seq<Query>, scores: seq<Scored>, f: Scored -> real)
    requires |queries| == |scores|
    requires forall t :: Mass(Select(queries, scores, OfType(t)), f) >= 0.0
    ensures Mass(scores, f) >= 0.0
  {
    var p := TypeTests();
    forall k | 0 <= k < |p| ensures Mass(Select(queries, scores, p[k]), f) >= 0.0 {
      TypeTestAt(k);
    }
    SumOfMasses(queries, scores, p, f);
    TypesMakeTheWhole(queries, scores, f);
  }

  lemma TypeTestAt(k: nat)
    requires k < |QUESTION_TYPES|
    ensures TypeTests()[k] == OfType(QUESTION_TYPES[k])
  {
  }

  /** No type below the bar, no aggregate below the bar. */
  lemma TheAggregateFollowsTheTypes(queries: seq<Query>, scores: seq<Scored>, f: Scored -> real, bar: real)
    requires |queries| == |scores|
    requires forall t :: TypeMeets(queries, scores, t, f, bar)
    ensures MeetsIfAny(scores, f, bar)
  {
    forall t ensures Mass(Select(queries, scores, OfType(t)), Above(f, bar)) >= 0.0 {
      assert TypeMeets(queries, scores, t, f, bar);
      TypeMeetsTheBar(queries, scores, t, f, bar);
    }
    MassesOfTypes(queries, scores, Above(f, bar));
    MeetingTheBar(scores, f, bar);
  }

  // -------------------------------------------------------------------------
  // The same, read off a report.
  // -------------------------------------------------------------------------

  /** One of the three means of a bucket. */
  type Metric = Bucket -> Measured

  const MEAN_NDCG10: Metric := (b: Bucket) => b.ndcg10
  const MEAN_HIT1: Metric := (b: Bucket) => b.hit1
  const MEAN_HIT3: Metric := (b: Bucket) => b.hit3

  /** A bucket's mean times its count; an empty bucket weighs nothing. */
  function Share(b: Bucket, m: Metric): real {
    if m(b).Finite? then b.count as real * m(b).value else 0.0
  }

  predicate HasEveryBucket(report: EvalReport) {
    && (forall t: QuestionType :: t in report.byType)
    && (forall f: QueryFamily :: f in report.byFamily)
  }

  function TypeCounts(report: EvalReport): int
    requires HasEveryBucket(report)
  {
    report.byType[Relational].count + report.byType[NamedEntity].count
    + report.byType[Temporal].count + report.byType[ContextFenced].count
  }

  function FamilyCounts(report: EvalReport): int
    requires HasEveryBucket(report)
  {
    report.byFamily[TitleSubstring].bucket.count + report.byFamily[Alias].bucket.count
    + report.byFamily[Dilution].bucket.count + report.byFamily[General].bucket.count
  }

  function TypeShares(report: EvalReport, m: Metric): real
    requires HasEveryBucket(report)
  {
    Share(report.byType[Relational], m) + Share(report.byType[NamedEntity], m)
    + Share(report.byType[Temporal], m) + Share(report.byType[ContextFenced], m)
  }

  function FamilyShares(report: EvalReport, m: Metric): real
    requires HasEveryBucket(report)
  {
    Share(report.byFamily[TitleSubstring].bucket, m) + Share(report.byFamily[Alias].bucket, m)
    + Share(report.byFamily[Dilution].bucket, m) + Share(report.byFamily[General].bucket, m)
  }

  /** The metric of a bucket is the mean of this score. */
  ghost predicate IsMeanOf(m: Metric, f: Scored -> real) {
    forall scores :: m(BucketOf(scores)) == MeanOf(Each(scores, f))
  }

  lemma SumsOfFour(queries: seq<Query>, scores: seq<Scored>, p: seq<Query -> bool>, f: Scored -> real)
    requires |queries| == |scores| && |p| == 4
    ensures Counted(queries, scores, p) ==
      |Select(queries, scores, p[0])| + |Select(queries, scores, p[1])|
      + |Select(queries, scores, p[2])| + |Select(queries, scores, p[3])|
    ensures WeightedSum(queries, scores, p, f) ==
      Weighted(Select(queries, scores, p[0]), f) + Weighted(Select(queries, scores, p[1]), f)
      + Weighted(Select(queries, scores, p[2]), f) + Weighted(Select(queries, scores, p[3]), f)
  {
    var p3, p2, p1 := p[..3], p[..2], p[..1];
    assert p3[..2] == p2 && p2[..1] == p1 && p1[..0] == [];
    assert p3[2] == p[2] && p2[1] == p[1] && p1[0] == p[0];
    assert Counted(queries, scores, p1) == |Select(queries, scores, p[0])|;
    assert Counted(queries, scores, p2) == Counted(queries, scores, p1) + |Select(queries, scores, p[1])|;
    assert Counted(queries, scores, p3) == Counted(queries, scores, p2) + |Select(queries, scores, p[2])|;
    assert WeightedSum(queries, scores, p1, f) == Weighted(Select(queries, scores, p[0]), f);
    assert WeightedSum(queries, scores, p2, f)
        == WeightedSum(queries, scores, p1, f) + Weighted(Select(queries, scores, p[1]), f);
    assert WeightedSum(queries, scores, p3, f)
        == WeightedSum(queries, scores, p2, f) + Weighted(Select(queries, scores, p[2]), f);
  }

  lemma SharesAreWeights(m: Metric, f: Scored -> real, scores: seq<Scored>)
    requires IsMeanOf(m, f)
    ensures Share(BucketOf(scores), m) == Weighted(scores, f)
  {
  }

  lemma TypeSharesAreWeights(c: Corpus, rank: Ranker, scores: seq<Scored>, report: EvalReport, m: Metric,
      f: Scored -> real)
    requires |scores| == |c.queries| && IsReport(c, rank, scores, report) && IsMeanOf(m, f)
    ensures HasEveryBucket(report)
    ensures TypeCounts(report) == Counted(c.queries, scores, TypeTests())
    ensures TypeShares(report, m) == WeightedSum(c.queries, scores, TypeTests(), f)
  {
    SumsOfFour(c.queries, scores, TypeTests(), f);
    forall t: QuestionType
      ensures Share(report.byType[t], m) == Weighted(Select(c.queries, scores, OfType(t)), f)
    {
      SharesAreWeights(m, f, Select(c.queries, scores, OfType(t)));
    }
  }

  lemma FamilySharesAreWeights(
    c: Corpus, rank: Ranker, scores: seq<Scored>, report: EvalReport, m: Metric, f: Scored -> real)
    requires |scores| == |c.queries| && IsReport(c, rank, scores, report) && IsMeanOf(m, f)
    ensures HasEveryBucket(report)
    ensures FamilyCounts(report) == Counted(c.queries, scores, FamilyTests())
    ensures FamilyShares(report, m) == WeightedSum(c.queries, scores, FamilyTests(), f)
  {
    SumsOfFour(c.queries, scores, FamilyTests(), f);
    forall family: QueryFamily
      ensures Share(report.byFamily[family].bucket, m) == Weighted(Select(c.queries, scores, OfFamily(family)), f)
    {
      SharesAreWeights(m, f, Select(c.queries, scores, OfFamily(family)));
    }
  }

  lemma MetricsAreMeans()
    ensures IsMeanOf(MEAN_NDCG10, NDCG10) && IsMeanOf(MEAN_HIT1, HIT1) && IsMeanOf(MEAN_HIT3, HIT3)
  {
  }

  lemma OneMetricConserves(
    c: Corpus, rank: Ranker, scores: seq<Scored>, report: EvalReport, m: Metric, f: Scored -> real)
    requires |scores| == |c.queries| && IsReport(c, rank, scores, report) && IsMeanOf(m, f)
    ensures HasEveryBucket(report)
    ensures TypeCounts(report) == FamilyCounts(report) == report.queryCount
    ensures TypeShares(report, m) == FamilyShares(report, m) == Share(report.aggregate, m)
  {
    TypeSharesAreWeights(c, rank, scores, report, m, f);
    FamilySharesAreWeights(c, rank, scores, report, m, f);
    SharesAreWeights(m, f, scores);
    BucketsConserve(c.queries, scores, f);
  }

  /**
   * A report's own numbers conserve: the counts of its types, and those of its
   * families, add up to its query count, and so do its count-weighted means,
   * of each metric, to that of the aggregate.
   */
  lemma ReportsConserve(c: Corpus, rank: Ranker, scores: seq<Scored>, report: EvalReport, m: Metric)
    requires |scores| == |c.queries| && IsReport(c, rank, scores, report)
    requires m == MEAN_NDCG10 || m == MEAN_HIT1 || m == MEAN_HIT3
    ensures HasEveryBucket(report)
    ensures TypeCounts(report) == FamilyCounts(report) == report.queryCount == report.aggregate.count
    ensures TypeShares(report, m) == FamilyShares(report, m) == Share(report.aggregate, m)
  {
    MetricsAreMeans();
    OneMetricConserves(c, rank, scores, report, m,
      if m == MEAN_NDCG10 then NDCG10 else if m == MEAN_HIT1 then HIT1 else HIT3);
  }

  function OccupancySum(scores: seq<Scored>): real {
    if scores == [] then 0.0
    else OccupancySum(scores[..|scores| - 1]) + scores[|scores| - 1].duplicateOccupancy3
  }

  lemma {:induction false} OccupancyIsAMass(scores: seq<Scored>)
    ensures Mass(scores, OCCUPANCY3) == OccupancySum(scores)
  {
    if scores != [] {
      OccupancyIsAMass(scores[..|scores| - 1]);
    }
  }

  function OccupancyShare(b: FamilyBucket): real {
    if b.duplicateOccupancy3.Finite? then b.bucket.count as real * b.duplicateOccupancy3.value else 0.0
  }

  lemma OccupancyShareIsAWeight(scores: seq<Scored>)
    ensures OccupancyShare(FamilyBucketOf(scores)) == Weighted(scores, OCCUPANCY3)
  {
  }

  lemma OccupancySharesAreWeights(c: Corpus, rank: Ranker, scores: seq<Scored>, report: EvalReport, f: QueryFamily)
    requires |scores| == |c.queries| && IsReport(c, rank, scores, report)
    ensures f in report.byFamily
    ensures OccupancyShare(report.byFamily[f]) == Weighted(Select(c.queries, scores, OfFamily(f)), OCCUPANCY3)
  {
    OccupancyShareIsAWeight(Select(c.queries, scores, OfFamily(f)));
  }

  lemma FamilyWeights(queries: seq<Query>, scores: seq<Scored>, f: Scored -> real)
    requires |queries| == |scores|
    ensures WeightedSum(queries, scores, FamilyTests(), f) ==
      Weighted(Select(queries, scores, OfFamily(TitleSubstring)), f)
      + Weighted(Select(queries, scores, OfFamily(Alias)), f)
      + Weighted(Select(queries, scores, OfFamily(Dilution)), f)
      + Weighted(Select(queries, scores, OfFamily(General)), f)
  {
    SumsOfFour(queries, scores, FamilyTests(), f);
  }

  /** And so do the families' shares of duplicates: to those of the single queries. */
  lemma OccupanciesConserve(c: Corpus, rank: Ranker, scores: seq<Scored>, report: EvalReport)
    requires |scores| == |c.queries| && IsReport(c, rank, scores, report)
    requires forall f: QueryFamily :: f in report.byFamily
    ensures OccupancyShare(report.byFamily[TitleSubstring]) + OccupancyShare(report.byFamily[Alias])
        + OccupancyShare(report.byFamily[Dilution]) + OccupancyShare(report.byFamily[General])
      == OccupancySum(scores)
  {
    FamilyWeights(c.queries, scores, OCCUPANCY3);
    BucketsConserve(c.queries, scores, OCCUPANCY3);
    WeightedIsTheMass(scores, OCCUPANCY3);
    OccupancyIsAMass(scores);
    OccupancySharesAreWeights(c, rank, scores, report, TitleSubstring);
    OccupancySharesAreWeights(c, rank, scores, report, Alias);
    OccupancySharesAreWeights(c, rank, scores, report, Dilution);
    OccupancySharesAreWeights(c, rank, scores, report, General);
  }

  /** In a report, no type mean below a bar means no aggregate below it. */
  lemma ReportedAggregatesFollow(c: Corpus, rank: Ranker, scores: seq<Scored>, report: EvalReport, m: Metric, bar: real)
    requires |scores| == |c.queries| && IsReport(c, rank, scores, report)
    requires m == MEAN_NDCG10 || m == MEAN_HIT1 || m == MEAN_HIT3
    requires forall t: QuestionType :: t in report.byType && m(report.byType[t]).Finite? ==>
      m(report.byType[t]).value >= bar
    ensures m(report.aggregate).Finite? ==> m(report.aggregate).value >= bar
  {
    MetricsAreMeans();
    var f := if m == MEAN_NDCG10 then NDCG10 else if m == MEAN_HIT1 then HIT1 else HIT3;
    assert IsMeanOf(m, f);
    forall t ensures TypeMeets(c.queries, scores, t, f, bar) {
      assert m(report.byType[t]) == MeanOf(Each(Select(c.queries, scores, OfType(t)), f));
    }
    TheAggregateFollowsTheTypes(c.queries, scores, f, bar);
  }

  // -------------------------------------------------------------------------
  // The oracle, end to end.
  // -------------------------------------------------------------------------

  function Oracle(): Ranker {
    (q: Query) => GoldOracle(GoldKey(q))
  }

  lemma {:induction false} TotalOfOnes(values: seq<real>)
    requires forall i :: 0 <= i < |values| ==> values[i] == 1.0
    ensures Total(values) == |values| as real
  {
    if values != [] {
      TotalOfOnes(values[..|values| - 1]);
    }
  }

  lemma {:induction false} NoLeaksAnywhere(c: Corpus, queries: seq<Query>, rank: Ranker)
    requires forall i :: 0 <= i < |queries| ==> !Leaks(c, queries[i], rank(queries[i]))
    ensures AllLeaks(c, queries, rank) == []
  {
    if queries != [] {
      NoLeaksAnywhere(c, queries[..|queries| - 1], rank);
      LeaksAreReported(c, queries[|queries| - 1], rank(queries[|queries| - 1]));
    }
  }

  lemma TheOracleScoresOne(d: nat -> real, input: CorpusInput, c: Corpus, i: nat, s: Scored)
    requires IsDiscount(d) && IsAcceptable(input) && IsBuiltFrom(c, input) && i < |c.queries|
    requires IsRecord(c.queries[i].supporting)
    ensures var ranked := Oracle()(c.queries[i]);
      && CanScore(c, c.queries[i], ranked) && !Leaks(c, c.queries[i], ranked)
      && (IsScore(d, c, c.queries[i], ranked, s) ==> s.ndcg10 == 1.0 && s.hit1 == 1.0)
  {
    TheOracleIsPerfect(d, input, i);
    AcceptedQueriesAreScored(input, c, i, Oracle()(c.queries[i]));
    assert IsIndexed(c.queries[i], c.queriesById, c.gold);
  }

  lemma MeanOfOnes(values: seq<real>)
    requires forall i :: 0 <= i < |values| ==> values[i] == 1.0
    ensures MeanOf(values) == if values == [] then NotANumber else Finite(1.0)
  {
    TotalOfOnes(values);
    if values != [] {
      Quotient(|values| as real, |values| as real);
    }
  }

  lemma PerfectScoresMakeAPerfectBucket(scores: seq<Scored>)
    requires scores != [] && forall i :: 0 <= i < |scores| ==> scores[i].ndcg10 == 1.0 && scores[i].hit1 == 1.0
    ensures BucketOf(scores).ndcg10 == BucketOf(scores).hit1 == Finite(1.0)
  {
    MeanOfOnes(Each(scores, NDCG10));
    MeanOfOnes(Each(scores, HIT1));
  }

  /** The oracle can be run over every accepted corpus. */
  lemma TheOracleRuns(d: nat -> real, input: CorpusInput, c: Corpus)
    requires IsDiscount(d) && IsAcceptable(input) && IsBuiltFrom(c, input) && AreRecords(c.queries)
    ensures AreScorable(c, c.queries, Oracle())
    ensures AllLeaks(c, c.queries, Oracle()) == []
  {
    forall i | 0 <= i < |c.queries|
      ensures CanScore(c, c.queries[i], Oracle()(c.queries[i])) && !Leaks(c, c.queries[i], Oracle()(c.queries[i])) {
      TheOracleScoresOne(d, input, c, i, Scored(0.0, 0.0, 0.0, None, 0.0, []));
    }
    NoLeaksAnywhere(c, c.queries, Oracle());
  }

  predicate AreRecords(queries: seq<Query>) {
    forall i :: 0 <= i < |queries| ==> IsRecord(queries[i].supporting)
  }

  /**
   * Every accepted corpus is attainable: the oracle's report names no leak and
   * shows nDCG@10 = Hit@1 = 1 over all queries.
   */
  lemma EveryAcceptedCorpusIsAttainable(d: nat -> real, input: CorpusInput, c: Corpus, scores: seq<Scored>,
      report: EvalReport)
    requires IsDiscount(d) && IsAcceptable(input) && IsBuiltFrom(c, input) && AreRecords(c.queries) && c.queries != []
    requires AreScores(d, c, c.queries, Oracle(), scores) && IsReport(c, Oracle(), scores, report)
    ensures report.violations == []
    ensures report.aggregate.ndcg10 == report.aggregate.hit1 == Finite(1.0)
  {
    forall i | 0 <= i < |scores| ensures scores[i].ndcg10 == 1.0 && scores[i].hit1 == 1.0 {
      TheOracleScoresOne(d, input, c, i, scores[i]);
    }
    PerfectScoresMakeAPerfectBucket(scores);
    TheOracleRuns(d, input, c);
  }

  /** `strongestNaive`: the greatest of at least one finite value. */
  method StrongestNaive(values: seq<Measured>) returns (best: Option<real>)
    ensures best.Some? <==> values != [] && forall i :: 0 <= i < |values| ==> values[i].Finite?
    ensures best.Some? ==> Finite(best.value) in values
    ensures best.Some? ==> forall i :: 0 <= i < |values| ==> values[i].value <= best.value
  {
    if |values| == 0 {
      return None;
    }
    best := None;
    for i := 0 to |values|
      invariant best.None? <==> i == 0
      invariant best.Some? ==> Finite(best.value) in values[..i]
      invariant forall j :: 0 <= j < i ==> values[j].Finite? && values[j].value <= best.value
    {
      if values[i].NotANumber? {
        return None;
      }
      if best.None? || values[i].value > best.value {
        best := Some(values[i].value);
        assert Finite(best.value) == values[..i + 1][i];
      }
    }
    assert values[..|values|] == values;
  }
}
