/**
 * The ranking metrics of `evals/metrics.ts`, over exact reals. The log discount enters as any
 * positive, strictly increasing function of the rank: that is all that is used of it below.
 */
module Metrics {
  import opened Prelude

  type ChunkId = string
  type GroupId = string

  const MAX_GRADE: int := 3

  /** One entry of a gold key; a gold key is a JavaScript Map, in insertion order. */
  datatype Graded = Graded(id: ChunkId, grade: int)

  datatype MetricError =
    | BadCutoff | EmptyGoldKey | BadGrade(id: ChunkId) | Repeated(id: ChunkId)
    | NoAnswers | NoRequiredGroups | EmptyRanking

  predicate IsGoldKey(gold: seq<Graded>) {
    forall i, j :: 0 <= i < j < |gold| ==> gold[i].id != gold[j].id
  }

  predicate IsGrade(grade: int) {
    1 <= grade <= MAX_GRADE
  }

  predicate HasGrades(gold: seq<Graded>) {
    gold != [] && forall i :: 0 <= i < |gold| ==> IsGrade(gold[i].grade)
  }

  predicate NoRepeats(ranked: seq<ChunkId>) {
    forall i, j :: 0 <= i < j < |ranked| ==> ranked[i] != ranked[j]
  }

  ghost predicate IsDiscount(d: nat -> real) {
    forall r: nat :: r >= 1 ==> d(r) > 0.0 && d(r) < d(r + 1)
  }

  /** There are such functions; the rank itself is one. */
  lemma TheRankIsADiscount()
    ensures IsDiscount((r: nat) => r as real)
  {
  }

  /** The grade of a chunk, 0 for one the gold key does not name. */
  function GradeOf(gold: seq<Graded>, id: ChunkId): int {
    if gold == [] then 0 else if gold[0].id == id then gold[0].grade else GradeOf(gold[1..], id)
  }

  lemma {:induction false} GradeOfEntry(gold: seq<Graded>, id: ChunkId)
    requires IsGoldKey(gold)
    ensures forall g :: g in gold && g.id == id ==> GradeOf(gold, id) == g.grade
    ensures (forall g :: g in gold ==> g.id != id) ==> GradeOf(gold, id) == 0
    ensures GradeOf(gold, id) != 0 ==> Graded(id, GradeOf(gold, id)) in gold
  {
    if gold != [] {
      GradeOfEntry(gold[1..], id);
      assert gold == [gold[0]] + gold[1..];
      forall g | g in gold && g.id == id ensures GradeOf(gold, id) == g.grade {
        var i :| 0 <= i < |gold| && gold[i] == g;
        assert i > 0 ==> gold[1..][i - 1] == g;
      }
    }
  }

  function Power2(n: nat): int {
    if n == 0 then 1 else 2 * Power2(n - 1)
  }

  /** Exponential gain, 2^grade - 1; an absent chunk gains nothing. */
  function Gain(grade: int): int {
    if grade < 0 then 0 else Power2(grade) - 1
  }

  // -------------------------------------------------------------------------
  // Cumulative gain as a prefix sum.
  // -------------------------------------------------------------------------

  /** The discounted gain of the first `n` positions; positions are ranks 1, 2, ... */
  function Dcg(d: nat -> real, grades: seq<int>, n: nat): real
    requires IsDiscount(d) && n <= |grades|
  {
    if n == 0 then 0.0 else Dcg(d, grades, n - 1) + Gain(grades[n - 1]) as real / d(n)
  }

  /** The grades of the top k, zero where nothing was ranked. */
  function TopGrades(ranked: seq<ChunkId>, gold: seq<Graded>, k: nat): (grades: seq<int>)
    ensures |grades| == k
  {
    seq(k, i requires 0 <= i < k => if i < |ranked| then GradeOf(gold, ranked[i]) else 0)
  }

  function Grades(gold: seq<Graded>): (grades: seq<int>)
    ensures |grades| == |gold|
  {
    Each(gold, (g: Graded) => g.grade)
  }

  predicate IsDescending(grades: seq<int>) {
    forall i, j :: 0 <= i < j < |grades| ==> grades[i] >= grades[j]
  }

  function SortDescending(grades: seq<int>): seq<int> {
    SortBy(grades, (a: int, b: int) => a >= b)
  }

  /** How many of the first `n` grades are at least `t`. */
  function CountAtLeast(grades: seq<int>, t: int, n: nat): nat
    requires n <= |grades|
  {
    if n == 0 then 0 else CountAtLeast(grades, t, n - 1) + if grades[n - 1] >= t then 1 else 0
  }

  function CountFrom(grades: seq<int>, t: int): nat {
    if grades == [] then 0 else (if grades[0] >= t then 1 else 0) + CountFrom(grades[1..], t)
  }

  lemma {:induction false} InsertByCounts<T>(x: T, sorted: seq<T>, before: (T, T) -> bool, f: T -> int, t: int)
    ensures CountFrom(Each(InsertBy(x, sorted, before), f), t) ==
      CountFrom(Each(sorted, f), t) + if f(x) >= t then 1 else 0
  {
    var inserted := InsertBy(x, sorted, before);
    if sorted == [] || before(x, sorted[0]) {
      assert Each(inserted, f)[1..] == Each(sorted, f);
    } else {
      InsertByCounts(x, sorted[1..], before, f, t);
      assert Each(inserted, f)[1..] == Each(InsertBy(x, sorted[1..], before), f);
      assert Each(sorted, f)[1..] == Each(sorted[1..], f);
    }
  }

  lemma {:induction false} SortByCounts<T>(s: seq<T>, before: (T, T) -> bool, f: T -> int, t: int)
    ensures CountFrom(Each(SortBy(s, before), f), t) == CountFrom(Each(s, f), t)
  {
    if s != [] {
      SortByCounts(s[1..], before, f, t);
      InsertByCounts(s[0], SortBy(s[1..], before), before, f, t);
      assert Each(s, f)[1..] == Each(s[1..], f);
    }
  }

  lemma SortIsDescendingPermutation(grades: seq<int>, t: int)
    ensures IsDescending(SortDescending(grades)) && |SortDescending(grades)| == |grades|
    ensures CountFrom(SortDescending(grades), t) == CountFrom(grades, t)
    ensures forall y :: y in SortDescending(grades) <==> y in grades
  {
    var before := (a: int, b: int) => a >= b;
    var same := (x: int) => x;
    SortByKeeps(grades, before);
    SortByOrders(grades, before, same);
    SortByCounts(grades, before, same, t);
    assert Each(grades, same) == grades && Each(SortDescending(grades), same) == SortDescending(grades);
    forall y ensures y in SortDescending(grades) <==> y in grades {
      assert y in SortDescending(grades) <==> y in multiset(SortDescending(grades));
    }
  }

  /** Cut, or padded with zeros, to length k. */
  function Padded(grades: seq<int>, k: nat): (r: seq<int>)
    ensures |r| == k
  {
    seq(k, i requires 0 <= i < k => if i < |grades| then grades[i] else 0)
  }

  /** The ideal top k: the whole gold key by grade. */
  function IdealGrades(gold: seq<Graded>, k: nat): (grades: seq<int>)
    ensures |grades| == k
  {
    Padded(SortDescending(Grades(gold)), k)
  }

  lemma {:induction false} CountsAgree(grades: seq<int>, t: int, n: nat)
    requires n <= |grades|
    ensures CountAtLeast(grades, t, n) + CountFrom(grades[n..], t) == CountFrom(grades, t)
  {
    if n == 0 {
      assert grades[0..] == grades;
    } else {
      CountsAgree(grades, t, n - 1);
      assert grades[n - 1..][1..] == grades[n..];
    }
  }

  // -------------------------------------------------------------------------
  // One threshold at a time.
  // -------------------------------------------------------------------------

  /** The discounts of the positions among the first `n` that reach grade `t`. */
  function Hits(d: nat -> real, grades: seq<int>, t: int, n: nat): real
    requires IsDiscount(d) && n <= |grades|
  {
    if n == 0 then 0.0 else Hits(d, grades, t, n - 1) + if grades[n - 1] >= t then 1.0 / d(n) else 0.0
  }

  /** The discounts of the first `c` positions. */
  function Front(d: nat -> real, c: nat): real
    requires IsDiscount(d)
  {
    if c == 0 then 0.0 else Front(d, c - 1) + 1.0 / d(c)
  }

  lemma {:induction false} DiscountGrows(d: nat -> real, i: nat, j: nat)
    requires IsDiscount(d) && 1 <= i < j
    ensures d(i) < d(j)
  {
    if i + 1 < j {
      DiscountGrows(d, i, j - 1);
    }
  }

  lemma ReciprocalShrinks(a: real, b: real)
    requires 0.0 < a < b
    ensures 0.0 < 1.0 / b < 1.0 / a
  {
    assert 1.0 / a - 1.0 / b == (b - a) / (a * b);
  }

  lemma WeightShrinks(d: nat -> real, i: nat, j: nat)
    requires IsDiscount(d) && 1 <= i < j
    ensures 0.0 < 1.0 / d(j) < 1.0 / d(i)
  {
    DiscountGrows(d, i, j);
    ReciprocalShrinks(d(i), d(j));
  }

  lemma {:induction false} FrontGrows(d: nat -> real, c: nat, e: nat)
    requires IsDiscount(d) && c <= e
    ensures Front(d, c) <= Front(d, e)
    ensures c < e ==> Front(d, c) < Front(d, e)
  {
    if c < e {
      FrontGrows(d, c, e - 1);
      WeightShrinks(d, e, e + 1);
      assert 1.0 / d(e) > 0.0;
    }
  }

  /** The positions that reach `t` are the first ones. */
  predicate IsFrontLoaded(grades: seq<int>, t: int, n: nat)
    requires n <= |grades|
  {
    forall i :: 0 <= i < n ==> (grades[i] >= t <==> i < CountAtLeast(grades, t, n))
  }

  lemma {:induction false} CountIsAtMost(grades: seq<int>, t: int, n: nat)
    requires n <= |grades|
    ensures CountAtLeast(grades, t, n) <= n
  {
    if n > 0 {
      CountIsAtMost(grades, t, n - 1);
    }
  }

  /** Wherever hits are, putting them first is best, and only that is as good. */
  lemma {:induction false} FrontIsBest(d: nat -> real, grades: seq<int>, t: int, n: nat)
    requires IsDiscount(d) && n <= |grades|
    ensures Hits(d, grades, t, n) <= Front(d, CountAtLeast(grades, t, n))
    ensures Hits(d, grades, t, n) == Front(d, CountAtLeast(grades, t, n)) <==> IsFrontLoaded(grades, t, n)
  {
    if n > 0 {
      FrontIsBest(d, grades, t, n - 1);
      CountIsAtMost(grades, t, n - 1);
      var c := CountAtLeast(grades, t, n - 1);
      if grades[n - 1] >= t {
        if c < n - 1 {
          WeightShrinks(d, c + 1, n);
          assert Hits(d, grades, t, n) < Front(d, c + 1);
        } else {
          AllHit(grades, t, n - 1);
        }
      }
    }
  }

  lemma {:induction false} AllHit(grades: seq<int>, t: int, n: nat)
    requires n <= |grades| && CountAtLeast(grades, t, n) == n
    ensures forall i :: 0 <= i < n ==> grades[i] >= t
  {
    if n > 0 {
      CountIsAtMost(grades, t, n - 1);
      AllHit(grades, t, n - 1);
    }
  }

  lemma {:induction false} DescendingIsFrontLoaded(grades: seq<int>, t: int, n: nat)
    requires n <= |grades| && IsDescending(grades)
    ensures IsFrontLoaded(grades, t, n)
  {
    if n > 0 {
      DescendingIsFrontLoaded(grades, t, n - 1);
      CountIsAtMost(grades, t, n - 1);
    }
  }

  predicate AreGradesOrZero(grades: seq<int>) {
    forall i :: 0 <= i < |grades| ==> 0 <= grades[i] <= MAX_GRADE
  }

  lemma GainByThreshold(grade: int)
    requires 0 <= grade <= MAX_GRADE
    ensures Gain(grade) == (if grade >= 1 then 1 else 0) + (if grade >= 2 then 2 else 0) + (if grade >= 3 then 4 else 0)
  {
    assert Power2(1) == 2 && Power2(2) == 4 && Power2(3) == 8;
  }

  lemma DiscountedGainByThreshold(grade: int, discount: real)
    requires 0 <= grade <= MAX_GRADE && discount > 0.0
    ensures Gain(grade) as real / discount ==
      (if grade >= 1 then 1.0 / discount else 0.0)
      + 2.0 * (if grade >= 2 then 1.0 / discount else 0.0)
      + 4.0 * (if grade >= 3 then 1.0 / discount else 0.0)
  {
    GainByThreshold(grade);
    var unit := 1.0 / discount;
    assert Gain(grade) as real / discount == Gain(grade) as real * unit;
  }

  /** Exponential gain is one unit for reaching grade 1, two more for 2, four more for 3. */
  lemma {:induction false} DcgByThreshold(d: nat -> real, grades: seq<int>, n: nat)
    requires IsDiscount(d) && AreGradesOrZero(grades) && n <= |grades|
    ensures Dcg(d, grades, n) == Hits(d, grades, 1, n) + 2.0 * Hits(d, grades, 2, n) + 4.0 * Hits(d, grades, 3, n)
  {
    if n > 0 {
      DcgByThreshold(d, grades, n - 1);
      DiscountedGainByThreshold(grades[n - 1], d(n));
    }
  }

  // -------------------------------------------------------------------------
  // Counting distinct chunks.
  // -------------------------------------------------------------------------

  lemma SubsetSize<T>(a: set<T>, b: set<T>)
    requires a <= b
    ensures |a| <= |b|
  {
    assert b == a + (b - a);
  }

  ghost function ChunksReaching(gold: seq<Graded>, t: int): set<ChunkId> {
    set i | 0 <= i < |gold| && gold[i].grade >= t :: gold[i].id
  }

  lemma {:induction false} ChunksReachingSize(gold: seq<Graded>, t: int)
    requires IsGoldKey(gold)
    ensures |ChunksReaching(gold, t)| == CountFrom(Grades(gold), t)
  {
    if gold != [] {
      ChunksReachingSize(gold[1..], t);
      assert Grades(gold)[1..] == Grades(gold[1..]);
      var rest := ChunksReaching(gold[1..], t);
      forall id | id in ChunksReaching(gold, t) ensures id in rest || (id == gold[0].id && gold[0].grade >= t) {
        var i :| 0 <= i < |gold| && gold[i].grade >= t && gold[i].id == id;
        if i > 0 {
          assert gold[1..][i - 1].id == id;
        }
      }
      forall id | id in rest ensures id in ChunksReaching(gold, t) && id != gold[0].id {
        var i :| 0 <= i < |gold[1..]| && gold[1..][i].grade >= t && gold[1..][i].id == id;
        assert gold[i + 1].id == id;
      }
      if gold[0].grade >= t {
        assert ChunksReaching(gold, t) == rest + {gold[0].id};
      } else {
        assert ChunksReaching(gold, t) == rest;
      }
    }
  }

  ghost function RankedReaching(ranked: seq<ChunkId>, gold: seq<Graded>, t: int, n: nat): set<ChunkId> {
    set i | 0 <= i < n && i < |ranked| && GradeOf(gold, ranked[i]) >= t :: ranked[i]
  }

  lemma RankedReachingOneMore(ranked: seq<ChunkId>, gold: seq<Graded>, t: int, n: nat)
    requires NoRepeats(ranked)
    ensures |RankedReaching(ranked, gold, t, n + 1)| == |RankedReaching(ranked, gold, t, n)|
      + if n < |ranked| && GradeOf(gold, ranked[n]) >= t then 1 else 0
  {
    var before := RankedReaching(ranked, gold, t, n);
    if n < |ranked| && GradeOf(gold, ranked[n]) >= t {
      assert RankedReaching(ranked, gold, t, n + 1) == before + {ranked[n]};
      assert ranked[n] !in before;
    } else {
      assert RankedReaching(ranked, gold, t, n + 1) == before;
    }
  }

  lemma {:induction false} RankedReachingSize(ranked: seq<ChunkId>, gold: seq<Graded>, t: int, k: nat, n: nat)
    requires NoRepeats(ranked) && t >= 1 && n <= k
    ensures |RankedReaching(ranked, gold, t, n)| == CountAtLeast(TopGrades(ranked, gold, k), t, n)
  {
    if n > 0 {
      RankedReachingSize(ranked, gold, t, k, n - 1);
      RankedReachingOneMore(ranked, gold, t, n - 1);
    }
  }

  /** A repeat-free ranking cannot reach a grade more often than the gold key grants it. */
  lemma TopCountsAreBounded(ranked: seq<ChunkId>, gold: seq<Graded>, t: int, k: nat)
    requires NoRepeats(ranked) && IsGoldKey(gold) && t >= 1
    ensures CountAtLeast(TopGrades(ranked, gold, k), t, k) <= Min(k, CountFrom(Grades(gold), t))
  {
    RankedReachingSize(ranked, gold, t, k, k);
    ChunksReachingSize(gold, t);
    CountIsAtMost(TopGrades(ranked, gold, k), t, k);
    forall id | id in RankedReaching(ranked, gold, t, k) ensures id in ChunksReaching(gold, t) {
      GradeOfEntry(gold, id);
      var i :| 0 <= i < |gold| && gold[i] == Graded(id, GradeOf(gold, id));
    }
    SubsetSize(RankedReaching(ranked, gold, t, k), ChunksReaching(gold, t));
  }

  lemma IdealShape(gold: seq<Graded>, k: nat)
    requires HasGrades(gold)
    ensures IsDescending(IdealGrades(gold, k)) && AreGradesOrZero(IdealGrades(gold, k))
  {
    SortIsDescendingPermutation(Grades(gold), 0);
    var sorted := SortDescending(Grades(gold));
    forall i | 0 <= i < |sorted| ensures IsGrade(sorted[i]) {
      assert sorted[i] in Grades(gold);
    }
  }

  lemma {:induction false} ZerosAddNoCount(grades: seq<int>, t: int, m: nat, n: nat)
    requires m <= n <= |grades| && t >= 1 && forall i :: m <= i < n ==> grades[i] == 0
    ensures CountAtLeast(grades, t, n) == CountAtLeast(grades, t, m)
  {
    if m < n {
      ZerosAddNoCount(grades, t, m, n - 1);
    }
  }

  lemma {:induction false} CountOfPrefix(grades: seq<int>, other: seq<int>, t: int, n: nat)
    requires n <= |grades| && n <= |other| && forall i :: 0 <= i < n ==> grades[i] == other[i]
    ensures CountAtLeast(grades, t, n) == CountAtLeast(other, t, n)
  {
    if n > 0 {
      CountOfPrefix(grades, other, t, n - 1);
    }
  }

  /** A descending list cut to k reaches each grade as often as k places allow. */
  lemma PaddedCounts(sorted: seq<int>, t: int, k: nat)
    requires IsDescending(sorted) && t >= 1
    ensures CountAtLeast(Padded(sorted, k), t, k) == Min(k, CountFrom(sorted, t))
  {
    var m := Min(k, |sorted|);
    CountOfPrefix(Padded(sorted, k), sorted, t, m);
    ZerosAddNoCount(Padded(sorted, k), t, m, k);
    CountsAgree(sorted, t, m);
    CountsAgree(sorted, t, |sorted|);
    DescendingIsFrontLoaded(sorted, t, m);
    CountIsAtMost(sorted, t, m);
    if CountAtLeast(sorted, t, m) < m {
      var c := CountAtLeast(sorted, t, m);
      assert sorted[c] < t;
      NothingAfter(sorted, t, m);
    }
  }

  lemma IdealCounts(gold: seq<Graded>, t: int, k: nat)
    requires t >= 1
    ensures CountAtLeast(IdealGrades(gold, k), t, k) == Min(k, CountFrom(Grades(gold), t))
  {
    SortIsDescendingPermutation(Grades(gold), t);
    PaddedCounts(SortDescending(Grades(gold)), t, k);
  }

  lemma {:induction false} NothingAfter(sorted: seq<int>, t: int, m: nat)
    requires IsDescending(sorted) && m <= |sorted|
    requires exists c :: 0 <= c < m && sorted[c] < t
    ensures CountFrom(sorted[m..], t) == 0
    decreases |sorted| - m
  {
    if m < |sorted| {
      NothingAfter(sorted, t, m + 1);
      assert sorted[m..][1..] == sorted[m + 1..];
    }
  }

  // -------------------------------------------------------------------------
  // nDCG.
  // -------------------------------------------------------------------------

  lemma {:induction false} DcgNotNegative(d: nat -> real, grades: seq<int>, n: nat)
    requires IsDiscount(d) && AreGradesOrZero(grades) && n <= |grades|
    ensures Dcg(d, grades, n) >= 0.0
    ensures n > 0 && grades[0] >= 1 ==> Dcg(d, grades, n) > 0.0
  {
    if n > 0 {
      DcgNotNegative(d, grades, n - 1);
      GainByThreshold(grades[n - 1]);
    }
  }

  lemma IdealIsPositive(d: nat -> real, gold: seq<Graded>, k: nat)
    requires IsDiscount(d) && HasGrades(gold) && k >= 1
    ensures Dcg(d, IdealGrades(gold, k), k) > 0.0
  {
    IdealShape(gold, k);
    SortIsDescendingPermutation(Grades(gold), 0);
    assert SortDescending(Grades(gold))[0] in Grades(gold);
    DcgNotNegative(d, IdealGrades(gold, k), k);
  }

  function Ndcg(d: nat -> real, ranked: seq<ChunkId>, gold: seq<Graded>, k: nat): real
    requires IsDiscount(d) && HasGrades(gold) && k >= 1
  {
    IdealIsPositive(d, gold, k);
    Dcg(d, TopGrades(ranked, gold, k), k) / Dcg(d, IdealGrades(gold, k), k)
  }

  lemma TopShape(ranked: seq<ChunkId>, gold: seq<Graded>, k: nat)
    requires IsGoldKey(gold) && HasGrades(gold)
    ensures AreGradesOrZero(TopGrades(ranked, gold, k))
  {
    forall i | 0 <= i < k && i < |ranked| ensures 0 <= GradeOf(gold, ranked[i]) <= MAX_GRADE {
      GradeOfEntry(gold, ranked[i]);
    }
  }

  /** One threshold of the rearrangement inequality, with its case of equality. */
  lemma ThresholdBound(d: nat -> real, ranked: seq<ChunkId>, gold: seq<Graded>, t: int, k: nat)
    requires IsDiscount(d) && NoRepeats(ranked) && IsGoldKey(gold) && HasGrades(gold) && t >= 1
    ensures Hits(d, TopGrades(ranked, gold, k), t, k) <= Hits(d, IdealGrades(gold, k), t, k)
    ensures Hits(d, TopGrades(ranked, gold, k), t, k) == Hits(d, IdealGrades(gold, k), t, k) <==>
      forall i :: 0 <= i < k ==> (TopGrades(ranked, gold, k)[i] >= t <==> IdealGrades(gold, k)[i] >= t)
  {
    var top := TopGrades(ranked, gold, k);
    var ideal := IdealGrades(gold, k);
    IdealShape(gold, k);
    DescendingIsFrontLoaded(ideal, t, k);
    FrontIsBest(d, ideal, t, k);
    FrontIsBest(d, top, t, k);
    TopCountsAreBounded(ranked, gold, t, k);
    IdealCounts(gold, t, k);
    var c := CountAtLeast(top, t, k);
    var e := CountAtLeast(ideal, t, k);
    FrontGrows(d, c, e);
    if forall i :: 0 <= i < k ==> (top[i] >= t <==> ideal[i] >= t) {
      SameHits(d, top, ideal, t, k);
    }
  }

  lemma {:induction false} SameHits(d: nat -> real, a: seq<int>, b: seq<int>, t: int, n: nat)
    requires IsDiscount(d) && n <= |a| && n <= |b|
    requires forall i :: 0 <= i < n ==> (a[i] >= t <==> b[i] >= t)
    ensures Hits(d, a, t, n) == Hits(d, b, t, n)
  {
    if n > 0 {
      SameHits(d, a, b, t, n - 1);
    }
  }

  lemma SameThresholdsSameGrade(a: int, b: int)
    requires 0 <= a <= MAX_GRADE && 0 <= b <= MAX_GRADE
    requires (a >= 1 <==> b >= 1) && (a >= 2 <==> b >= 2) && (a >= 3 <==> b >= 3)
    ensures a == b
  {
  }

  /**
   * No repeat-free ranking beats the ideal, and one ties with it exactly when
   * its top k, zero-padded, carries the ideal grades position by position.
   */
  lemma TheIdealIsBest(d: nat -> real, ranked: seq<ChunkId>, gold: seq<Graded>, k: nat)
    requires IsDiscount(d) && NoRepeats(ranked) && IsGoldKey(gold) && HasGrades(gold)
    ensures Dcg(d, TopGrades(ranked, gold, k), k) <= Dcg(d, IdealGrades(gold, k), k)
    ensures Dcg(d, TopGrades(ranked, gold, k), k) == Dcg(d, IdealGrades(gold, k), k)
      <==> TopGrades(ranked, gold, k) == IdealGrades(gold, k)
  {
    var top := TopGrades(ranked, gold, k);
    var ideal := IdealGrades(gold, k);
    TopShape(ranked, gold, k);
    IdealShape(gold, k);
    DcgByThreshold(d, top, k);
    DcgByThreshold(d, ideal, k);
    ThresholdBound(d, ranked, gold, 1, k);
    ThresholdBound(d, ranked, gold, 2, k);
    ThresholdBound(d, ranked, gold, 3, k);
    if Dcg(d, top, k) == Dcg(d, ideal, k) {
      forall i | 0 <= i < k ensures top[i] == ideal[i] {
        SameThresholdsSameGrade(top[i], ideal[i]);
      }
    }
  }

  lemma Quotient(a: real, b: real)
    requires 0.0 <= a <= b && b > 0.0
    ensures 0.0 <= a / b <= 1.0
    ensures a / b == 1.0 <==> a == b
  {
    assert b / b == 1.0;
    assert a / b * b == a;
  }

  lemma NdcgIsAtMostOne(d: nat -> real, ranked: seq<ChunkId>, gold: seq<Graded>, k: nat)
    requires IsDiscount(d) && NoRepeats(ranked) && IsGoldKey(gold) && HasGrades(gold) && k >= 1
    ensures 0.0 <= Ndcg(d, ranked, gold, k) <= 1.0
    ensures Ndcg(d, ranked, gold, k) == 1.0 <==> TopGrades(ranked, gold, k) == IdealGrades(gold, k)
  {
    TheIdealIsBest(d, ranked, gold, k);
    IdealIsPositive(d, gold, k);
    TopShape(ranked, gold, k);
    DcgNotNegative(d, TopGrades(ranked, gold, k), k);
    Quotient(Dcg(d, TopGrades(ranked, gold, k), k), Dcg(d, IdealGrades(gold, k), k));
  }

  // -------------------------------------------------------------------------
  // Moving a better chunk up.
  // -------------------------------------------------------------------------

  lemma DcgLast(d: nat -> real, grades: seq<int>, n: nat)
    requires IsDiscount(d) && 0 < n <= |grades|
    ensures Dcg(d, grades, n) == Dcg(d, grades, n - 1) + Gain(grades[n - 1]) as real / d(n)
  {
  }

  lemma {:induction false} DcgUpdate(d: nat -> real, grades: seq<int>, i: nat, x: int, n: nat)
    requires IsDiscount(d) && i < |grades| && n <= |grades|
    ensures Dcg(d, grades[i := x], n) ==
      Dcg(d, grades, n) + if i < n then (Gain(x) - Gain(grades[i])) as real * (1.0 / d(i + 1)) else 0.0
  {
    if n > 0 {
      DcgUpdate(d, grades, i, x, n - 1);
      DcgLast(d, grades, n);
      DcgLast(d, grades[i := x], n);
      if i == n - 1 {
        DivideOnce(Gain(x), Gain(grades[i]), d(n));
        assert grades[i := x][n - 1] == x;
      } else {
        assert grades[i := x][n - 1] == grades[n - 1];
      }
    }
  }

  lemma DivideOnce(a: int, b: int, d: real)
    requires d > 0.0
    ensures a as real / d - b as real / d == (a - b) as real * (1.0 / d)
  {
    assert a as real / d == a as real * (1.0 / d);
    assert b as real / d == b as real * (1.0 / d);
  }

  lemma {:induction false} PowerGrows(a: nat, b: nat)
    requires a <= b
    ensures 1 <= Power2(a) <= Power2(b)
    ensures a < b ==> Power2(a) < Power2(b)
  {
    if a < b {
      PowerGrows(a, b - 1);
    } else if a > 0 {
      PowerGrows(a - 1, b - 1);
    }
  }

  lemma GainGrows(a: int, b: int)
    requires 0 <= a <= b
    ensures Gain(a) <= Gain(b)
    ensures a < b ==> Gain(a) < Gain(b)
  {
    PowerGrows(a, b);
  }

  lemma ProductSign(x: int, w: real)
    requires x >= 0 && w > 0.0
    ensures x as real * w >= 0.0
    ensures x > 0 ==> x as real * w > 0.0
  {
  }

  /** Trading positions in favour of the better grade gains, and strictly when it can be seen. */
  lemma SwapUpGains(d: nat -> real, grades: seq<int>, i: nat, j: nat, k: nat)
    requires IsDiscount(d) && AreGradesOrZero(grades) && i < j < |grades| && k <= |grades|
    requires grades[i] <= grades[j]
    ensures Dcg(d, grades[i := grades[j]][j := grades[i]], k) >= Dcg(d, grades, k)
    ensures Dcg(d, grades[i := grades[j]][j := grades[i]], k) > Dcg(d, grades, k) <==> i < k && grades[i] < grades[j]
  {
    var better := Gain(grades[j]) - Gain(grades[i]);
    GainGrows(grades[i], grades[j]);
    DcgUpdate(d, grades, i, grades[j], k);
    DcgUpdate(d, grades[i := grades[j]], j, grades[i], k);
    WeightShrinks(d, i + 1, j + 1);
    var wi := 1.0 / d(i + 1);
    var wj := 1.0 / d(j + 1);
    if j < k {
      assert better as real * wi - better as real * wj == better as real * (wi - wj);
      assert (Gain(grades[i]) - Gain(grades[j])) as real * wj == -(better as real * wj);
      ProductSign(better, wi - wj);
    } else if i < k {
      ProductSign(better, wi);
    }
  }

  lemma {:induction false} DcgOfPrefix(d: nat -> real, a: seq<int>, b: seq<int>, n: nat)
    requires IsDiscount(d) && n <= |a| && n <= |b| && forall i :: 0 <= i < n ==> a[i] == b[i]
    ensures Dcg(d, a, n) == Dcg(d, b, n)
  {
    if n > 0 {
      DcgOfPrefix(d, a, b, n - 1);
    }
  }

  /**
   * Moving a chunk with a higher grade above one with a lower grade never
   * lowers nDCG at any cutoff, and raises it exactly when the better place is
   * inside the cutoff.
   */
  lemma MovingABetterChunkUp(d: nat -> real, ranked: seq<ChunkId>, gold: seq<Graded>, i: nat, j: nat, k: nat)
    requires IsDiscount(d) && IsGoldKey(gold) && HasGrades(gold) && k >= 1
    requires i < j < |ranked| && GradeOf(gold, ranked[i]) < GradeOf(gold, ranked[j])
    ensures var swapped := ranked[i := ranked[j]][j := ranked[i]];
      && Ndcg(d, swapped, gold, k) >= Ndcg(d, ranked, gold, k)
      && (Ndcg(d, swapped, gold, k) > Ndcg(d, ranked, gold, k) <==> i < k)
  {
    var swapped := ranked[i := ranked[j]][j := ranked[i]];
    var m := Max(k, |ranked|);
    var before := TopGrades(ranked, gold, m);
    var after := TopGrades(swapped, gold, m);
    TopShape(ranked, gold, m);
    assert after == before[i := before[j]][j := before[i]];
    SwapUpGains(d, before, i, j, k);
    DcgOfPrefix(d, before, TopGrades(ranked, gold, k), k);
    DcgOfPrefix(d, after, TopGrades(swapped, gold, k), k);
    IdealIsPositive(d, gold, k);
    var ideal := Dcg(d, IdealGrades(gold, k), k);
    QuotientOrder(Dcg(d, before, k), Dcg(d, after, k), ideal);
  }

  lemma QuotientOrder(a: real, b: real, c: real)
    requires c > 0.0 && a <= b
    ensures a / c <= b / c
    ensures a / c < b / c <==> a < b
  {
    assert b / c - a / c == (b - a) / c;
    if a < b {
      assert (b - a) / c > 0.0;
    }
  }

  // -------------------------------------------------------------------------
  // The score, answer by answer.
  // -------------------------------------------------------------------------

  /** Where a chunk is first ranked; past the end when it is not. */
  function PlaceIn(ranked: seq<ChunkId>, id: ChunkId): (p: nat)
    ensures p <= |ranked|
    ensures p < |ranked| ==> ranked[p] == id
    ensures forall i :: 0 <= i < p ==> ranked[i] != id
  {
    if ranked == [] || ranked[0] == id then 0 else 1 + PlaceIn(ranked[1..], id)
  }

  /** What one answer earns: its gain over the discount of its rank, inside the cutoff. */
  function EarnedBy(d: nat -> real, ranked: seq<ChunkId>, g: Graded, k: nat): real
    requires IsDiscount(d)
  {
    var p := PlaceIn(ranked, g.id);
    if p < |ranked| && p < k then Gain(g.grade) as real / d(p + 1) else 0.0
  }

  /** What the answers of a gold key earn together, whatever else is ranked between them. */
  function Earned(d: nat -> real, ranked: seq<ChunkId>, gold: seq<Graded>, k: nat): real
    requires IsDiscount(d)
  {
    if gold == [] then 0.0 else EarnedBy(d, ranked, gold[0], k) + Earned(d, ranked, gold[1..], k)
  }

  lemma {:induction false} DcgOfZeros(d: nat -> real, grades: seq<int>, n: nat)
    requires IsDiscount(d) && n <= |grades| && forall i :: 0 <= i < n ==> grades[i] == 0
    ensures Dcg(d, grades, n) == 0.0
  {
    if n > 0 {
      DcgOfZeros(d, grades, n - 1);
      GainByThreshold(0);
    }
  }

  lemma GradesWithOneAnswerMore(ranked: seq<ChunkId>, gold: seq<Graded>, i: nat)
    requires NoRepeats(ranked) && gold != [] && i < |ranked|
    ensures GradeOf(gold, ranked[i]) ==
      if i == PlaceIn(ranked, gold[0].id) then gold[0].grade else GradeOf(gold[1..], ranked[i])
  {
    var p := PlaceIn(ranked, gold[0].id);
    assert i < p || i == p || ranked[i] != ranked[p];
  }

  /** One answer more changes one place, if any. */
  lemma OneAnswerMore(ranked: seq<ChunkId>, gold: seq<Graded>, k: nat)
    requires NoRepeats(ranked) && gold != []
    ensures var p := PlaceIn(ranked, gold[0].id);
      TopGrades(ranked, gold, k) ==
        if p < |ranked| && p < k then TopGrades(ranked, gold[1..], k)[p := gold[0].grade]
        else TopGrades(ranked, gold[1..], k)
  {
    var p := PlaceIn(ranked, gold[0].id);
    var before := TopGrades(ranked, gold[1..], k);
    var after := if p < |ranked| && p < k then before[p := gold[0].grade] else before;
    forall i | 0 <= i < k ensures TopGrades(ranked, gold, k)[i] == after[i] {
      if i < |ranked| {
        GradesWithOneAnswerMore(ranked, gold, i);
      }
    }
  }

  lemma AFreshAnswerHadNoGrade(gold: seq<Graded>)
    requires IsGoldKey(gold) && gold != []
    ensures IsGoldKey(gold[1..]) && GradeOf(gold[1..], gold[0].id) == 0
  {
    GradeOfEntry(gold[1..], gold[0].id);
    assert forall i :: 0 <= i < |gold[1..]| ==> gold[1..][i] == gold[i + 1];
  }

  lemma GainAtAPlace(d: nat -> real, grades: seq<int>, p: nat, grade: int, n: nat)
    requires IsDiscount(d) && p < n <= |grades| && grades[p] == 0
    ensures Dcg(d, grades[p := grade], n) == Dcg(d, grades, n) + Gain(grade) as real / d(p + 1)
  {
    DcgUpdate(d, grades, p, grade, n);
    GainByThreshold(0);
    OverTheDiscount(Gain(grade), d(p + 1));
  }

  lemma OverTheDiscount(a: int, d: real)
    requires d > 0.0
    ensures a as real / d == a as real * (1.0 / d)
  {
  }

  lemma OneAnswerEarnsItsGain(d: nat -> real, ranked: seq<ChunkId>, gold: seq<Graded>, k: nat)
    requires IsDiscount(d) && NoRepeats(ranked) && IsGoldKey(gold) && gold != []
    ensures Dcg(d, TopGrades(ranked, gold, k), k) ==
      Dcg(d, TopGrades(ranked, gold[1..], k), k) + EarnedBy(d, ranked, gold[0], k)
  {
    OneAnswerMore(ranked, gold, k);
    var p := PlaceIn(ranked, gold[0].id);
    if p < |ranked| && p < k {
      AFreshAnswerHadNoGrade(gold);
      GainAtAPlace(d, TopGrades(ranked, gold[1..], k), p, gold[0].grade, k);
    }
  }

  /** The sum over ranks is the sum over answers. */
  lemma {:induction false} AnswersEarnTheGain(d: nat -> real, ranked: seq<ChunkId>, gold: seq<Graded>, k: nat)
    requires IsDiscount(d) && NoRepeats(ranked) && IsGoldKey(gold)
    ensures Dcg(d, TopGrades(ranked, gold, k), k) == Earned(d, ranked, gold, k)
  {
    if gold == [] {
      DcgOfZeros(d, TopGrades(ranked, gold, k), k);
    } else {
      AFreshAnswerHadNoGrade(gold);
      AnswersEarnTheGain(d, ranked, gold[1..], k);
      OneAnswerEarnsItsGain(d, ranked, gold, k);
    }
  }

  /**
   * nDCG is what the answers earn where they are ranked, as a share of what
   * they earn in any ranking that scores 1.
   */
  lemma NdcgIsTheShareEarned(d: nat -> real, ranked: seq<ChunkId>, best: seq<ChunkId>, gold: seq<Graded>, k: nat)
    requires IsDiscount(d) && NoRepeats(ranked) && NoRepeats(best) && IsGoldKey(gold) && HasGrades(gold) && k >= 1
    requires Ndcg(d, best, gold, k) == 1.0
    ensures Earned(d, best, gold, k) > 0.0
    ensures Ndcg(d, ranked, gold, k) == Earned(d, ranked, gold, k) / Earned(d, best, gold, k)
  {
    NdcgIsAtMostOne(d, best, gold, k);
    IdealIsPositive(d, gold, k);
    AnswersEarnTheGain(d, ranked, gold, k);
    AnswersEarnTheGain(d, best, gold, k);
  }

  /** An only answer, ranked first, is ideal. */
  lemma AnOnlyAnswerFirst(d: nat -> real, id: ChunkId, grade: int, k: nat)
    requires IsDiscount(d) && IsGrade(grade) && k >= 1
    ensures Ndcg(d, [id], [Graded(id, grade)], k) == 1.0
  {
    var gold := [Graded(id, grade)];
    assert gold[1..] == [];
    assert Grades(gold) == [grade] && [grade][1..] == [];
    assert SortDescending([]) == [];
    assert SortDescending([grade]) == [grade];
    assert TopGrades([id], gold, k) == IdealGrades(gold, k);
    NdcgIsAtMostOne(d, [id], gold, k);
  }

  lemma Ratio(g: real, a: real, b: real)
    requires g > 0.0 && a > 0.0 && b > 0.0
    ensures (g / b) / (g / a) == a / b
  {
    assert g / a > 0.0;
    assert (a / b) * (g / a) == g / b;
  }

  /** An only answer at rank r scores the first discount over that of r, whatever its grade; missed, nothing. */
  lemma AnOnlyAnswerScoresItsDiscount(d: nat -> real, ranked: seq<ChunkId>, id: ChunkId, grade: int, k: nat)
    requires IsDiscount(d) && NoRepeats(ranked) && IsGrade(grade) && k >= 1
    ensures forall r :: 0 <= r < |ranked| && ranked[r] == id ==>
      Ndcg(d, ranked, [Graded(id, grade)], k) == if r < k then d(1) / d(r + 1) else 0.0
    ensures id !in ranked ==> Ndcg(d, ranked, [Graded(id, grade)], k) == 0.0
  {
    var gold := [Graded(id, grade)];
    AnOnlyAnswerFirst(d, id, grade, k);
    NdcgIsTheShareEarned(d, ranked, [id], gold, k);
    GainByThreshold(grade);
    assert gold[1..] == [];
    var p := PlaceIn(ranked, id);
    assert forall r :: 0 <= r < |ranked| && ranked[r] == id ==> r == p;
    if p < |ranked| && p < k {
      Ratio(Gain(grade) as real, d(1), d(p + 1));
    }
  }

  // -------------------------------------------------------------------------
  // The code.
  // -------------------------------------------------------------------------

  method AssertNoRepeats(ranked: seq<ChunkId>) returns (repeated: Option<ChunkId>)
    ensures repeated.None? <==> NoRepeats(ranked)
    ensures repeated.Some? ==> exists i, j :: 0 <= i < j < |ranked| && ranked[i] == ranked[j] == repeated.value
  {
    var seen: set<ChunkId> := {};
    for i := 0 to |ranked|
      invariant seen == set j | 0 <= j < i :: ranked[j]
      invariant NoRepeats(ranked[..i])
    {
      if ranked[i] in seen {
        return Some(ranked[i]);
      }
      seen := seen + {ranked[i]};
    }
    assert ranked[..|ranked|] == ranked;
    repeated := None;
  }

  method AssertGrades(gold: seq<Graded>) returns (fault: Option<MetricError>)
    ensures fault.None? <==> HasGrades(gold)
    ensures fault == Some(EmptyGoldKey) <==> gold == []
  {
    if |gold| == 0 {
      return Some(EmptyGoldKey);
    }
    for i := 0 to |gold|
      invariant forall j :: 0 <= j < i ==> IsGrade(gold[j].grade)
    {
      if gold[i].grade < 1 || gold[i].grade > MAX_GRADE {
        return Some(BadGrade(gold[i].id));
      }
    }
    fault := None;
  }

  lemma {:induction false} ZerosAddNoGain(d: nat -> real, grades: seq<int>, m: nat, n: nat)
    requires IsDiscount(d) && m <= n <= |grades| && forall i :: m <= i < n ==> grades[i] == 0
    ensures Dcg(d, grades, n) == Dcg(d, grades, m)
  {
    if m < n {
      ZerosAddNoGain(d, grades, m, n - 1);
      assert Gain(0) == 0;
    }
  }

  method CumulateRanked(d: nat -> real, ranked: seq<ChunkId>, gold: seq<Graded>, k: nat) returns (dcg: real)
    requires IsDiscount(d)
    ensures dcg == Dcg(d, TopGrades(ranked, gold, k), k)
  {
    ghost var top := TopGrades(ranked, gold, k);
    dcg := 0.0;
    for i := 0 to Min(k, |ranked|)
      invariant dcg == Dcg(d, top, i)
    {
      var grade := GradeOf(gold, ranked[i]);
      if grade != 0 {
        dcg := dcg + Gain(grade) as real / d(i + 1);
      } else {
        assert Gain(top[i]) == 0;
      }
    }
    ZerosAddNoGain(d, top, Min(k, |ranked|), k);
  }

  method CumulateIdeal(d: nat -> real, gold: seq<Graded>, k: nat) returns (idcg: real)
    requires IsDiscount(d)
    ensures idcg == Dcg(d, IdealGrades(gold, k), k)
  {
    ghost var best := IdealGrades(gold, k);
    var ideal := SortDescending(Grades(gold));
    idcg := 0.0;
    for i := 0 to Min(k, |ideal|)
      invariant idcg == Dcg(d, best, i)
    {
      idcg := idcg + Gain(ideal[i]) as real / d(i + 1);
    }
    ZerosAddNoGain(d, best, Min(k, |ideal|), k);
  }

  method NdcgAt(d: nat -> real, ranked: seq<ChunkId>, gold: seq<Graded>, k: int)
    returns (r: Result<real, MetricError>)
    requires IsDiscount(d) && IsGoldKey(gold)
    ensures r.Ok? <==> k >= 1 && HasGrades(gold) && NoRepeats(ranked)
    ensures r.Ok? ==> r.value == Ndcg(d, ranked, gold, k)
  {
    if k < 1 {
      return Err(BadCutoff);
    }
    var grades := AssertGrades(gold);
    if grades.Some? {
      return Err(grades.value);
    }
    var repeated := AssertNoRepeats(ranked);
    if repeated.Some? {
      return Err(Repeated(repeated.value));
    }
    IdealIsPositive(d, gold, k);
    if |ranked| == 0 {
      ZerosAddNoGain(d, TopGrades(ranked, gold, k), 0, k);
      return Ok(0.0);
    }
    var dcg := CumulateRanked(d, ranked, gold, k);
    var idcg := CumulateIdeal(d, gold, k);
    r := Ok(dcg / idcg);
  }

  /** Some answer is among the first k. */
  predicate IsHit(ranked: seq<ChunkId>, answers: seq<ChunkId>, k: int) {
    exists i :: 0 <= i < k && i < |ranked| && ranked[i] in answers
  }

  method HitAt(ranked: seq<ChunkId>, answers: seq<ChunkId>, k: int) returns (r: Result<int, MetricError>)
    ensures r.Ok? <==> k >= 1 && answers != [] && NoRepeats(ranked)
    ensures r.Ok? ==> r.value == if IsHit(ranked, answers, k) then 1 else 0
  {
    if k < 1 {
      return Err(BadCutoff);
    }
    if |answers| == 0 {
      return Err(NoAnswers);
    }
    var repeated := AssertNoRepeats(ranked);
    if repeated.Some? {
      return Err(Repeated(repeated.value));
    }
    var wanted := set answer | answer in answers;
    for i := 0 to Min(k, |ranked|)
      invariant forall j :: 0 <= j < i ==> ranked[j] !in answers
    {
      if ranked[i] in wanted {
        return Ok(1);
      }
    }
    r := Ok(0);
  }

  /** Which duplicate group a chunk belongs to, if any. */
  type Grouping = ChunkId -> Option<GroupId>

  /** Some member of the group is among the first k. */
  predicate Reaches(ranked: seq<ChunkId>, groupOf: Grouping, group: GroupId, k: int) {
    exists i :: 0 <= i < k && i < |ranked| && groupOf(ranked[i]) == Some(group)
  }

  predicate ReachesAll(ranked: seq<ChunkId>, required: seq<GroupId>, groupOf: Grouping, k: int) {
    forall g :: 0 <= g < |required| ==> Reaches(ranked, groupOf, required[g], k)
  }

  method DilutionHitAt(ranked: seq<ChunkId>, required: seq<GroupId>, groupOf: Grouping, k: int)
    returns (r: Result<int, MetricError>)
    ensures r.Ok? <==> k >= 1 && required != [] && NoRepeats(ranked)
    ensures r.Ok? ==> r.value == if ReachesAll(ranked, required, groupOf, k) then 1 else 0
  {
    if k < 1 {
      return Err(BadCutoff);
    }
    if |required| == 0 {
      return Err(NoRequiredGroups);
    }
    var repeated := AssertNoRepeats(ranked);
    if repeated.Some? {
      return Err(Repeated(repeated.value));
    }
    var found: set<GroupId> := {};
    for i := 0 to Min(k, |ranked|)
      invariant forall group :: group in found <==> Reaches(ranked, groupOf, group, i)
    {
      var group := groupOf(ranked[i]);
      ghost var before := found;
      if group.Some? {
        found := found + {group.value};
      }
      forall g ensures g in found <==> Reaches(ranked, groupOf, g, i + 1) {
        if g in found && g !in before {
          assert groupOf(ranked[i]) == Some(g);
        }
      }
    }
    assert forall g :: Reaches(ranked, groupOf, g, k) <==> Reaches(ranked, groupOf, g, Min(k, |ranked|));
    r := Ok(if forall g :: 0 <= g < |required| ==> required[g] in found then 1 else 0);
  }

  /** How many of the first `n` slots hold a chunk of some group. */
  function GroupedSlots(ranked: seq<ChunkId>, groupOf: Grouping, n: nat): nat
    requires n <= |ranked|
  {
    if n == 0 then 0
    else GroupedSlots(ranked, groupOf, n - 1) + if groupOf(ranked[n - 1]).Some? then 1 else 0
  }

  ghost function GroupsSeen(ranked: seq<ChunkId>, groupOf: Grouping, n: nat): set<GroupId>
    requires n <= |ranked|
  {
    set i | 0 <= i < n && groupOf(ranked[i]).Some? :: groupOf(ranked[i]).value
  }

  /** The redundant slots are the grouped ones less one for each group that appears. */
  method CountRedundant(ranked: seq<ChunkId>, groupOf: Grouping, filled: nat) returns (redundant: int)
    requires filled <= |ranked|
    ensures redundant == GroupedSlots(ranked, groupOf, filled) - |GroupsSeen(ranked, groupOf, filled)|
  {
    var seen: set<GroupId> := {};
    redundant := 0;
    for i := 0 to filled
      invariant seen == GroupsSeen(ranked, groupOf, i)
      invariant redundant == GroupedSlots(ranked, groupOf, i) - |seen|
    {
      var group := groupOf(ranked[i]);
      if group.Some? {
        assert GroupsSeen(ranked, groupOf, i + 1) == seen + {group.value};
        if group.value in seen {
          redundant := redundant + 1;
        } else {
          seen := seen + {group.value};
        }
      } else {
        assert GroupsSeen(ranked, groupOf, i + 1) == seen;
      }
    }
  }

  /** The share of the filled slots taken by a group that already appeared higher up. */
  method DuplicateOccupancyAt(ranked: seq<ChunkId>, groupOf: Grouping, k: int) returns (r: Result<real, MetricError>)
    ensures r.Ok? <==> k >= 1 && NoRepeats(ranked) && ranked != []
    ensures r.Ok? ==>
      var filled := Min(k, |ranked|);
      r.value == (GroupedSlots(ranked, groupOf, filled) - |GroupsSeen(ranked, groupOf,
        filled)|) as real / filled as real
  {
    if k < 1 {
      return Err(BadCutoff);
    }
    var repeated := AssertNoRepeats(ranked);
    if repeated.Some? {
      return Err(Repeated(repeated.value));
    }
    if |ranked| == 0 {
      return Err(EmptyRanking);
    }
    var filled := Min(k, |ranked|);
    var redundant := CountRedundant(ranked, groupOf, filled);
    r := Ok(redundant as real / filled as real);
  }
}
