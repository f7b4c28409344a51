/**
 * When the oracle of `evals/baselines.ts` wins a dilution query: its order, and
 * which duplicate groups that brings into the first three places.
 */
module Oracles {
  import opened Prelude
  import opened Metrics
  import opened Corpora
  import opened EvalRun

  // -------------------------------------------------------------------------
  // The oracle's order.
  // -------------------------------------------------------------------------

  lemma PrecedesIsATotalOrder()
    ensures IsTotalOrder(Precedes)
    ensures forall a, b :: Precedes(a, b) && Precedes(b, a) ==> a == b
  {
    forall a: Graded, b: Graded
      ensures Precedes(a, b) || Precedes(b, a)
      ensures Precedes(a, b) && Precedes(b, a) ==> a == b
    {
      StringsCompare(a.id, b.id);
    }
    forall a, b, c | Precedes(a, b) && Precedes(b, c) ensures Precedes(a, c) {
      if a.grade == b.grade == c.grade {
        StringsChain(a.id, b.id, c.id);
      }
    }
  }

  /** The entries of a gold key that come before `e`: of a better grade, or of the same and a lesser id. */
  function Ahead(gold: seq<Graded>, e: Graded): set<Graded> {
    set f | f in gold && f != e && (f.grade > e.grade || (f.grade == e.grade && StringAtMost(f.id, e.id)))
  }

  lemma {:induction false} FirstOnesAreThatMany<T>(s: seq<T>, n: nat)
    requires n <= |s| && forall i, j :: 0 <= i < j < |s| ==> s[i] != s[j]
    ensures |set i | 0 <= i < n :: s[i]| == n
  {
    if n > 0 {
      FirstOnesAreThatMany(s, n - 1);
      var before := set i | 0 <= i < n - 1 :: s[i];
      assert (set i | 0 <= i < n :: s[i]) == before + {s[n - 1]};
      assert s[n - 1] !in before;
    }
  }

  lemma SortedGoldKey(gold: seq<Graded>)
    requires IsGoldKey(gold)
    ensures var sorted := SortGraded(gold);
      && IsGoldKey(sorted) && IsSortedBy(sorted, Precedes)
      && (forall e :: e in sorted <==> e in gold)
  {
    var sorted := SortGraded(gold);
    SortGradedShape(gold, 1);
    PermutedKeysStayDistinct(gold, sorted);
    PrecedesIsATotalOrder();
    SortBySorts(gold, Precedes);
    forall e ensures e in sorted <==> e in gold {
      assert e in multiset(sorted) <==> e in multiset(gold);
    }
  }

  /** An entry's place in the oracle's order is the number of entries ahead of it. */
  lemma PlaceIsTheNumberAhead(gold: seq<Graded>, i: nat)
    requires IsGoldKey(gold) && i < |SortGraded(gold)|
    ensures |Ahead(gold, SortGraded(gold)[i])| == i
  {
    var sorted := SortGraded(gold);
    SortedGoldKey(gold);
    PrecedesIsATotalOrder();
    var firsts := set j | 0 <= j < i :: sorted[j];
    forall f | f in Ahead(gold, sorted[i]) ensures f in firsts {
      var j :| 0 <= j < |sorted| && sorted[j] == f;
      assert !(i < j);
    }
    forall f | f in firsts ensures f in Ahead(gold, sorted[i]) {
      var j :| 0 <= j < i && sorted[j] == f;
      assert Precedes(sorted[j], sorted[i]);
    }
    assert Ahead(gold, sorted[i]) == firsts;
    FirstOnesAreThatMany(sorted, i);
  }

  // -------------------------------------------------------------------------
  // Dilution.
  // -------------------------------------------------------------------------

  /** The gold key has a member of the group with fewer than `k` entries ahead of it. */
  ghost predicate HasAmongFirst(gold: seq<Graded>, groupOf: Grouping, group: GroupId, k: nat) {
    exists e :: e in gold && groupOf(e.id) == Some(group) && |Ahead(gold, e)| < k
  }

  lemma TheOracleReachesIff(gold: seq<Graded>, groupOf: Grouping, group: GroupId, k: nat)
    requires IsGoldKey(gold) && k <= RESULT_LIMIT
    ensures Reaches(GoldOracle(gold), groupOf, group, k) <==> HasAmongFirst(gold, groupOf, group, k)
  {
    var sorted := SortGraded(gold);
    var ranked := GoldOracle(gold);
    SortedGoldKey(gold);
    if Reaches(ranked, groupOf, group, k) {
      var i :| 0 <= i < k && i < |ranked| && groupOf(ranked[i]) == Some(group);
      PlaceIsTheNumberAhead(gold, i);
      assert sorted[i] in gold;
    }
    if HasAmongFirst(gold, groupOf, group, k) {
      var e :| e in gold && groupOf(e.id) == Some(group) && |Ahead(gold, e)| < k;
      var i :| 0 <= i < |sorted| && sorted[i] == e;
      PlaceIsTheNumberAhead(gold, i);
      assert ranked[i] == e.id;
    }
  }

  /**
   * On a dilution query of an accepted corpus the oracle scores 1 exactly when
   * each required group has a member of the gold key among its first three, by
   * grade and then by id; otherwise it scores 0.
   */
  lemma TheOracleWinsDilutionIff(d: nat -> real, input: CorpusInput, c: Corpus, i: nat, s: Scored)
    requires IsDiscount(d) && IsAcceptable(input) && IsBuiltFrom(c, input) && i < |c.queries|
    requires IsRecord(c.queries[i].supporting) && c.queries[i].family.Dilution?
    requires CanScore(c, c.queries[i], Oracle()(c.queries[i]))
    requires IsScore(d, c, c.queries[i], Oracle()(c.queries[i]), s)
    ensures var q := c.queries[i];
      && (s.dilutionHit3 == Some(1.0) <==>
            forall g :: 0 <= g < |Required(q)| ==> HasAmongFirst(GoldKey(q), c.GroupOf, Required(q)[g], 3))
      && (s.dilutionHit3 == Some(1.0) || s.dilutionHit3 == Some(0.0))
  {
    var q := c.queries[i];
    TheOracleScoresOne(d, input, c, i, s);
    TheOracleIsPerfect(d, input, i);
    forall g | 0 <= g < |Required(q)|
      ensures Reaches(GoldOracle(GoldKey(q)), c.GroupOf, Required(q)[g], 3)
        <==> HasAmongFirst(GoldKey(q), c.GroupOf, Required(q)[g], 3)
    {
      TheOracleReachesIff(GoldKey(q), c.GroupOf, Required(q)[g], 3);
    }
  }

  /** Four groups do not fit three places: no ranking at all reaches them. */
  lemma NoRankingReachesFourGroups(ranked: seq<ChunkId>, groupOf: Grouping, required: seq<GroupId>)
    requires |required| > 3 && IsDistinct(required)
    ensures !ReachesAll(ranked, required, groupOf, 3)
  {
    if ReachesAll(ranked, required, groupOf, 3) {
      assert Reaches(ranked, groupOf, required[0], 3) && Reaches(ranked, groupOf, required[1], 3);
      assert Reaches(ranked, groupOf, required[2], 3) && Reaches(ranked, groupOf, required[3], 3);
      var a :| 0 <= a < 3 && a < |ranked| && groupOf(ranked[a]) == Some(required[0]);
      var b :| 0 <= b < 3 && b < |ranked| && groupOf(ranked[b]) == Some(required[1]);
      var c :| 0 <= c < 3 && c < |ranked| && groupOf(ranked[c]) == Some(required[2]);
      var e :| 0 <= e < 3 && e < |ranked| && groupOf(ranked[e]) == Some(required[3]);
      assert false;
    }
  }
}
