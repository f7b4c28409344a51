/**
 * Whole numbers as JavaScript numbers: every one up to 2^53; above, the gap between
 * neighbours doubles with each power of two, and values round to the nearest, ties to even.
 */
module Doubles {

  /** 2^53, up to where every whole number is a double. */
  const EXACT_LIMIT: int := 9007199254740992

  /** The gap between the doubles around `n`. */
  function Gap(n: nat): (gap: nat)
    ensures gap >= 1 && n < EXACT_LIMIT * gap
    ensures gap == 1 || (gap % 2 == 0 && EXACT_LIMIT * (gap / 2) <= n)
  {
    if n < EXACT_LIMIT then 1 else 2 * Gap(n / 2)
  }

  predicate IsDouble(n: nat) {
    n % Gap(n) == 0
  }

  /** `quotient` gaps and a rest, to the nearest whole number of gaps; a tie goes to the even one. */
  function Rounded(quotient: nat, rest: nat, gap: nat): (q: nat)
    ensures quotient <= q <= quotient + 1
  {
    if 2 * rest < gap || (2 * rest == gap && quotient % 2 == 0) then quotient else quotient + 1
  }

  /** The nearest double. */
  function ToDouble(n: nat): nat {
    Rounded(n / Gap(n), n % Gap(n), Gap(n)) * Gap(n)
  }

  lemma Split(n: nat, gap: nat)
    requires gap >= 1
    ensures n == n / gap * gap + n % gap && n % gap < gap
  {
  }

  /** The gap is the same up to the next power of two. */
  lemma {:induction false} GapStays(n: nat, m: nat)
    requires n <= m < EXACT_LIMIT * Gap(n)
    ensures Gap(m) == Gap(n)
  {
    if n >= EXACT_LIMIT {
      GapStays(n / 2, m / 2);
    }
  }

  /** And at least twice as wide from there. */
  lemma {:induction false} GapDoubles(n: nat, m: nat)
    requires EXACT_LIMIT * Gap(n) <= m
    ensures 2 * Gap(n) <= Gap(m)
  {
    if n >= EXACT_LIMIT {
      GapDoubles(n / 2, m / 2);
    }
  }

  /** Up to 2^53 nothing is rounded. */
  lemma SmallNumbersAreDoubles(n: nat)
    requires n <= EXACT_LIMIT
    ensures IsDouble(n) && ToDouble(n) == n
  {
    if n == EXACT_LIMIT {
      assert Gap(n / 2) == 1;
    }
  }

  /** A number survives the conversion exactly when it is a double. */
  lemma ExactIffDouble(n: nat)
    ensures ToDouble(n) == n <==> IsDouble(n)
  {
    Split(n, Gap(n));
  }

  lemma MultiplesOrder(a: int, b: int, gap: nat)
    requires a <= b
    ensures a * gap <= b * gap
  {
  }

  lemma QuotientBounds(n: nat, q: nat, gap: nat)
    requires gap >= 1
    ensures q * gap <= n ==> q <= n / gap
    ensures n < q * gap ==> n / gap < q
  {
    Split(n, gap);
    if q * gap <= n && n / gap < q {
      MultiplesOrder(n / gap + 1, q, gap);
    }
    if n < q * gap && q <= n / gap {
      MultiplesOrder(q, n / gap, gap);
    }
  }

  lemma RoundedOrder(n: nat, m: nat, gap: nat)
    requires n <= m && gap >= 1
    ensures Rounded(n / gap, n % gap, gap) <= Rounded(m / gap, m % gap, gap)
  {
    Split(n, gap);
    Split(m, gap);
    QuotientBounds(m, n / gap, gap);
  }

  lemma WiderGapOrder(n: nat, m: nat)
    requires EXACT_LIMIT * Gap(n) <= m
    ensures ToDouble(n) <= ToDouble(m)
  {
    var gap, wider := Gap(n), Gap(m);
    var half := EXACT_LIMIT / 2;
    GapDoubles(n, m);
    QuotientBounds(n, EXACT_LIMIT, gap);
    MultiplesOrder(Rounded(n / gap, n % gap, gap), EXACT_LIMIT, gap);
    assert half * wider == EXACT_LIMIT * (wider / 2);
    QuotientBounds(m, half, wider);
    MultiplesOrder(half, Rounded(m / wider, m % wider, wider), wider);
  }

  /** Rounding keeps the order of numbers. */
  lemma ToDoubleIsMonotone(n: nat, m: nat)
    requires n <= m
    ensures ToDouble(n) <= ToDouble(m)
  {
    if m < EXACT_LIMIT * Gap(n) {
      GapStays(n, m);
      RoundedOrder(n, m, Gap(n));
      MultiplesOrder(Rounded(n / Gap(n), n % Gap(n), Gap(n)), Rounded(m / Gap(n), m % Gap(n), Gap(n)), Gap(n));
    } else {
      WiderGapOrder(n, m);
    }
  }

  // -------------------------------------------------------------------------
  // What the conversion means.
  // -------------------------------------------------------------------------

  /** Between two powers of two the gap is that of any number there. */
  lemma GapBelow(n: nat, m: nat)
    requires m <= n && (Gap(n) == 1 || EXACT_LIMIT * (Gap(n) / 2) <= m)
    ensures Gap(m) == Gap(n)
  {
    if EXACT_LIMIT * Gap(m) <= n {
      GapDoubles(m, n);
      assert false;
    } else {
      GapStays(m, n);
    }
  }

  lemma GapAround(n: nat, m: nat)
    requires (Gap(n) == 1 || EXACT_LIMIT * (Gap(n) / 2) <= m) && m < EXACT_LIMIT * Gap(n)
    ensures Gap(m) == Gap(n)
  {
    if m <= n {
      GapBelow(n, m);
    } else {
      GapStays(n, m);
    }
  }

  /** The multiples of the gap that enclose `n` start no lower than the gap does. */
  lemma EnclosedFromBelow(n: nat)
    ensures Gap(n) == 1 || EXACT_LIMIT * (Gap(n) / 2) <= n / Gap(n) * Gap(n)
    ensures n / Gap(n) < EXACT_LIMIT
  {
    var gap := Gap(n);
    QuotientBounds(n, EXACT_LIMIT, gap);
    if gap > 1 {
      var half := EXACT_LIMIT / 2;
      assert half * gap == EXACT_LIMIT * (gap / 2);
      QuotientBounds(n, half, gap);
      MultiplesOrder(half, n / gap, gap);
    }
  }

  lemma MultiplesHaveNoRest(q: nat, gap: nat)
    requires gap >= 1
    ensures q * gap % gap == 0 && q * gap / gap == q
  {
    QuotientBounds(q * gap, q, gap);
    assert (q + 1) * gap == q * gap + gap;
    QuotientBounds(q * gap, q + 1, gap);
    Split(q * gap, gap);
  }

  lemma PowersAreDoubles(gap: nat, n: nat)
    requires Gap(n) == gap
    ensures IsDouble(EXACT_LIMIT * gap)
  {
    var next := EXACT_LIMIT * gap;
    GapDoubles(n, next);
    assert gap == Gap(next) / 2;
    var half := EXACT_LIMIT / 2;
    assert next == half * Gap(next);
    MultiplesHaveNoRest(half, Gap(next));
  }

  lemma MultiplesOrderStrictly(a: int, b: int, gap: nat)
    requires a < b && gap >= 1
    ensures a * gap < b * gap
  {
    MultiplesOrder(a + 1, b, gap);
    assert (a + 1) * gap == a * gap + gap;
  }

  lemma MultiplesAreDoubles(n: nat, q: nat)
    requires n / Gap(n) <= q < EXACT_LIMIT
    ensures IsDouble(q * Gap(n))
  {
    EnclosedFromBelow(n);
    MultiplesOrder(n / Gap(n), q, Gap(n));
    MultiplesOrderStrictly(q, EXACT_LIMIT, Gap(n));
    GapAround(n, q * Gap(n));
    MultiplesHaveNoRest(q, Gap(n));
  }

  lemma ToDoubleIsADouble(n: nat)
    ensures IsDouble(ToDouble(n))
  {
    var q := Rounded(n / Gap(n), n % Gap(n), Gap(n));
    EnclosedFromBelow(n);
    if q == EXACT_LIMIT {
      PowersAreDoubles(Gap(n), n);
    } else {
      MultiplesAreDoubles(n, q);
    }
  }

  function Distance(a: int, b: int): nat {
    if a <= b then b - a else a - b
  }

  /** A double lies at or outside the two multiples of the gap that enclose `n`. */
  lemma NoDoubleInside(n: nat, m: nat)
    requires n / Gap(n) * Gap(n) < m < (n / Gap(n) + 1) * Gap(n)
    ensures !IsDouble(m)
  {
    var gap := Gap(n);
    var q := n / gap;
    EnclosedFromBelow(n);
    MultiplesOrder(q + 1, EXACT_LIMIT, gap);
    GapAround(n, m);
    QuotientBounds(m, q, gap);
    QuotientBounds(m, q + 1, gap);
    Split(m, gap);
  }

  /** The conversion gives a double, and no double is nearer. */
  lemma ToDoubleIsNearest(n: nat, m: nat)
    requires IsDouble(m)
    ensures IsDouble(ToDouble(n)) && Distance(ToDouble(n), n) <= Distance(m, n)
  {
    var gap := Gap(n);
    ToDoubleIsADouble(n);
    Split(n, gap);
    assert (n / gap + 1) * gap == n / gap * gap + gap;
    if n / gap * gap < m < (n / gap + 1) * gap {
      NoDoubleInside(n, m);
    }
  }

  lemma SplitIsUnique(n: nat, q: nat, rest: nat, gap: nat)
    requires n == q * gap + rest && rest < gap
    ensures n / gap == q && n % gap == rest
  {
    assert (q + 1) * gap == q * gap + gap;
    QuotientBounds(n, q, gap);
    QuotientBounds(n, q + 1, gap);
    Split(n, gap);
  }

  lemma OneMoreSplits(n: nat, gap: nat)
    requires gap >= 2 && n % gap == 0
    ensures (n + 1) / gap == n / gap && (n + 1) % gap == 1 && n / gap * gap == n
  {
    Split(n, gap);
    SplitIsUnique(n + 1, n / gap, 1, gap);
  }

  lemma OneMoreHasTheSameGap(n: nat)
    requires IsDouble(n) && Gap(n) >= 2
    ensures Gap(n + 1) == Gap(n)
  {
    OneMoreSplits(n, Gap(n));
    EnclosedFromBelow(n);
    MultiplesOrderStrictly(n / Gap(n), EXACT_LIMIT, Gap(n));
    MultiplesOrder(n / Gap(n) + 1, EXACT_LIMIT, Gap(n));
    assert (n / Gap(n) + 1) * Gap(n) == n + Gap(n);
    GapStays(n, n + 1);
  }

  /** One past a double rounds back to it, unless it is halfway to a next one that is even. */
  lemma OnePastRoundsDown(n: nat)
    requires n >= EXACT_LIMIT && IsDouble(n) && (Gap(n) > 2 || n / 2 % 2 == 0)
    ensures ToDouble(n + 1) == n
  {
    OneMoreHasTheSameGap(n);
    OneMoreSplits(n, Gap(n));
  }
}
