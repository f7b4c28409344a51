/** Types and small facts that several modules share. */
module Prelude {

  datatype Option<+T> = None | Some(value: T)

  datatype Result<+T, +E> = Ok(value: T) | Err(error: E)

  /** `Number.MAX_SAFE_INTEGER`, 2^53 - 1. */
  const MAX_SAFE_INTEGER: int := 9007199254740991

  /**
   * A JavaScript number, as finely as the integer checks of the repository can
   * tell numbers apart. `NotWhole` covers fractions, infinities and NaN; its
   * field says which side of `x <= 0` the value falls on (NaN answers false).
   */
  datatype Number = Whole(n: int) | NotWhole(atMostZero: bool)
  {
    /** `Number.isSafeInteger` */
    predicate IsSafeInteger() {
      Whole? && -MAX_SAFE_INTEGER <= n <= MAX_SAFE_INTEGER
    }

    /** `x <= 0` */
    predicate IsAtMostZero() {
      if Whole? then n <= 0 else atMostZero
    }

    /** A safe integer that is not negative: a token count, a rate, a delta. */
    predicate IsCountable() {
      IsSafeInteger() && n >= 0
    }
  }

  /** The whole numbers strictly between -2^53 and 2^53. */
  lemma TheSafeIntegers(n: int)
    ensures Whole(n).IsSafeInteger() <==> -9007199254740992 < n < 9007199254740992
    ensures Whole(n).IsAtMostZero() <==> n < 1
  {
  }

  function Min(a: int, b: int): int {
    if a <= b then a else b
  }

  function Max(a: int, b: int): int {
    if a >= b then a else b
  }

  /** White space, as `String.prototype.trim` removes it. */
  predicate IsSpace(c: char) {
    || '\U{0009}' <= c <= '\U{000D}' || c == ' ' || c == '\U{00A0}' || c == '\U{1680}'
    || '\U{2000}' <= c <= '\U{200A}' || c == '\U{2028}' || c == '\U{2029}'
    || c == '\U{202F}' || c == '\U{205F}' || c == '\U{3000}' || c == '\U{FEFF}'
  }

  /** `s.trim().length === 0` */
  predicate IsBlank(s: string) {
    forall i :: 0 <= i < |s| ==> IsSpace(s[i])
  }

  /** `s.trim()` */
  function Trim(s: string): string {
    if s == "" then s
    else if IsSpace(s[0]) then Trim(s[1..])
    else if IsSpace(s[|s| - 1]) then Trim(s[..|s| - 1])
    else s
  }

  lemma {:induction false} BlankTrimsToNothing(s: string)
    ensures IsBlank(s) <==> Trim(s) == ""
  {
    if s != "" {
      if IsSpace(s[0]) {
        BlankTrimsToNothing(s[1..]);
        assert s == [s[0]] + s[1..];
      } else if IsSpace(s[|s| - 1]) {
        BlankTrimsToNothing(s[..|s| - 1]);
        assert s == s[..|s| - 1] + [s[|s| - 1]];
      }
    }
  }

  /** By their codes: white space and line terminators (sections 12.2 and 12.3 of ECMA-262, 13th edition). */
  lemma WhichCharactersAreSpaces(c: char)
    ensures IsSpace(c) <==> c as int in {
      9, 10, 11, 12, 13, 32, 160, 5760, 8192, 8193, 8194, 8195, 8196, 8197, 8198, 8199, 8200, 8201, 8202,
      8232, 8233, 8239, 8287, 12288, 65279}
  {
  }

  /** What is left between the white space at both ends. */
  lemma {:induction false} TrimTakesOffTheEnds(s: string) returns (i: nat, j: nat)
    ensures i <= j <= |s| && Trim(s) == s[i..j]
    ensures forall k :: 0 <= k < i || j <= k < |s| ==> IsSpace(s[k])
    ensures i < j ==> !IsSpace(s[i]) && !IsSpace(s[j - 1])
  {
    i, j := 0, |s|;
    if s != "" && IsSpace(s[0]) {
      i, j := TrimTakesOffTheEnds(s[1..]);
      i, j := i + 1, j + 1;
      assert forall k :: 0 < k < |s| ==> s[k] == s[1..][k - 1];
    } else if s != "" && IsSpace(s[|s| - 1]) {
      i, j := TrimTakesOffTheEnds(s[..|s| - 1]);
      assert forall k :: 0 <= k < |s| - 1 ==> s[k] == s[..|s| - 1][k];
    }
  }

  predicate IsDigit(c: char) {
    '0' <= c <= '9'
  }

  /** `dddd-dd-dd`, the whole string. */
  predicate IsIsoDate(s: string) {
    && |s| == 10
    && s[4] == '-' && s[7] == '-'
    && forall i :: 0 <= i < 10 && i != 4 && i != 7 ==> IsDigit(s[i])
  }

  /** The sum of `f` over a sequence. */
  function SumOf<T>(f: T -> int, s: seq<T>): int {
    if s == [] then 0 else SumOf(f, s[..|s| - 1]) + f(s[|s| - 1])
  }

  lemma SumOfAppend<T>(f: T -> int, s: seq<T>, x: T)
    ensures SumOf(f, s + [x]) == SumOf(f, s) + f(x)
  {
    assert (s + [x])[..|s|] == s;
  }

  lemma {:induction false} SumOfUpdate<T>(f: T -> int, s: seq<T>, i: nat, x: T)
    requires i < |s|
    ensures SumOf(f, s[i := x]) == SumOf(f, s) - f(s[i]) + f(x)
  {
    var last := |s| - 1;
    if i == last {
      assert s[i := x][..last] == s[..last];
    } else {
      assert s[i := x][..last] == s[..last][i := x];
      SumOfUpdate(f, s[..last], i, x);
    }
  }

  /** Pointwise order is kept by sums, also between two sequences of different things. */
  lemma {:induction false} SumOfPointwise<S, T>(f: S -> int, s: seq<S>, g: T -> int, t: seq<T>)
    requires |s| == |t|
    requires forall i :: 0 <= i < |s| ==> f(s[i]) <= g(t[i])
    ensures SumOf(f, s) <= SumOf(g, t)
  {
    if s != [] {
      SumOfPointwise(f, s[..|s| - 1], g, t[..|t| - 1]);
    }
  }

  lemma {:induction false} SumOfNonNegative<T>(f: T -> int, s: seq<T>)
    requires forall i :: 0 <= i < |s| ==> f(s[i]) >= 0
    ensures SumOf(f, s) >= 0
  {
    if s != [] {
      SumOfNonNegative(f, s[..|s| - 1]);
    }
  }

  function Each<S, T>(s: seq<S>, f: S -> T): (r: seq<T>)
    ensures |r| == |s|
  {
    seq(|s|, i requires 0 <= i < |s| => f(s[i]))
  }

  // -------------------------------------------------------------------------
  // Sorting.
  // -------------------------------------------------------------------------

  function InsertBy<T>(x: T, sorted: seq<T>, before: (T, T) -> bool): seq<T> {
    if sorted == [] || before(x, sorted[0]) then [x] + sorted
    else [sorted[0]] + InsertBy(x, sorted[1..], before)
  }

  function SortBy<T>(s: seq<T>, before: (T, T) -> bool): seq<T> {
    if s == [] then [] else InsertBy(s[0], SortBy(s[1..], before), before)
  }

  predicate IsDescendingBy<T>(s: seq<T>, f: T -> int) {
    forall i, j :: 0 <= i < j < |s| ==> f(s[i]) >= f(s[j])
  }

  /** The order sorts by `f` first, greatest first, and breaks ties as it likes. */
  ghost predicate IsOrderBy<T(!new)>(before: (T, T) -> bool, f: T -> int) {
    forall a, b :: if before(a, b) then f(a) >= f(b) else f(b) >= f(a)
  }

  lemma {:induction false} InsertByKeeps<T>(x: T, sorted: seq<T>, before: (T, T) -> bool)
    ensures multiset(InsertBy(x, sorted, before)) == multiset(sorted) + multiset{x}
  {
    if sorted != [] && !before(x, sorted[0]) {
      InsertByKeeps(x, sorted[1..], before);
      assert sorted == [sorted[0]] + sorted[1..];
    }
  }

  lemma {:induction false} InsertByOrders<T(!new)>(x: T, sorted: seq<T>, before: (T, T) -> bool, f: T -> int)
    requires IsDescendingBy(sorted, f) && IsOrderBy(before, f)
    ensures IsDescendingBy(InsertBy(x, sorted, before), f)
  {
    if sorted != [] && !before(x, sorted[0]) {
      var rest := InsertBy(x, sorted[1..], before);
      InsertByOrders(x, sorted[1..], before, f);
      InsertByKeeps(x, sorted[1..], before);
      forall j | 0 <= j < |rest| ensures f(sorted[0]) >= f(rest[j]) {
        assert rest[j] in multiset(rest);
        assert rest[j] == x || rest[j] in sorted[1..];
      }
    }
  }

  lemma {:induction false} SortByKeeps<T>(s: seq<T>, before: (T, T) -> bool)
    ensures multiset(SortBy(s, before)) == multiset(s)
    ensures |SortBy(s, before)| == |s|
  {
    if s != [] {
      SortByKeeps(s[1..], before);
      InsertByKeeps(s[0], SortBy(s[1..], before), before);
      assert s == [s[0]] + s[1..];
    }
    assert |multiset(SortBy(s, before))| == |SortBy(s, before)| && |multiset(s)| == |s|;
  }

  /** Sorting puts the greatest first. */
  lemma {:induction false} SortByOrders<T(!new)>(s: seq<T>, before: (T, T) -> bool, f: T -> int)
    requires IsOrderBy(before, f)
    ensures IsDescendingBy(SortBy(s, before), f)
  {
    if s != [] {
      SortByOrders(s[1..], before, f);
      InsertByOrders(s[0], SortBy(s[1..], before), before, f);
    }
  }

  predicate IsSortedBy<T>(s: seq<T>, before: (T, T) -> bool) {
    forall i, j :: 0 <= i < j < |s| ==> before(s[i], s[j])
  }

  /** Any two things compare, and comparing carries over. */
  ghost predicate IsTotalOrder<T(!new)>(before: (T, T) -> bool) {
    && (forall a, b :: before(a, b) || before(b, a))
    && (forall a, b, c :: before(a, b) && before(b, c) ==> before(a, c))
  }

  lemma {:induction false} InsertBySorts<T(!new)>(x: T, sorted: seq<T>, before: (T, T) -> bool)
    requires IsTotalOrder(before) && IsSortedBy(sorted, before)
    ensures IsSortedBy(InsertBy(x, sorted, before), before)
  {
    if sorted != [] {
      if before(x, sorted[0]) {
        assert forall j :: 0 < j < |sorted| ==> before(sorted[0], sorted[j]);
      } else {
        var rest := InsertBy(x, sorted[1..], before);
        InsertBySorts(x, sorted[1..], before);
        InsertByKeeps(x, sorted[1..], before);
        forall j | 0 <= j < |rest| ensures before(sorted[0], rest[j]) {
          assert rest[j] in multiset(rest);
          assert rest[j] == x || rest[j] in sorted[1..];
        }
      }
    }
  }

  /** Sorting by a total order leaves every pair in order. */
  lemma {:induction false} SortBySorts<T(!new)>(s: seq<T>, before: (T, T) -> bool)
    requires IsTotalOrder(before)
    ensures IsSortedBy(SortBy(s, before), before)
  {
    if s != [] {
      SortBySorts(s[1..], before);
      InsertBySorts(s[0], SortBy(s[1..], before), before);
    }
  }
}
