/**
 * The budget of `src/ai/gateway.ts`: money held for a call before it runs, and
 * given up exactly once when the call ends.
 */
module Budgets {
  import opened Doubles
  import opened Prelude

  /** One reservation. `charge` is what it turned into, 0 while it is open. */
  datatype Hold = Hold(held: int, open: bool, charge: int)

  datatype BudgetState = BudgetState(cap: Option<int>, spent: int, reserved: int, holds: seq<Hold>)

  /** Negative, fractional or unsafe money counts as nothing. */
  function Countable(amount: Number): (r: int)
    ensures 0 <= r <= MAX_SAFE_INTEGER
    ensures amount.IsCountable() ==> amount == Whole(r)
  {
    if amount.IsSafeInteger() && amount.n > 0 then amount.n else 0
  }

  function OpenAmount(h: Hold): int {
    if h.open then h.held else 0
  }

  function ChargedAmount(h: Hold): int {
    if h.open then 0 else h.charge
  }

  /** By how much a closed reservation was charged beyond what it held. */
  function Overrun(h: Hold): int {
    if h.open then 0 else Max(0, h.charge - h.held)
  }

  /** The cap, or zero for a cap below zero: such a budget never admits anything. */
  function Ceiling(cap: int): int {
    Max(0, cap)
  }

  function Fresh(cap: Option<int>): BudgetState {
    BudgetState(cap, 0, 0, [])
  }

  predicate Admits(b: BudgetState, estimate: Number) {
    b.cap.Some? ==> b.spent + b.reserved + Countable(estimate) <= b.cap.value
  }

  function ReserveStep(b: BudgetState, estimate: Number): BudgetState
    requires Admits(b, estimate)
  {
    b.(reserved := b.reserved + Countable(estimate),
       holds := b.holds + [Hold(Countable(estimate), true, 0)])
  }

  /** All three closers; only the first one to reach a reservation does anything. */
  function CloseStep(b: BudgetState, i: nat, charge: int): BudgetState
    requires i < |b.holds|
  {
    if !b.holds[i].open then b
    else b.(
      reserved := b.reserved - b.holds[i].held,
      spent := b.spent + charge,
      holds := b.holds[i := Hold(b.holds[i].held, false, charge)])
  }

  /**
   * The two counters are the books, and the cap is only ever passed by charges
   * that came in above what was held for them.
   */
  ghost predicate Accounted(b: BudgetState) {
    && (forall i :: 0 <= i < |b.holds| ==> b.holds[i].held >= 0 && b.holds[i].charge >= 0)
    && b.reserved == SumOf(OpenAmount, b.holds)
    && b.spent == SumOf(ChargedAmount, b.holds)
    && (b.cap.Some? ==> b.spent + b.reserved <= Ceiling(b.cap.value) + SumOf(Overrun, b.holds))
  }

  lemma ReserveKeepsAccounts(b: BudgetState, estimate: Number)
    requires Accounted(b) && Admits(b, estimate)
    ensures Accounted(ReserveStep(b, estimate))
  {
    var hold := Hold(Countable(estimate), true, 0);
    var holds := b.holds + [hold];
    HoldsOneMore(b.holds, hold);
    SumOfNonNegative(Overrun, b.holds);
    forall i | 0 <= i < |holds| ensures holds[i].held >= 0 && holds[i].charge >= 0 {
      assert holds[i] == if i < |b.holds| then b.holds[i] else hold;
    }
    assert SumOf(OpenAmount, holds) == b.reserved + hold.held && SumOf(ChargedAmount, holds) == b.spent;
  }

  lemma HoldsOneMore(holds: seq<Hold>, hold: Hold)
    ensures SumOf(OpenAmount, holds + [hold]) == SumOf(OpenAmount, holds) + OpenAmount(hold)
    ensures SumOf(ChargedAmount, holds + [hold]) == SumOf(ChargedAmount, holds) + ChargedAmount(hold)
    ensures SumOf(Overrun, holds + [hold]) == SumOf(Overrun, holds) + Overrun(hold)
  {
    SumOfAppend(OpenAmount, holds, hold);
    SumOfAppend(ChargedAmount, holds, hold);
    SumOfAppend(Overrun, holds, hold);
  }

  lemma CloseKeepsAccounts(b: BudgetState, i: nat, charge: int)
    requires Accounted(b) && i < |b.holds| && charge >= 0
    ensures Accounted(CloseStep(b, i, charge))
  {
    if b.holds[i].open {
      var hold := Hold(b.holds[i].held, false, charge);
      SumOfUpdate(OpenAmount, b.holds, i, hold);
      SumOfUpdate(ChargedAmount, b.holds, i, hold);
      SumOfUpdate(Overrun, b.holds, i, hold);
    }
  }

  /** No reservation open means no money held. */
  lemma {:induction false} NothingOpenNothingReserved(holds: seq<Hold>)
    requires forall i :: 0 <= i < |holds| ==> !holds[i].open
    ensures SumOf(OpenAmount, holds) == 0
  {
    if holds != [] {
      NothingOpenNothingReserved(holds[..|holds| - 1]);
    }
  }

  /** Charges that stay inside what was held make no overrun. */
  lemma {:induction false} NoOverrunInTotal(holds: seq<Hold>)
    requires forall i :: 0 <= i < |holds| ==> Overrun(holds[i]) == 0
    ensures SumOf(Overrun, holds) == 0
  {
    if holds != [] {
      NoOverrunInTotal(holds[..|holds| - 1]);
    }
  }

  /** The cap check as the program evaluates it: its sums are JavaScript numbers. */
  predicate AdmitsInDoubles(b: BudgetState, estimate: Number)
    requires b.spent >= 0 && b.reserved >= 0
  {
    b.cap.Some? ==> ToDouble(ToDouble(b.spent + b.reserved) + Countable(estimate)) <= b.cap.value
  }

  lemma RoundingPassesNoSafeBound(n: nat, bound: int)
    requires bound <= MAX_SAFE_INTEGER
    ensures ToDouble(n) <= bound <==> n <= bound
    ensures n <= bound ==> ToDouble(n) == n
  {
    if n <= EXACT_LIMIT {
      SmallNumbersAreDoubles(n);
    } else {
      SmallNumbersAreDoubles(EXACT_LIMIT);
      ToDoubleIsMonotone(EXACT_LIMIT, n);
    }
  }

  /** Under a cap that is a safe integer, rounding never lets a call in or keeps one out. */
  lemma RoundingAdmitsNoOneElse(b: BudgetState, estimate: Number)
    requires b.spent >= 0 && b.reserved >= 0
    requires b.cap.Some? ==> b.cap.value <= MAX_SAFE_INTEGER
    ensures AdmitsInDoubles(b, estimate) <==> Admits(b, estimate)
  {
    if b.cap.Some? {
      RoundingPassesNoSafeBound(b.spent + b.reserved, b.cap.value);
      RoundingPassesNoSafeBound(ToDouble(b.spent + b.reserved) + Countable(estimate), b.cap.value);
    }
  }

  /** What the two counters can be: JavaScript numbers, and not negative. */
  predicate CountsInDoubles(b: BudgetState) {
    b.spent >= 0 && b.reserved >= 0 && IsDouble(b.spent) && IsDouble(b.reserved)
  }

  /** Rounding decides every call under this cap as exact sums would. */
  ghost predicate IsSafeCap(cap: int) {
    forall b: BudgetState, estimate: Number
      | b.cap == Some(cap) && CountsInDoubles(b)
      :: AdmitsInDoubles(b, estimate) <==> Admits(b, estimate)
  }

  /** A state under the cap, and an estimate, that rounding lets in and exact sums do not. */
  function Overfull(cap: nat): (BudgetState, Number)
    requires cap >= EXACT_LIMIT
  {
    if Gap(cap) == 2 && cap / 2 % 2 == 1 then (BudgetState(Some(cap), cap - 2, 1, []), Whole(2))
    else (BudgetState(Some(cap), cap, 0, []), Whole(1))
  }

  /** The next double below, where the gap is two and it is not the least with that gap. */
  lemma TheDoubleBefore(n: nat)
    requires n >= EXACT_LIMIT && Gap(n) == 2 && n / 2 % 2 == 1 && IsDouble(n)
    ensures n - 2 >= EXACT_LIMIT && Gap(n - 2) == 2 && IsDouble(n - 2) && (n - 2) / 2 % 2 == 0
  {
    GapAround(n, n - 2);
  }

  lemma OddCapIsPassed(cap: nat)
    requires cap >= EXACT_LIMIT && Gap(cap) == 2 && cap / 2 % 2 == 1 && IsDouble(cap)
    ensures IsDouble(cap - 2) && ToDouble(ToDouble(cap - 1) + 2) == cap
  {
    TheDoubleBefore(cap);
    OnePastRoundsDown(cap - 2);
    ExactIffDouble(cap);
  }

  lemma EvenCapIsPassed(cap: nat)
    requires cap >= EXACT_LIMIT && IsDouble(cap) && (Gap(cap) != 2 || cap / 2 % 2 == 0)
    ensures ToDouble(ToDouble(cap) + 1) == cap
  {
    ExactIffDouble(cap);
    OnePastRoundsDown(cap);
  }

  lemma LetInByRounding(b: BudgetState, held: nat, sum: nat, rounded: int)
    requires b.cap.Some? && b.spent >= 0 && b.reserved >= 0 && held <= MAX_SAFE_INTEGER
    requires ToDouble(b.spent + b.reserved) == sum && ToDouble(sum + held) == rounded
    requires rounded <= b.cap.value < b.spent + b.reserved + held
    ensures AdmitsInDoubles(b, Whole(held)) && !Admits(b, Whole(held))
  {
    assert Countable(Whole(held)) == held;
  }

  lemma OddOverfull(cap: nat)
    requires cap >= EXACT_LIMIT && Gap(cap) == 2 && cap / 2 % 2 == 1 && IsDouble(cap)
    ensures var b := BudgetState(Some(cap), cap - 2, 1, []);
      CountsInDoubles(b) && AdmitsInDoubles(b, Whole(2)) && !Admits(b, Whole(2))
  {
    OddCapIsPassed(cap);
    OneIsADouble();
    LetInByRounding(BudgetState(Some(cap), cap - 2, 1, []), 2, ToDouble(cap - 1), cap);
  }

  lemma EvenOverfull(cap: nat)
    requires cap >= EXACT_LIMIT && IsDouble(cap) && (Gap(cap) != 2 || cap / 2 % 2 == 0)
    ensures var b := BudgetState(Some(cap), cap, 0, []);
      CountsInDoubles(b) && AdmitsInDoubles(b, Whole(1)) && !Admits(b, Whole(1))
  {
    EvenCapIsPassed(cap);
    OneIsADouble();
    LetInByRounding(BudgetState(Some(cap), cap, 0, []), 1, ToDouble(cap), cap);
  }

  lemma OneIsADouble()
    ensures IsDouble(0) && IsDouble(1)
  {
    SmallNumbersAreDoubles(0);
    SmallNumbersAreDoubles(1);
  }

  lemma OverfullIsLetIn(cap: nat)
    requires cap >= EXACT_LIMIT && IsDouble(cap)
    ensures var (b, estimate) := Overfull(cap);
      b.cap == Some(cap) && CountsInDoubles(b) && AdmitsInDoubles(b, estimate) && !Admits(b, estimate)
  {
    if Gap(cap) == 2 && cap / 2 % 2 == 1 {
      OddOverfull(cap);
    } else {
      EvenOverfull(cap);
    }
  }

  /** The least such cap: a call of one micro-USD passes a budget of 2^53 that is spent. */
  lemma ALargerCapAdmitsTooMuch()
    ensures var b := BudgetState(Some(EXACT_LIMIT), EXACT_LIMIT, 0, []);
      AdmitsInDoubles(b, Whole(1)) && !Admits(b, Whole(1))
  {
    SmallNumbersAreDoubles(EXACT_LIMIT);
    assert Gap(EXACT_LIMIT / 2) == 1;
    OverfullIsLetIn(EXACT_LIMIT);
  }

  /** Rounding decides as exact sums would, in every state, exactly under caps that are safe integers. */
  lemma CapsAreSafeIff(cap: int)
    requires cap >= 0 ==> IsDouble(cap)
    ensures IsSafeCap(cap) <==> cap <= MAX_SAFE_INTEGER
  {
    if cap <= MAX_SAFE_INTEGER {
      forall b: BudgetState, estimate: Number | b.cap == Some(cap) && CountsInDoubles(b)
        ensures AdmitsInDoubles(b, estimate) <==> Admits(b, estimate)
      {
        RoundingAdmitsNoOneElse(b, estimate);
      }
    } else {
      OverfullIsLetIn(cap);
    }
  }

  /** The two counters are exact numbers while together they stay below 2^53. */
  lemma CountersAreExact(b: BudgetState)
    requires b.spent >= 0 && b.reserved >= 0 && b.spent + b.reserved <= EXACT_LIMIT
    ensures IsDouble(b.spent) && IsDouble(b.reserved) && IsDouble(b.spent + b.reserved)
  {
    SmallNumbersAreDoubles(b.spent);
    SmallNumbersAreDoubles(b.reserved);
    SmallNumbersAreDoubles(b.spent + b.reserved);
  }

  /** What `createBudget` returns. */
  class Budget {
    const budgetLabel: string
    const cap: Option<int>
    var spent: int
    var reserved: int
    /** Every reservation this budget handed out, oldest first. */
    ghost var taken: seq<Reservation>

    ghost predicate Valid()
      reads this, taken
    {
      && (forall i :: 0 <= i < |taken| ==> taken[i].budget == this && taken[i].index == i)
      && Accounted(View())
    }

    ghost function View(): BudgetState
      reads this, taken
    {
      BudgetState(cap, spent, reserved,
        seq(|taken|, i requires 0 <= i < |taken| reads this, taken =>
          Hold(taken[i].held, taken[i].open, taken[i].charge)))
    }

    constructor (budgetLabel: string, cap: Option<int>)
      ensures Valid() && this.budgetLabel == budgetLabel && taken == []
      ensures View() == Fresh(cap)
    {
      this.budgetLabel := budgetLabel;
      this.cap := cap;
      spent := 0;
      reserved := 0;
      taken := [];
    }

    /** Take `estimate` out of what is left, or refuse with null. */
    method Reserve(estimate: Number) returns (r: Reservation?)
      requires Valid()
      modifies this
      ensures Valid()
      ensures r == null <==> !Admits(old(View()), estimate)
      ensures r == null ==> View() == old(View()) && taken == old(taken)
      ensures r != null ==> fresh(r) && View() == ReserveStep(old(View()), estimate)
      ensures r != null ==> taken == old(taken) + [r] && r.held == Countable(estimate)
    {
      var held := Countable(estimate);
      if cap.Some? && spent + reserved + held > cap.value {
        return null;
      }
      ReserveKeepsAccounts(View(), estimate);
      reserved := reserved + held;
      r := new Reservation(this, held, |taken|);
      taken := taken + [r];
      assert View() == ReserveStep(old(View()), estimate);
    }
  }

  class Reservation {
    const budget: Budget
    const held: int
    var open: bool
    ghost const index: nat
    ghost var charge: int

    constructor (budget: Budget, held: int, ghost index: nat)
      ensures this.budget == budget && this.held == held && this.index == index
      ensures open && charge == 0
    {
      this.budget := budget;
      this.held := held;
      this.index := index;
      open := true;
      charge := 0;
    }

    ghost predicate Taken()
      reads this, budget, budget.taken
    {
      budget.Valid() && index < |budget.taken| && budget.taken[index] == this
    }

    method Close(amount: int)
      requires Taken() && amount >= 0
      modifies this, budget
      ensures Taken() && !open && budget.taken == old(budget.taken)
      ensures budget.View() == CloseStep(old(budget.View()), index, amount)
    {
      CloseKeepsAccounts(budget.View(), index, amount);
      if !open {
        return;
      }
      open := false;
      budget.reserved := budget.reserved - held;
      budget.spent := budget.spent + amount;
      charge := amount;
      assert budget.View() == CloseStep(old(budget.View()), index, amount);
    }

    /** The call completed and cost this much. */
    method Settle(actual: Number)
      requires Taken()
      modifies this, budget
      ensures Taken() && !open && budget.taken == old(budget.taken)
      ensures budget.View() == CloseStep(old(budget.View()), index, Countable(actual))
    {
      Close(Countable(actual));
    }

    /** The work was done and the cost is unknowable: the estimate is the charge. */
    method SettleAtEstimate()
      requires Taken()
      modifies this, budget
      ensures Taken() && !open && budget.taken == old(budget.taken)
      ensures budget.View() == CloseStep(old(budget.View()), index, held)
    {
      assert budget.View().holds[index].held == held;
      Close(held);
    }

    /** The provider was never reached, or said it did no work. */
    method Release()
      requires Taken()
      modifies this, budget
      ensures Taken() && !open && budget.taken == old(budget.taken)
      ensures budget.View() == CloseStep(old(budget.View()), index, 0)
    {
      Close(0);
    }
  }
}
