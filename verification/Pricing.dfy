/** The pricing table of `src/ai/pricing.ts`: integer money, rounded up. */
module Pricing {
  import opened Doubles
  import opened Prelude

  type ModelId = string

  /** Tokens in one quoted unit. */
  const TOKENS_PER_QUOTED_UNIT: int := 1_000_000

  datatype TokenUsage = TokenUsage(
    inputTokens: Number,
    outputTokens: Number,
    cachedInputTokens: Option<Number>)

  /** Rates are micro-USD per million tokens; no output rate means input-only. */
  datatype ModelPrice = ModelPrice(
    input: Number,
    output: Option<Number>,
    cachedInput: Option<Number>)

  datatype PricingFault =
    | UncountableInput
    | UncountableOutput
    | OutputFromInputOnlyModel
    | UncountableCached
    | CachedExceedsInput

  predicate BillsOutput(price: ModelPrice) {
    price.output.Some?
  }

  /** What `assertUsablePrice` lets through. */
  predicate UsablePrice(price: ModelPrice) {
    && price.input.IsCountable()
    && (price.output.Some? ==> price.output.value.IsCountable())
    && (price.cachedInput.Some? ==> price.cachedInput.value.IsCountable())
  }

  /** An absent cache detail bills as no cache hit at all. */
  function CachedOf(usage: TokenUsage): Number {
    if usage.cachedInputTokens.Some? then usage.cachedInputTokens.value else Whole(0)
  }

  /** A price without a cached rate charges the input rate for every input token. */
  function CachedRate(price: ModelPrice): int
    requires UsablePrice(price)
  {
    if price.cachedInput.Some? then price.cachedInput.value.n else price.input.n
  }

  function OutputRate(price: ModelPrice): int
    requires UsablePrice(price)
  {
    if price.output.Some? then price.output.value.n else 0
  }

  /** The usages a price can be multiplied by. */
  predicate Billable(usage: TokenUsage, price: ModelPrice) {
    && usage.inputTokens.IsCountable()
    && usage.outputTokens.IsCountable()
    && (usage.outputTokens.n > 0 ==> BillsOutput(price))
    && CachedOf(usage).IsCountable()
    && CachedOf(usage).n <= usage.inputTokens.n
  }

  /** The exact cost, in millionths of a micro-USD. */
  function ExactCost(usage: TokenUsage, price: ModelPrice): int
    requires UsablePrice(price) && Billable(usage, price)
  {
    (usage.inputTokens.n - CachedOf(usage).n) * price.input.n
    + CachedOf(usage).n * CachedRate(price)
    + usage.outputTokens.n * OutputRate(price)
  }

  function CeilingDivide(total: int): (whole: int)
    ensures (whole - 1) * TOKENS_PER_QUOTED_UNIT < total <= whole * TOKENS_PER_QUOTED_UNIT
  {
    (total + TOKENS_PER_QUOTED_UNIT - 1) / TOKENS_PER_QUOTED_UNIT
  }

  /** The division is exact; its result is handed out as a JavaScript number. */
  function Charge(exact: nat): (charge: int)
    ensures charge >= 0
  {
    ToDouble(CeilingDivide(exact))
  }

  /** Whole micro-USD that cover the exact cost with less than one to spare. */
  predicate Covers(charge: int, exact: int) {
    (charge - 1) * TOKENS_PER_QUOTED_UNIT < exact <= charge * TOKENS_PER_QUOTED_UNIT
  }

  /** `costMicroUsd`, with its checks in the order the code makes them. */
  function CostMicroUsd(usage: TokenUsage, price: ModelPrice): (r: Result<int, PricingFault>)
    requires UsablePrice(price)
    ensures r.Ok? <==> Billable(usage, price)
    ensures r.Ok? ==> 0 <= r.value
  {
    if !usage.inputTokens.IsCountable() then Err(UncountableInput)
    else if !usage.outputTokens.IsCountable() then Err(UncountableOutput)
    else if usage.outputTokens.n > 0 && price.output.None? then Err(OutputFromInputOnlyModel)
    else if !CachedOf(usage).IsCountable() then Err(UncountableCached)
    else if CachedOf(usage).n > usage.inputTokens.n then Err(CachedExceedsInput)
    else
      ExactCostNonNegative(usage, price);
      Ok(Charge(ExactCost(usage, price)))
  }

  lemma MulNonNegative(a: int, b: int)
    requires 0 <= a && 0 <= b
    ensures 0 <= a * b
  {}

  lemma MulMonotone(a: int, b: int, rate: int)
    requires a <= b && 0 <= rate
    ensures a * rate <= b * rate
  {}

  lemma ExactCostNonNegative(usage: TokenUsage, price: ModelPrice)
    requires UsablePrice(price) && Billable(usage, price)
    ensures 0 <= ExactCost(usage, price)
  {
    MulNonNegative(usage.inputTokens.n - CachedOf(usage).n, price.input.n);
    MulNonNegative(CachedOf(usage).n, CachedRate(price));
    MulNonNegative(usage.outputTokens.n, OutputRate(price));
  }

  lemma OnlyTheCeilingCovers(charge: int, exact: int)
    ensures Covers(charge, exact) <==> charge == CeilingDivide(exact)
  {
  }

  lemma ChargeIsMonotone(less: nat, more: nat)
    requires less <= more
    ensures Charge(less) <= Charge(more)
  {
    ToDoubleIsMonotone(CeilingDivide(less), CeilingDivide(more));
  }

  /**
   * The charge covers the exact cost, with less than one micro-USD to spare,
   * exactly when the rounded-up cost is a number a double can hold; every one
   * up to 2^53 is. A nonzero cost is never billed at zero.
   */
  lemma ChargeCoversIff(exact: nat)
    ensures Covers(Charge(exact), exact) <==> IsDouble(CeilingDivide(exact))
    ensures CeilingDivide(exact) <= EXACT_LIMIT ==> Covers(Charge(exact), exact)
    ensures Charge(exact) >= 1 <==> exact > 0
  {
    var whole := CeilingDivide(exact);
    ExactIffDouble(whole);
    OnlyTheCeilingCovers(Charge(exact), exact);
    SmallNumbersAreDoubles(0);
    SmallNumbersAreDoubles(1);
    if whole <= EXACT_LIMIT {
      SmallNumbersAreDoubles(whole);
    }
    if exact > 0 {
      ToDoubleIsMonotone(1, whole);
    }
  }

  lemma CostIsTheExactCeiling(usage: TokenUsage, price: ModelPrice)
    requires UsablePrice(price) && Billable(usage, price)
    ensures 0 <= ExactCost(usage, price)
    ensures var exact, charge := ExactCost(usage, price), CostMicroUsd(usage, price).value;
      && (Covers(charge, exact) <==> IsDouble(CeilingDivide(exact)))
      && (CeilingDivide(exact) <= EXACT_LIMIT ==> Covers(charge, exact))
      && (charge >= 1 <==> exact > 0)
  {
    ExactCostNonNegative(usage, price);
    ChargeCoversIff(ExactCost(usage, price));
  }

  /** Beyond 2^53 a charge can fall short: the nearest double is below the cost. */
  lemma AChargeCanFallShort()
    ensures var usage := TokenUsage(Whole(MAX_SAFE_INTEGER), Whole(0), None);
      var price := ModelPrice(Whole(3_000_000), None, None);
      && UsablePrice(price) && Billable(usage, price)
      && CostMicroUsd(usage, price) == Ok(27021597764222972)
      && ExactCost(usage, price) > 27021597764222972 * TOKENS_PER_QUOTED_UNIT
  {
    var usage := TokenUsage(Whole(MAX_SAFE_INTEGER), Whole(0), None);
    var price := ModelPrice(Whole(3_000_000), None, None);
    assert CeilingDivide(ExactCost(usage, price)) == 27021597764222973;
    assert Gap(6755399441055743) == 1;
    assert Gap(13510798882111486) == 2;
    assert Gap(27021597764222973) == 4;
  }

  /** More tokens never cost less; here the cached subset stays the same. */
  lemma CostIsMonotone(less: TokenUsage, more: TokenUsage, price: ModelPrice)
    requires UsablePrice(price) && Billable(less, price) && Billable(more, price)
    requires less.inputTokens.n <= more.inputTokens.n && less.outputTokens.n <= more.outputTokens.n
    requires CachedOf(less) == CachedOf(more)
    ensures CostMicroUsd(less, price).value <= CostMicroUsd(more, price).value
  {
    MulMonotone(less.inputTokens.n - CachedOf(less).n, more.inputTokens.n - CachedOf(more).n, price.input.n);
    MulMonotone(less.outputTokens.n, more.outputTokens.n, OutputRate(price));
    ExactCostNonNegative(less, price);
    ChargeIsMonotone(ExactCost(less, price), ExactCost(more, price));
  }

  /** A usage whose two counts stay at or under those of an estimate. */
  predicate StaysWithin(actual: TokenUsage, estimate: TokenUsage) {
    && actual.inputTokens.IsCountable() && actual.outputTokens.IsCountable()
    && estimate.inputTokens.IsCountable() && estimate.outputTokens.IsCountable()
    && actual.inputTokens.n <= estimate.inputTokens.n
    && actual.outputTokens.n <= estimate.outputTokens.n
  }

  lemma SplitInput(total: int, cached: int, full: int, discounted: int)
    requires 0 <= cached <= total && discounted <= full
    ensures (total - cached) * full + cached * discounted <= total * full
  {
    assert (total - cached) * full == total * full - cached * full;
    MulMonotone(discounted, full, cached);
  }

  lemma CostWithinEstimate(actual: TokenUsage, estimate: TokenUsage, price: ModelPrice)
    requires UsablePrice(price) && CachedRate(price) <= price.input.n
    requires estimate.cachedInputTokens.None? && StaysWithin(actual, estimate)
    requires Billable(actual, price) && Billable(estimate, price)
    ensures CostMicroUsd(actual, price).value <= CostMicroUsd(estimate, price).value
  {
    SplitInput(actual.inputTokens.n, CachedOf(actual).n, price.input.n, CachedRate(price));
    MulMonotone(actual.inputTokens.n, estimate.inputTokens.n, price.input.n);
    MulMonotone(actual.outputTokens.n, estimate.outputTokens.n, OutputRate(price));
    ExactCostNonNegative(actual, price);
    ChargeIsMonotone(ExactCost(actual, price), ExactCost(estimate, price));
  }

  /** Every bill for usage inside an estimate is at most the estimate. */
  ghost predicate EstimatesAreCeilings(price: ModelPrice)
    requires UsablePrice(price)
  {
    forall actual: TokenUsage, estimate: TokenUsage
      | estimate.cachedInputTokens.None? && StaysWithin(actual, estimate)
        && Billable(actual, price) && Billable(estimate, price)
      :: CostMicroUsd(actual, price).value <= CostMicroUsd(estimate, price).value
  }

  // -------------------------------------------------------------------------
  // The tariff.
  // -------------------------------------------------------------------------

  /** What a price asks for a million tokens, read off its own fields. */
  function Tariff(price: ModelPrice, plain: nat, cached: nat, output: nat): int
    requires UsablePrice(price)
  {
    plain * price.input.n
    + cached * (if price.cachedInput.Some? then price.cachedInput.value.n else price.input.n)
    + output * (if price.output.Some? then price.output.value.n else 0)
  }

  lemma MillionsOut(count: nat, rate: int)
    ensures (1_000_000 * count) * rate == 1_000_000 * (count * rate)
  {
  }

  /** Whole millions of fresh, cached and output tokens are billed at the three quoted rates. */
  lemma MillionsAreBilledAsQuoted(price: ModelPrice, plain: nat, cached: nat, output: nat)
    requires UsablePrice(price) && (output > 0 ==> price.output.Some?)
    requires 1_000_000 * (plain + cached) <= MAX_SAFE_INTEGER && 1_000_000 * output <= MAX_SAFE_INTEGER
    requires 0 <= Tariff(price, plain, cached, output) <= EXACT_LIMIT
    ensures var usage := TokenUsage(Whole(1_000_000 * (plain + cached)), Whole(1_000_000 * output),
                                    Some(Whole(1_000_000 * cached)));
      CostMicroUsd(usage, price) == Ok(Tariff(price, plain, cached, output))
  {
    var usage := TokenUsage(Whole(1_000_000 * (plain + cached)), Whole(1_000_000 * output),
                            Some(Whole(1_000_000 * cached)));
    var total := Tariff(price, plain, cached, output);
    MillionsOut(plain, price.input.n);
    MillionsOut(cached, CachedRate(price));
    MillionsOut(output, OutputRate(price));
    assert usage.inputTokens.n - CachedOf(usage).n == 1_000_000 * plain;
    assert ExactCost(usage, price) == 1_000_000 * total;
    assert CeilingDivide(1_000_000 * total) == total;
    SmallNumbersAreDoubles(total);
  }

  /** One token more adds the rate of its kind to the exact cost, in millionths of a micro-USD. */
  lemma OneTokenMore(price: ModelPrice, input: nat, output: nat, cached: nat)
    requires UsablePrice(price) && cached <= input < MAX_SAFE_INTEGER && output < MAX_SAFE_INTEGER
    requires price.output.Some?
    ensures var before := TokenUsage(Whole(input), Whole(output), Some(Whole(cached)));
      var cost := ExactCost(before, price);
      && ExactCost(before.(outputTokens := Whole(output + 1)), price) == cost + price.output.value.n
      && ExactCost(before.(inputTokens := Whole(input + 1)), price) == cost + price.input.n
      && ExactCost(TokenUsage(Whole(input + 1), Whole(output), Some(Whole(cached + 1))), price)
           == cost + if price.cachedInput.Some? then price.cachedInput.value.n else price.input.n
  {
    OneTimesMore(output, OutputRate(price));
    OneTimesMore(input - cached, price.input.n);
    OneTimesMore(cached, CachedRate(price));
  }

  lemma OneTimesMore(count: int, rate: int)
    ensures (count + 1) * rate == count * rate + rate
  {
  }

  /** A million input tokens, some of them cached. */
  function Million(cached: Option<Number>): TokenUsage {
    TokenUsage(Whole(1_000_000), Whole(0), cached)
  }

  /** All of them fresh, or all of them cached, they cost one quoted unit. */
  lemma AMillionCost(price: ModelPrice, cached: Option<Number>, rate: int)
    requires UsablePrice(price)
    requires (cached.None? && rate == price.input.n) || (cached == Some(Whole(1_000_000)) && rate == CachedRate(price))
    ensures Billable(Million(cached), price) && CostMicroUsd(Million(cached), price) == Ok(rate)
  {
    assert ExactCost(Million(cached), price) == 1_000_000 * rate;
    assert CeilingDivide(1_000_000 * rate) == rate;
    SmallNumbersAreDoubles(rate);
  }

  /**
   * An estimate bounds the bill exactly when the cached rate is no dearer than
   * the input rate. Nothing checks that of an overlay: a dearer cached rate is
   * accepted, and a fully cached million tokens then costs more than was held.
   */
  lemma EstimatesAreCeilingsIffCachedIsNoDearer(price: ModelPrice)
    requires UsablePrice(price)
    ensures EstimatesAreCeilings(price) <==> CachedRate(price) <= price.input.n
  {
    if CachedRate(price) <= price.input.n {
      forall actual: TokenUsage, estimate: TokenUsage
        | estimate.cachedInputTokens.None? && StaysWithin(actual, estimate)
          && Billable(actual, price) && Billable(estimate, price)
        ensures CostMicroUsd(actual, price).value <= CostMicroUsd(estimate, price).value
      {
        CostWithinEstimate(actual, estimate, price);
      }
    } else {
      AMillionCost(price, None, price.input.n);
      AMillionCost(price, Some(Whole(1_000_000)), CachedRate(price));
      assert StaysWithin(Million(Some(Whole(1_000_000))), Million(None));
    }
  }

  function Itself(exact: nat): int {
    exact
  }

  /**
   * Over a run of n calls whose charges doubles can hold, which those up to
   * 2^53 are, the ledger never shows less than the exact cost, and shows less
   * than n micro-USD more.
   */
  lemma {:induction false} RoundingOverARun(exacts: seq<nat>)
    requires forall i :: 0 <= i < |exacts| ==> IsDouble(CeilingDivide(exacts[i]))
    ensures 0 <= SumOf(Charge, exacts) * TOKENS_PER_QUOTED_UNIT - SumOf(Itself, exacts)
    ensures SumOf(Charge, exacts) * TOKENS_PER_QUOTED_UNIT - SumOf(Itself, exacts)
      <= |exacts| * (TOKENS_PER_QUOTED_UNIT - 1)
  {
    if exacts != [] {
      var last := |exacts| - 1;
      RoundingOverARun(exacts[..last]);
      ChargeCoversIff(exacts[last]);
      assert SumOf(Charge, exacts) == SumOf(Charge, exacts[..last]) + Charge(exacts[last]);
      assert SumOf(Itself, exacts) == SumOf(Itself, exacts[..last]) + exacts[last];
    }
  }

  // -------------------------------------------------------------------------
  // The canonical table.
  // -------------------------------------------------------------------------

  function Priced(input: int, output: int): ModelPrice {
    ModelPrice(Whole(input), Some(Whole(output)), None)
  }

  function PricedInputOnly(input: int): ModelPrice {
    ModelPrice(Whole(input), None, None)
  }

  function CanonicalPricing(): map<ModelId, ModelPrice> {
    map[
      "google/gemini-3.5-flash-lite" := Priced(300_000, 2_500_000),
      "gemini-3.5-flash-lite-2026-07-21" := Priced(300_000, 2_500_000),
      "@cf/nvidia/nemotron-3-120b-a12b" := Priced(500_000, 1_500_000),
      "@cf/moondream/moondream3.1-9B-A2B" := Priced(300_000, 1_000_000),
      "@cf/zai-org/glm-5.2" := ModelPrice(Whole(1_400_000), Some(Whole(4_400_000)), Some(Whole(260_000))),
      "@cf/baai/bge-reranker-base" := PricedInputOnly(3_110),
      "text-embedding-3-large" := PricedInputOnly(130_000),
      "@cf/qwen/qwen3-embedding-0.6b" := PricedInputOnly(11_800)
    ]
  }

  /** On every canonical row a reservation bounds the bill. */
  lemma CanonicalEstimatesAreCeilings(id: ModelId)
    requires id in CanonicalPricing()
    ensures UsablePrice(CanonicalPricing()[id])
    ensures EstimatesAreCeilings(CanonicalPricing()[id])
  {
    EstimatesAreCeilingsIffCachedIsNoDearer(CanonicalPricing()[id]);
  }

  /** The bill of a canonical model, in micro-USD, for so many million tokens of each kind. */
  function CanonicalBill(id: ModelId, plain: nat, cached: nat, output: nat): Option<int>
    requires id in CanonicalPricing() && UsablePrice(CanonicalPricing()[id])
  {
    if output > 0 && !BillsOutput(CanonicalPricing()[id]) then None
    else Some(Tariff(CanonicalPricing()[id], plain, cached, output))
  }

  /** What the vendors quote: two names of one model cost the same, and only one model is cheaper from the cache. */
  lemma CanonicalQuotes(id: ModelId, plain: nat, cached: nat, output: nat)
    requires id in CanonicalPricing() && UsablePrice(CanonicalPricing()[id])
    ensures var bill := CanonicalBill(id, plain, cached, output);
      var input := plain + cached;
      if id == "google/gemini-3.5-flash-lite" || id == "gemini-3.5-flash-lite-2026-07-21"
        then bill == Some(300_000 * input + 2_500_000 * output)
      else if id == "@cf/nvidia/nemotron-3-120b-a12b" then bill == Some(500_000 * input + 1_500_000 * output)
      else if id == "@cf/moondream/moondream3.1-9B-A2B" then bill == Some(300_000 * input + 1_000_000 * output)
      else if id == "@cf/zai-org/glm-5.2"
        then bill == Some(1_400_000 * plain + 260_000 * cached + 4_400_000 * output)
      else
        && (output > 0 ==> bill == None)
        && (output == 0 ==> bill == Some(input *
             if id == "@cf/baai/bge-reranker-base" then 3_110
             else if id == "text-embedding-3-large" then 130_000 else 11_800))
  {
  }

  // -------------------------------------------------------------------------
  // The price book.
  // -------------------------------------------------------------------------

  datatype PriceBook = PriceBook(prices: map<ModelId, ModelPrice>, canonical: set<ModelId>)
  {
    function Lookup(id: ModelId): Option<ModelPrice> {
      if id in prices then Some(prices[id]) else None
    }

    predicate IsCanonical(id: ModelId) {
      id in canonical
    }

    /** Every price it serves can be billed, and every canonical row is priced. */
    ghost predicate Valid() {
      && (forall id :: id in prices ==> UsablePrice(prices[id]))
      && canonical <= prices.Keys
    }
  }

  datatype OverlayFault = ShadowsCanonical(id: ModelId) | UnusableRate(id: ModelId)

  /** `createPriceBook`: an add-only overlay over the canonical table. */
  method CreatePriceBook(canonical: map<ModelId, ModelPrice>, overlay: map<ModelId, ModelPrice>)
    returns (r: Result<PriceBook, OverlayFault>)
    requires forall id :: id in canonical ==> UsablePrice(canonical[id])
    ensures r.Ok? <==> forall id :: id in overlay ==> id !in canonical && UsablePrice(overlay[id])
    ensures r.Ok? ==> r.value.Valid() && r.value.canonical == canonical.Keys
    ensures r.Ok? ==> r.value.prices.Keys == canonical.Keys + overlay.Keys
    ensures r.Ok? ==> forall id :: id in canonical ==> r.value.Lookup(id) == Some(canonical[id])
    ensures r.Ok? ==> forall id :: id in overlay ==> r.value.Lookup(id) == Some(overlay[id])
    ensures r.Err? && r.error.ShadowsCanonical? ==> r.error.id in overlay && r.error.id in canonical
    ensures r.Err? && r.error.UnusableRate? ==> r.error.id in overlay && !UsablePrice(overlay[r.error.id])
  {
    var merged := canonical;
    var todo := overlay.Keys;
    while todo != {}
      invariant todo <= overlay.Keys
      invariant merged.Keys == canonical.Keys + (overlay.Keys - todo)
      invariant forall id :: id in overlay.Keys - todo ==>
        id !in canonical && UsablePrice(overlay[id]) && merged[id] == overlay[id]
      invariant forall id :: id in canonical ==> merged[id] == canonical[id]
    {
      var id :| id in todo;
      if id in canonical {
        return Err(ShadowsCanonical(id));
      }
      if !UsablePrice(overlay[id]) {
        return Err(UnusableRate(id));
      }
      merged := merged[id := overlay[id]];
      todo := todo - {id};
    }
    r := Ok(PriceBook(merged, canonical.Keys));
  }
}
