/**
 * `createModelGateway().call` of `src/ai/gateway.ts` as a step machine, a step for each part between
 * two awaits. Any number of calls share one budget and interleave freely.
 */
module Gateway {
  import opened Doubles
  import opened Prelude
  import opened Identity
  import opened Pricing
  import opened Routing
  import opened Budgets

  datatype ModelInput =
    | ChatInput(system: Option<string>, user: string, images: nat)
    | VectorInput(texts: seq<string>)
    | RankingInput(query: string, candidates: seq<string>)

  datatype ModelRequest = ModelRequest(caller: Caller, tenantId: string, op: ModelOp, input: ModelInput)

  /** An answer, down to what the gateway inspects; `content` stands for the rest. */
  datatype ModelOutput =
    | ChatOutput(text: string, reasoning: Option<string>, truncated: bool)
    | VectorOutput(widths: seq<int>)
    | RankingOutput(scores: seq<int>)

  datatype KeySource = PerCall | Byok | Hosted

  datatype MeteringRecord = MeteringRecord(
    tenantId: string,
    op: ModelOp,
    profile: string,
    modelId: ModelId,
    provider: ProviderId,
    inputTokens: Number,
    outputTokens: Number,
    costMicroUsd: Option<int>,
    keySource: KeySource,
    countsTowardHostedCogs: bool)

  /** The failures a finished provider call can be graded with. */
  datatype Grade =
    | UsageUnreported | PriceFault | EmbeddingDimensionMismatch
    | OutputTruncated | ReasoningOnlyOutput | EmptyOutput

  datatype Refusal =
    | ScopeDenied | InvalidTenantId | OpKindMismatch | ImageNotAccepted | ModelNotPriced | BudgetExhausted

  datatype KeyRefusal = KeyScopeDenied | KeyUnavailable

  datatype Answer = Answer(output: ModelOutput, usage: Option<TokenUsage>, grade: Option<Grade>, record: MeteringRecord)

  /** Where a call that was admitted stands. Its reservation is the budget's with the same index. */
  datatype Phase =
    | AwaitingKey
    | AwaitingProvider(source: KeySource)
    | AwaitingMeter(answer: Answer)
    | KeyFault
    | KeyRefused(reason: KeyRefusal)
    | TransportFailed(status: Option<int>)
    | MeteringUnavailable(unmetered: Answer, landed: bool)
    | Graded(metered: Answer)

  datatype Call = Call(request: ModelRequest, route: Route, price: Option<ModelPrice>, estimate: int, phase: Phase)

  datatype State = State(budget: BudgetState, calls: seq<Call>, ledger: seq<MeteringRecord>)

  /** What the operator configured; `createModelGateway` accepts it only when no routing fault is found. */
  datatype Config = Config(profile: NamedProfile, book: PriceBook)

  ghost predicate Accepted(g: Config) {
    g.book.Valid() && Servable(g.profile, g.book)
  }

  // -------------------------------------------------------------------------
  // The synchronous start of a call.
  // -------------------------------------------------------------------------

  /** Four characters to a token, rounded up. */
  function EstimateTokens(text: string): int {
    (|text| + 3) / 4
  }

  function EstimateUsage(input: ModelInput, route: Route): TokenUsage {
    match input
    case ChatInput(system, user, images) =>
      var prompt := if system.Some? then system.value + user else user;
      TokenUsage(Whole(EstimateTokens(prompt) + images * IMAGE_INPUT_TOKENS), route.maxOutputTokens, None)
    case VectorInput(texts) =>
      TokenUsage(Whole(SumOf(EstimateTokens, texts)), Whole(0), None)
    case RankingInput(query, candidates) =>
      TokenUsage(Whole(EstimateTokens(query) + SumOf(EstimateTokens, candidates)), Whole(0), None)
  }

  predicate Matches(input: ModelInput, kind: OpKind) {
    match kind
    case Chat => input.ChatInput?
    case Vectors => input.VectorInput?
    case Ranking => input.RankingInput?
  }

  /** `Threw` is an exception out of the synchronous part; nothing was held yet. */
  datatype Admission =
    | Refused(refusal: Refusal)
    | Threw
    | Priced(route: Route, price: Option<ModelPrice>, estimate: int)

  /** Everything `call` decides before it asks the budget. */
  function Admit(g: Config, cap: Option<int>, request: ModelRequest): Admission
    requires g.book.Valid()
  {
    if request.caller != Fleet(request.tenantId) then Refused(ScopeDenied)
    else if !IsValidTenantId(request.tenantId) then Refused(InvalidTenantId)
    else if Op(request.op) !in g.profile.routes then Threw
    else if !Matches(request.input, KindOf(request.op)) then Refused(OpKindMismatch)
    else if request.input.ChatInput? && request.input.images > 0 && !AcceptsImages(request.op) then
      Refused(ImageNotAccepted)
    else
      var route := g.profile.routes[Op(request.op)];
      var price := g.book.Lookup(route.id);
      if price.None? then
        if cap.Some? then Refused(ModelNotPriced) else Priced(route, price, 0)
      else
        match CostMicroUsd(EstimateUsage(request.input, route), price.value)
        case Ok(estimate) => Priced(route, price, estimate)
        case Err(_) => Threw
  }

  // -------------------------------------------------------------------------
  // What happens when an `await` comes back.
  // -------------------------------------------------------------------------

  /** A 4xx says no work was done, 408 excepted; anything else may have been billed. */
  predicate ProviderRefusedBeforeWorking(status: Option<int>) {
    status.Some? && 400 <= status.value < 500 && status.value != 408
  }

  function CostOf(price: Option<ModelPrice>, usage: Option<TokenUsage>): Option<int>
    requires price.Some? ==> UsablePrice(price.value)
  {
    if usage.None? || price.None? then None
    else
      match CostMicroUsd(usage.value, price.value)
      case Ok(cost) => Some(cost)
      case Err(_) => None
  }

  function GradeOutput(op: ModelOp, modelId: ModelId, output: ModelOutput): Option<Grade> {
    if KindOf(op).Vectors? && output.VectorOutput? then
      if exists i :: 0 <= i < |output.widths| && Some(output.widths[i]) != SeatWidth(modelId)
      then Some(EmbeddingDimensionMismatch) else None
    else if KindOf(op).Chat? && output.ChatOutput? then
      if output.truncated then Some(OutputTruncated)
      else if !IsBlank(output.text) then None
      else if output.reasoning.Some? && !IsBlank(output.reasoning.value) then Some(ReasoningOnlyOutput)
      else if !AdmitsEmptyAnswer(op) then Some(EmptyOutput)
      else None
    else None
  }

  function GradeOf(call: Call, output: ModelOutput, usage: Option<TokenUsage>): Option<Grade>
    requires call.price.Some? ==> UsablePrice(call.price.value)
  {
    if usage.None? then Some(UsageUnreported)
    else if call.price.Some? && CostOf(call.price, usage).None? then Some(PriceFault)
    else GradeOutput(call.request.op, call.route.id, output)
  }

  function Receive(g: Config, call: Call, output: ModelOutput, usage: Option<TokenUsage>, source: KeySource): Answer
    requires call.price.Some? ==> UsablePrice(call.price.value)
  {
    Answer(output, usage, GradeOf(call, output, usage), MeteringRecord(
      call.request.tenantId, call.request.op, g.profile.name, call.route.id, call.route.provider,
      if usage.Some? then usage.value.inputTokens else Whole(0),
      if usage.Some? then usage.value.outputTokens else Whole(0),
      CostOf(call.price, usage), source,
      source.Hosted? && g.book.IsCanonical(call.route.id)))
  }

  /** What a reservation becomes when the provider answered: rule 2a. */
  function ChargeOf(record: MeteringRecord, held: int): int {
    if record.costMicroUsd.Some? then Countable(Whole(record.costMicroUsd.value)) else held
  }

  /** The production meter refuses a delta that is not a countable number; the in-memory one takes any. */
  predicate MeterAccepts(record: MeteringRecord) {
    record.costMicroUsd.Some? ==> Whole(record.costMicroUsd.value).IsCountable()
  }

  /** A routed embedding model with no seat throws inside the guarded transport call. */
  predicate CanBeInvoked(call: Call) {
    KindOf(call.request.op).Vectors? ==> SeatWidth(call.route.id).Some?
  }

  // -------------------------------------------------------------------------
  // Steps and runs.
  // -------------------------------------------------------------------------

  datatype Step =
    | Begin(request: ModelRequest)
    | KeyStoreThrows(i: nat)
    | KeyDenied(i: nat, reason: KeyRefusal)
    | KeyFound(i: nat, source: KeySource)
    | ProviderFails(i: nat, status: Option<int>)
    | ProviderAnswers(i: nat, output: ModelOutput, usage: Option<TokenUsage>)
    | MeterRecords(i: nat)
    | MeterFails(i: nat, landed: bool)

  predicate Enabled(g: Config, s: State, step: Step) {
    match step
    case Begin(_) => true
    case KeyStoreThrows(i) => i < |s.calls| && s.calls[i].phase.AwaitingKey?
    case KeyDenied(i, _) => i < |s.calls| && s.calls[i].phase.AwaitingKey?
    case KeyFound(i, _) => i < |s.calls| && s.calls[i].phase.AwaitingKey?
    case ProviderFails(i, status) =>
      && i < |s.calls| && s.calls[i].phase.AwaitingProvider?
      && (!CanBeInvoked(s.calls[i]) ==> status.None?)
    case ProviderAnswers(i, _, _) =>
      i < |s.calls| && s.calls[i].phase.AwaitingProvider? && CanBeInvoked(s.calls[i])
    case MeterRecords(i) =>
      i < |s.calls| && s.calls[i].phase.AwaitingMeter? && MeterAccepts(s.calls[i].phase.answer.record)
    case MeterFails(i, landed) =>
      && i < |s.calls| && s.calls[i].phase.AwaitingMeter?
      && (landed ==> MeterAccepts(s.calls[i].phase.answer.record))
  }

  /** What every state keeps about its shape, and what the step function needs. */
  ghost predicate WellFormed(s: State) {
    && |s.calls| == |s.budget.holds|
    && forall i :: 0 <= i < |s.calls| ==> s.calls[i].price.Some? ==> UsablePrice(s.calls[i].price.value)
  }

  function MoveTo(s: State, i: nat, phase: Phase): State
    requires i < |s.calls|
  {
    s.(calls := s.calls[i := s.calls[i].(phase := phase)])
  }

  function Close(s: State, i: nat, charge: int): State
    requires i < |s.budget.holds|
  {
    s.(budget := CloseStep(s.budget, i, charge))
  }

  function Next(g: Config, s: State, step: Step): (s': State)
    requires g.book.Valid() && WellFormed(s) && Enabled(g, s, step)
    ensures WellFormed(s')
  {
    match step
    case Begin(request) =>
      (match Admit(g, s.budget.cap, request)
       case Refused(_) => s
       case Threw => s
       case Priced(route, price, estimate) =>
         if !Admits(s.budget, Whole(estimate)) then s
         else s.(budget := ReserveStep(s.budget, Whole(estimate)),
                 calls := s.calls + [Call(request, route, price, estimate, AwaitingKey)]))
    case KeyStoreThrows(i) => MoveTo(Close(s, i, 0), i, KeyFault)
    case KeyDenied(i, reason) => MoveTo(Close(s, i, 0), i, KeyRefused(reason))
    case KeyFound(i, source) => MoveTo(s, i, AwaitingProvider(source))
    case ProviderFails(i, status) =>
      var charge := if ProviderRefusedBeforeWorking(status) then 0 else s.budget.holds[i].held;
      MoveTo(Close(s, i, charge), i, TransportFailed(status))
    case ProviderAnswers(i, output, usage) =>
      var answer := Receive(g, s.calls[i], output, usage, s.calls[i].phase.source);
      MoveTo(Close(s, i, ChargeOf(answer.record, s.budget.holds[i].held)), i, AwaitingMeter(answer))
    case MeterRecords(i) =>
      var answer := s.calls[i].phase.answer;
      MoveTo(s, i, Graded(answer)).(ledger := s.ledger + [answer.record])
    case MeterFails(i, landed) =>
      var answer := s.calls[i].phase.answer;
      var failed := MoveTo(s, i, MeteringUnavailable(answer, landed));
      if landed then failed.(ledger := s.ledger + [answer.record]) else failed
  }

  function Start(cap: Option<int>): State {
    State(Fresh(cap), [], [])
  }

  /** `trace` is a run: `trace[0]` is the fresh state and each state steps to the next. */
  ghost predicate IsRun(g: Config, cap: Option<int>, trace: seq<State>, steps: seq<Step>) {
    && g.book.Valid()
    && |trace| == |steps| + 1
    && trace[0] == Start(cap)
    && forall k :: 0 <= k < |steps| ==>
         WellFormed(trace[k]) && Enabled(g, trace[k], steps[k]) && trace[k + 1] == Next(g, trace[k], steps[k])
  }

  // -------------------------------------------------------------------------
  // The invariant.
  // -------------------------------------------------------------------------

  predicate InFlight(call: Call) {
    call.phase.AwaitingKey? || call.phase.AwaitingProvider?
  }

  /** How each way out of a call must have charged its reservation. */
  ghost predicate ChargedForItsExit(call: Call, hold: Hold) {
    match call.phase
    case AwaitingKey => true
    case AwaitingProvider(_) => true
    case KeyFault => hold.charge == 0
    case KeyRefused(_) => hold.charge == 0
    case TransportFailed(status) =>
      hold.charge == if ProviderRefusedBeforeWorking(status) then 0 else hold.held
    case AwaitingMeter(answer) => hold.charge == ChargeOf(answer.record, hold.held)
    case MeteringUnavailable(answer, _) => hold.charge == ChargeOf(answer.record, hold.held)
    case Graded(answer) => hold.charge == ChargeOf(answer.record, hold.held)
  }

  function AnswerOf(call: Call): Option<Answer> {
    match call.phase
    case AwaitingMeter(answer) => Some(answer)
    case MeteringUnavailable(answer, _) => Some(answer)
    case Graded(answer) => Some(answer)
    case _ => None
  }

  /** The cost in an answer's record is the exact bill for the usage it came with. */
  ghost predicate BilledExactly(call: Call) {
    AnswerOf(call).Some? ==>
      var answer := AnswerOf(call).value;
      && (call.price.Some? ==> UsablePrice(call.price.value))
      && answer.record.costMicroUsd == CostOf(call.price, answer.usage)
      && answer.grade == GradeOf(call, answer.output, answer.usage)
  }

  /** What a record contributed to the ledger; an unknown cost contributes nothing. */
  function KnownCost(record: MeteringRecord): int {
    if record.costMicroUsd.Some? then record.costMicroUsd.value else 0
  }

  /** The record of the answer is in the ledger, whether or not the meter said so. */
  predicate IsLedgered(call: Call) {
    call.phase.Graded? || (call.phase.MeteringUnavailable? && call.phase.landed)
  }

  function LedgeredCost(call: Call): int {
    if IsLedgered(call) then KnownCost(AnswerOf(call).value.record) else 0
  }

  ghost predicate CallInv(call: Call, hold: Hold) {
    && hold.held == Countable(Whole(call.estimate))
    && (InFlight(call) <==> hold.open)
    && ChargedForItsExit(call, hold)
    && BilledExactly(call)
    && (IsLedgered(call) ==> MeterAccepts(AnswerOf(call).value.record))
  }

  ghost predicate LedgerInv(s: State) {
    && (forall i :: 0 <= i < |s.calls| ==> IsLedgered(s.calls[i]) ==> AnswerOf(s.calls[i]).value.record in s.ledger)
    && SumOf(KnownCost, s.ledger) == SumOf(LedgeredCost, s.calls)
  }

  ghost predicate Inv(s: State) {
    && WellFormed(s)
    && Accounted(s.budget)
    && (forall i :: 0 <= i < |s.calls| ==> CallInv(s.calls[i], s.budget.holds[i]))
    && LedgerInv(s)
  }

  lemma NewCallKeepsLedger(s: State, call: Call)
    requires LedgerInv(s) && call.phase.AwaitingKey?
    ensures LedgerInv(s.(calls := s.calls + [call]))
  {
    SumOfAppend(LedgeredCost, s.calls, call);
  }

  lemma NewCallKeepsInv(s: State, call: Call)
    requires Inv(s) && Admits(s.budget, Whole(call.estimate))
    requires call.phase.AwaitingKey? && (call.price.Some? ==> UsablePrice(call.price.value))
    ensures Inv(s.(budget := ReserveStep(s.budget, Whole(call.estimate)), calls := s.calls + [call]))
  {
    ReserveKeepsAccounts(s.budget, Whole(call.estimate));
    NewCallKeepsLedger(s, call);
  }

  lemma BeginKeepsInv(g: Config, s: State, step: Step)
    requires g.book.Valid() && Inv(s) && step.Begin? && Enabled(g, s, step)
    ensures Inv(Next(g, s, step))
  {
    var admission := Admit(g, s.budget.cap, step.request);
    if admission.Priced? && Admits(s.budget, Whole(admission.estimate)) {
      NewCallKeepsInv(s, Call(step.request, admission.route, admission.price, admission.estimate, AwaitingKey));
    }
  }

  /** A call that closes its reservation without reaching the meter. */
  lemma CloseAndMoveKeepsInv(s: State, i: nat, charge: int, phase: Phase)
    requires Inv(s) && i < |s.calls| && s.budget.holds[i].open && charge >= 0
    requires !IsLedgered(s.calls[i].(phase := phase)) && !InFlight(s.calls[i].(phase := phase))
    requires ChargedForItsExit(s.calls[i].(phase := phase), Hold(s.budget.holds[i].held, false, charge))
    requires BilledExactly(s.calls[i].(phase := phase))
    ensures Inv(MoveTo(Close(s, i, charge), i, phase))
  {
    CloseKeepsAccounts(s.budget, i, charge);
    SumOfUpdate(LedgeredCost, s.calls, i, s.calls[i].(phase := phase));
  }

  /** A move that leaves the reservation as it is. */
  lemma MoveKeepsInv(s: State, i: nat, phase: Phase)
    requires Inv(s) && i < |s.calls| && !IsLedgered(s.calls[i]) && !IsLedgered(s.calls[i].(phase := phase))
    requires CallInv(s.calls[i].(phase := phase), s.budget.holds[i])
    ensures Inv(MoveTo(s, i, phase))
  {
    SumOfUpdate(LedgeredCost, s.calls, i, s.calls[i].(phase := phase));
  }

  /** The meter's row lands; `phase` is where that leaves the call. */
  function Ledgered(s: State, i: nat, answer: Answer, phase: Phase): State
    requires i < |s.calls|
  {
    MoveTo(s, i, phase).(ledger := s.ledger + [answer.record])
  }

  lemma RecordKeepsLedger(s: State, i: nat, answer: Answer, phase: Phase)
    requires LedgerInv(s) && i < |s.calls| && s.calls[i].phase == AwaitingMeter(answer)
    requires phase == Graded(answer) || phase == MeteringUnavailable(answer, true)
    ensures LedgerInv(Ledgered(s, i, answer, phase))
  {
    LedgerSumGrows(s.calls, s.ledger, i, answer, phase);
    var after := Ledgered(s, i, answer, phase);
    forall k | 0 <= k < |after.calls| && IsLedgered(after.calls[k])
      ensures AnswerOf(after.calls[k]).value.record in after.ledger
    {
      if k != i {
        assert after.calls[k] == s.calls[k];
      }
    }
  }

  /** Both sums grow by what the answer is known to cost. */
  lemma LedgerSumGrows(calls: seq<Call>, ledger: seq<MeteringRecord>, i: nat, answer: Answer, phase: Phase)
    requires i < |calls| && calls[i].phase == AwaitingMeter(answer)
    requires phase == Graded(answer) || phase == MeteringUnavailable(answer, true)
    ensures SumOf(LedgeredCost, calls[i := calls[i].(phase := phase)])
      == SumOf(LedgeredCost, calls) + KnownCost(answer.record)
    ensures SumOf(KnownCost, ledger + [answer.record]) == SumOf(KnownCost, ledger) + KnownCost(answer.record)
  {
    SumOfUpdate(LedgeredCost, calls, i, calls[i].(phase := phase));
    SumOfAppend(KnownCost, ledger, answer.record);
  }

  lemma RecordKeepsInv(s: State, i: nat, answer: Answer, phase: Phase)
    requires Inv(s) && i < |s.calls| && s.calls[i].phase == AwaitingMeter(answer) && MeterAccepts(answer.record)
    requires phase == Graded(answer) || phase == MeteringUnavailable(answer, true)
    ensures Inv(Ledgered(s, i, answer, phase))
  {
    RecordKeepsLedger(s, i, answer, phase);
  }

  lemma StepKeepsInv(g: Config, s: State, step: Step)
    requires g.book.Valid() && Inv(s) && Enabled(g, s, step)
    ensures Inv(Next(g, s, step))
  {
    match step {
      case Begin(_) => BeginKeepsInv(g, s, step);
      case KeyStoreThrows(i) => CloseAndMoveKeepsInv(s, i, 0, KeyFault);
      case KeyDenied(i, reason) => CloseAndMoveKeepsInv(s, i, 0, KeyRefused(reason));
      case KeyFound(i, source) => MoveKeepsInv(s, i, AwaitingProvider(source));
      case ProviderFails(i, status) =>
        var charge := if ProviderRefusedBeforeWorking(status) then 0 else s.budget.holds[i].held;
        CloseAndMoveKeepsInv(s, i, charge, TransportFailed(status));
      case ProviderAnswers(i, output, usage) =>
        var answer := Receive(g, s.calls[i], output, usage, s.calls[i].phase.source);
        CloseAndMoveKeepsInv(s, i, ChargeOf(answer.record, s.budget.holds[i].held), AwaitingMeter(answer));
      case MeterRecords(i) =>
        var answer := s.calls[i].phase.answer;
        RecordKeepsInv(s, i, answer, Graded(answer));
      case MeterFails(i, landed) =>
        var answer := s.calls[i].phase.answer;
        if landed {
          RecordKeepsInv(s, i, answer, MeteringUnavailable(answer, true));
        } else {
          MoveKeepsInv(s, i, MeteringUnavailable(answer, false));
        }
    }
  }

  /** Every state of every interleaving of any number of calls satisfies the invariant. */
  lemma {:induction false} EveryRunKeepsInv(g: Config, cap: Option<int>, trace: seq<State>, steps: seq<Step>, k: nat)
    requires IsRun(g, cap, trace, steps) && k < |trace|
    ensures Inv(trace[k]) && trace[k].budget.cap == cap
  {
    if k > 0 {
      EveryRunKeepsInv(g, cap, trace, steps, k - 1);
      StepKeepsInv(g, trace[k - 1], steps[k - 1]);
    }
  }

  // -------------------------------------------------------------------------
  // What the invariant means.
  // -------------------------------------------------------------------------

  /** In every state, money beyond the cap is money a provider charged beyond what was held for it. */
  lemma ACapIsACap(g: Config, cap: int, trace: seq<State>, steps: seq<Step>, k: nat)
    requires IsRun(g, Some(cap), trace, steps) && k < |trace|
    ensures trace[k].budget.reserved == SumOf(OpenAmount, trace[k].budget.holds)
    ensures trace[k].budget.spent == SumOf(ChargedAmount, trace[k].budget.holds)
    ensures trace[k].budget.spent + trace[k].budget.reserved
      <= Ceiling(cap) + SumOf(Overrun, trace[k].budget.holds)
  {
    EveryRunKeepsInv(g, Some(cap), trace, steps, k);
  }

  /** With no call between its reservation and its provider's reply, nothing is held. */
  lemma QuietBudgetHoldsNothing(g: Config, cap: Option<int>, trace: seq<State>, steps: seq<Step>, k: nat)
    requires IsRun(g, cap, trace, steps) && k < |trace|
    requires forall i :: 0 <= i < |trace[k].calls| ==> !InFlight(trace[k].calls[i])
    ensures trace[k].budget.reserved == 0
  {
    EveryRunKeepsInv(g, cap, trace, steps, k);
    NothingOpenNothingReserved(trace[k].budget.holds);
  }

  lemma ClosedStaysClosed(g: Config, s: State, step: Step, i: nat)
    requires g.book.Valid() && Inv(s) && Enabled(g, s, step)
    requires i < |s.budget.holds| && !s.budget.holds[i].open
    ensures i < |Next(g, s, step).budget.holds| && Next(g, s, step).budget.holds[i] == s.budget.holds[i]
  {
  }

  lemma ClosedStaysClosedInRuns(
    g: Config, cap: Option<int>, trace: seq<State>, steps: seq<Step>, k: nat, i: nat)
    requires IsRun(g, cap, trace, steps) && k < |steps|
    requires i < |trace[k].budget.holds| && !trace[k].budget.holds[i].open
    ensures i < |trace[k + 1].budget.holds| && trace[k + 1].budget.holds[i] == trace[k].budget.holds[i]
  {
    EveryRunKeepsInv(g, cap, trace, steps, k);
    ClosedStaysClosed(g, trace[k], steps[k], i);
  }

  /** A reservation is closed at most once: what it was charged never changes again. */
  lemma {:induction false} ChargesAreFinal(
    g: Config, cap: Option<int>, trace: seq<State>, steps: seq<Step>, j: nat, k: nat, i: nat)
    requires IsRun(g, cap, trace, steps) && j <= k < |trace|
    requires i < |trace[j].budget.holds| && !trace[j].budget.holds[i].open
    ensures i < |trace[k].budget.holds| && trace[k].budget.holds[i] == trace[j].budget.holds[i]
  {
    if j < k {
      ChargesAreFinal(g, cap, trace, steps, j, k - 1, i);
      ClosedStaysClosedInRuns(g, cap, trace, steps, k - 1, i);
    }
  }

  /** The call was answered with a usage that could be billed. */
  predicate IsBilled(call: Call) {
    && AnswerOf(call).Some? && AnswerOf(call).value.record.costMicroUsd.Some?
    && AnswerOf(call).value.usage.Some? && call.price.Some?
  }

  /**
   * What the provider billed, if it did, is inside the estimate the call was
   * admitted with, at a price whose cached rate is no discount in reverse; and
   * the estimate was an amount the budget can count.
   */
  ghost predicate StayedInsideItsEstimate(call: Call) {
    && call.estimate <= MAX_SAFE_INTEGER
    && (IsBilled(call) ==>
          && UsablePrice(call.price.value)
          && CachedRate(call.price.value) <= call.price.value.input.n
          && StaysWithin(AnswerOf(call).value.usage.value, EstimateUsage(call.request.input, call.route)))
  }

  /** An admitted call carries the bill for its own estimate. */
  ghost predicate PricedByItsEstimate(call: Call) {
    && 0 <= call.estimate && (call.price.None? ==> call.estimate == 0)
    && (call.price.Some? ==>
          && UsablePrice(call.price.value)
          && CostMicroUsd(EstimateUsage(call.request.input, call.route), call.price.value) == Ok(call.estimate))
  }

  lemma {:induction false} EveryCallIsPricedByItsEstimate(
    g: Config, cap: Option<int>, trace: seq<State>, steps: seq<Step>, k: nat, i: nat)
    requires IsRun(g, cap, trace, steps) && k < |trace| && i < |trace[k].calls|
    ensures PricedByItsEstimate(trace[k].calls[i])
  {
    if k > 0 && i < |trace[k - 1].calls| {
      EveryCallIsPricedByItsEstimate(g, cap, trace, steps, k - 1, i);
    }
  }

  lemma NoOverrunInsideTheEstimate(call: Call, hold: Hold)
    requires CallInv(call, hold) && PricedByItsEstimate(call) && StayedInsideItsEstimate(call)
    ensures Overrun(hold) == 0
  {
    if IsBilled(call) {
      var answer := AnswerOf(call).value;
      var estimate := EstimateUsage(call.request.input, call.route);
      assert estimate.cachedInputTokens.None?;
      CostWithinEstimate(answer.usage.value, estimate, call.price.value);
      assert answer.record.costMicroUsd.value <= call.estimate;
    }
  }

  /** While providers stay inside their estimates the cap is absolute, under any interleaving. */
  lemma CapIsAbsoluteWithinEstimates(g: Config, cap: int, trace: seq<State>, steps: seq<Step>, k: nat)
    requires IsRun(g, Some(cap), trace, steps) && k < |trace|
    requires forall i :: 0 <= i < |trace[k].calls| ==> StayedInsideItsEstimate(trace[k].calls[i])
    ensures trace[k].budget.spent + trace[k].budget.reserved <= Ceiling(cap)
  {
    EveryRunKeepsInv(g, Some(cap), trace, steps, k);
    forall i | 0 <= i < |trace[k].budget.holds| ensures Overrun(trace[k].budget.holds[i]) == 0 {
      EveryCallIsPricedByItsEstimate(g, Some(cap), trace, steps, k, i);
      NoOverrunInsideTheEstimate(trace[k].calls[i], trace[k].budget.holds[i]);
    }
    NoOverrunInTotal(trace[k].budget.holds);
  }

  /** Under a cap that is a safe integer, none of those runs rounds a sum of the budget's. */
  lemma NoSumIsRounded(g: Config, cap: int, trace: seq<State>, steps: seq<Step>, k: nat, estimate: Number)
    requires IsRun(g, Some(cap), trace, steps) && k < |trace| && cap <= MAX_SAFE_INTEGER
    requires forall i :: 0 <= i < |trace[k].calls| ==> StayedInsideItsEstimate(trace[k].calls[i])
    ensures var b := trace[k].budget;
      && 0 <= b.spent && 0 <= b.reserved
      && IsDouble(b.spent) && IsDouble(b.reserved) && IsDouble(b.spent + b.reserved)
      && (AdmitsInDoubles(b, estimate) <==> Admits(b, estimate))
  {
    var b := trace[k].budget;
    EveryRunKeepsInv(g, Some(cap), trace, steps, k);
    SumOfNonNegative(OpenAmount, b.holds);
    SumOfNonNegative(ChargedAmount, b.holds);
    CapIsAbsoluteWithinEstimates(g, cap, trace, steps, k);
    CountersAreExact(b);
    RoundingAdmitsNoOneElse(b, estimate);
  }

  /** In every run, what is held for a call is its estimate exactly when that is a safe integer. */
  lemma HeldIsTheEstimateIffSafe(
    g: Config, cap: Option<int>, trace: seq<State>, steps: seq<Step>, k: nat, i: nat)
    requires IsRun(g, cap, trace, steps) && k < |trace| && i < |trace[k].calls|
    ensures |trace[k].calls| == |trace[k].budget.holds|
    ensures trace[k].budget.holds[i].held == trace[k].calls[i].estimate
      <==> trace[k].calls[i].estimate <= MAX_SAFE_INTEGER
    ensures trace[k].calls[i].estimate > MAX_SAFE_INTEGER ==> trace[k].budget.holds[i].held == 0
  {
    EveryRunKeepsInv(g, cap, trace, steps, k);
    EveryCallIsPricedByItsEstimate(g, cap, trace, steps, k, i);
  }

  /** A completion was returned to its caller. */
  predicate ReturnedOk(call: Call) {
    call.phase.Graded? && call.phase.metered.grade.None?
  }

  /**
   * No answer escapes the ledger: a completion that was returned has its record
   * in the ledger, and the budget was charged at least every known cost there.
   */
  lemma NoAnswerEscapesTheLedger(g: Config, cap: Option<int>, trace: seq<State>, steps: seq<Step>, k: nat)
    requires IsRun(g, cap, trace, steps) && k < |trace|
    ensures forall i :: 0 <= i < |trace[k].calls| && ReturnedOk(trace[k].calls[i]) ==>
      && trace[k].calls[i].phase.metered.record in trace[k].ledger
      && trace[k].calls[i].phase.metered.usage.Some?
      && (trace[k].calls[i].price.Some? ==> trace[k].calls[i].phase.metered.record.costMicroUsd.Some?)
    ensures SumOf(KnownCost, trace[k].ledger) <= trace[k].budget.spent
  {
    EveryRunKeepsInv(g, cap, trace, steps, k);
    SumOfPointwise(LedgeredCost, trace[k].calls, ChargedAmount, trace[k].budget.holds);
  }

  // -------------------------------------------------------------------------
  // What each exit costs, and what an answer says.
  // -------------------------------------------------------------------------

  /**
   * In every run a call that was answered is charged its exact bill, or, where
   * the bill cannot be known, everything that was held for it: no usage, no
   * price, or a usage the price cannot be applied to.
   */
  lemma AnsweredCallsAreCharged(
    g: Config, cap: Option<int>, trace: seq<State>, steps: seq<Step>, k: nat, i: nat)
    requires IsRun(g, cap, trace, steps) && k < |trace| && i < |trace[k].calls|
    requires AnswerOf(trace[k].calls[i]).Some?
    ensures |trace[k].calls| == |trace[k].budget.holds|
    ensures var call, hold := trace[k].calls[i], trace[k].budget.holds[i];
      var usage := AnswerOf(call).value.usage;
      && !hold.open
      && (call.price.Some? ==> UsablePrice(call.price.value))
      && (usage.None? || call.price.None? || !Billable(usage.value, call.price.value) ==> hold.charge == hold.held)
      && (usage.Some? && call.price.Some? && Billable(usage.value, call.price.value) ==>
            var bill := CostMicroUsd(usage.value, call.price.value).value;
            hold.charge == if bill <= MAX_SAFE_INTEGER then bill else 0)
  {
    EveryRunKeepsInv(g, cap, trace, steps, k);
    assert CallInv(trace[k].calls[i], trace[k].budget.holds[i]);
  }

  /**
   * In every run a call whose key was refused costs nothing. One whose provider
   * failed costs nothing when the status says the request was turned away, a
   * 4xx other than 408; any other status, and none, costs all that was held.
   */
  lemma FailedCallsAreCharged(
    g: Config, cap: Option<int>, trace: seq<State>, steps: seq<Step>, k: nat, i: nat)
    requires IsRun(g, cap, trace, steps) && k < |trace| && i < |trace[k].calls|
    ensures |trace[k].calls| == |trace[k].budget.holds|
    ensures var phase, hold := trace[k].calls[i].phase, trace[k].budget.holds[i];
      && (phase.AwaitingKey? || phase.AwaitingProvider? <==> hold.open)
      && (phase.KeyFault? || phase.KeyRefused? ==> hold.charge == 0)
      && (phase.TransportFailed? && phase.status.None? ==> hold.charge == hold.held)
      && (phase.TransportFailed? && phase.status.Some? ==>
            var status := phase.status.value;
            hold.charge ==
              if status < 400 || status == 408 || status >= 500 then hold.held else 0)
  {
    EveryRunKeepsInv(g, cap, trace, steps, k);
    assert CallInv(trace[k].calls[i], trace[k].budget.holds[i]);
  }

  /** The provider's usage could be billed, or there was no price to bill it at. */
  ghost predicate IsCounted(call: Call, usage: Option<TokenUsage>)
    requires call.price.Some? ==> UsablePrice(call.price.value)
  {
    usage.Some? && (call.price.Some? ==> Billable(usage.value, call.price.value))
  }

  predicate IsNothing(text: Option<string>) {
    text.None? || IsBlank(text.value)
  }

  /** In every run the grade of an answer names what is wrong with it, the count first. */
  lemma GradesNameTheFault(
    g: Config, cap: Option<int>, trace: seq<State>, steps: seq<Step>, k: nat, i: nat)
    requires IsRun(g, cap, trace, steps) && k < |trace| && i < |trace[k].calls|
    requires AnswerOf(trace[k].calls[i]).Some?
    ensures var call := trace[k].calls[i];
      var Answer(output, usage, grade, _) := AnswerOf(call).value;
      && (call.price.Some? ==> UsablePrice(call.price.value))
      && (grade == Some(UsageUnreported) <==> usage.None?)
      && (grade == Some(PriceFault) <==>
            usage.Some? && call.price.Some? && !Billable(usage.value, call.price.value))
      && (grade == Some(EmbeddingDimensionMismatch) <==>
            && IsCounted(call, usage) && call.request.op.Embedding? && output.VectorOutput?
            && exists j :: 0 <= j < |output.widths| && SeatWidth(call.route.id) != Some(output.widths[j]))
      && (grade == Some(OutputTruncated) <==>
            && IsCounted(call, usage) && !call.request.op.Embedding? && !call.request.op.Rerank?
            && output.ChatOutput? && output.truncated)
      && (grade == Some(ReasoningOnlyOutput) <==>
            && IsCounted(call, usage) && !call.request.op.Embedding? && !call.request.op.Rerank?
            && output.ChatOutput? && !output.truncated && IsBlank(output.text) && !IsNothing(output.reasoning))
      && (grade == Some(EmptyOutput) <==>
            && IsCounted(call, usage) && !call.request.op.Embedding? && !call.request.op.Rerank?
            && !call.request.op.Vision?
            && output.ChatOutput? && !output.truncated && IsBlank(output.text) && IsNothing(output.reasoning))
  {
    EveryRunKeepsInv(g, cap, trace, steps, k);
    assert CallInv(trace[k].calls[i], trace[k].budget.holds[i]);
  }

  /** The record of an answer says which call it was, what the provider counted and whose key paid. */
  ghost predicate RecordIsOf(g: Config, call: Call, answer: Answer) {
    var record := answer.record;
    && record.tenantId == call.request.tenantId && record.op == call.request.op
    && record.profile == g.profile.name
    && record.modelId == call.route.id && record.provider == call.route.provider
    && record.inputTokens == (if answer.usage.Some? then answer.usage.value.inputTokens else Whole(0))
    && record.outputTokens == (if answer.usage.Some? then answer.usage.value.outputTokens else Whole(0))
    && (record.countsTowardHostedCogs <==> record.keySource.Hosted? && call.route.id in g.book.canonical)
  }

  lemma StepKeepsRecords(g: Config, s: State, step: Step, i: nat)
    requires g.book.Valid() && WellFormed(s) && Enabled(g, s, step) && i < |Next(g, s, step).calls|
    requires i < |s.calls| && AnswerOf(s.calls[i]).Some? ==> RecordIsOf(g, s.calls[i], AnswerOf(s.calls[i]).value)
    ensures var call := Next(g, s, step).calls[i];
      AnswerOf(call).Some? ==> RecordIsOf(g, call, AnswerOf(call).value)
  {
  }

  lemma {:induction false} RecordsSayWhatRan(
    g: Config, cap: Option<int>, trace: seq<State>, steps: seq<Step>, k: nat, i: nat)
    requires IsRun(g, cap, trace, steps) && k < |trace| && i < |trace[k].calls|
    requires AnswerOf(trace[k].calls[i]).Some?
    ensures RecordIsOf(g, trace[k].calls[i], AnswerOf(trace[k].calls[i]).value)
  {
    if k > 0 {
      if i < |trace[k - 1].calls| && AnswerOf(trace[k - 1].calls[i]).Some? {
        RecordsSayWhatRan(g, cap, trace, steps, k - 1, i);
      }
      StepKeepsRecords(g, trace[k - 1], steps[k - 1], i);
    }
  }

  // -------------------------------------------------------------------------
  // What a call is held for, and what it is refused for.
  // -------------------------------------------------------------------------

  /** Four characters to a token, the last token perhaps not full. */
  lemma FourCharactersToAToken(text: string)
    ensures 4 * EstimateTokens(text) - 4 < |text| <= 4 * EstimateTokens(text)
  {
  }

  function Length(text: string): int {
    |text|
  }

  lemma {:induction false} ManyTextsToTokens(texts: seq<string>)
    ensures SumOf(Length, texts) <= 4 * SumOf(EstimateTokens, texts) <= SumOf(Length, texts) + 3 * |texts|
  {
    if texts != [] {
      ManyTextsToTokens(texts[..|texts| - 1]);
      FourCharactersToAToken(texts[|texts| - 1]);
      assert SumOf(EstimateTokens, texts)
          == SumOf(EstimateTokens, texts[..|texts| - 1]) + EstimateTokens(texts[|texts| - 1]);
      assert SumOf(Length, texts) == SumOf(Length, texts[..|texts| - 1]) + Length(texts[|texts| - 1]);
    }
  }

  /**
   * The estimate counts every character sent, four to a token and each text
   * rounded up, 1600 tokens an image, and for a chat all the output its route
   * allows; no other op is estimated to write anything.
   */
  lemma EstimatesCountWhatIsSent(input: ModelInput, route: Route)
    ensures var usage := EstimateUsage(input, route);
      && usage.inputTokens.Whole? && usage.cachedInputTokens == None
      && usage.outputTokens == (if input.ChatInput? then route.maxOutputTokens else Whole(0))
      && match input
         case ChatInput(system, user, images) =>
           var sent := |user| + if system.Some? then |system.value| else 0;
           sent <= 4 * (usage.inputTokens.n - 1_600 * images) <= sent + 3
         case VectorInput(texts) =>
           SumOf(Length, texts) <= 4 * usage.inputTokens.n <= SumOf(Length, texts) + 3 * |texts|
         case RankingInput(query, candidates) =>
           var sent := |query| + SumOf(Length, candidates);
           sent <= 4 * usage.inputTokens.n <= sent + 3 * (|candidates| + 1)
  {
    match input {
      case ChatInput(_, _, _) =>
      case VectorInput(texts) => ManyTextsToTokens(texts);
      case RankingInput(_, candidates) => ManyTextsToTokens(candidates);
    }
  }

  /** Which input an op takes. */
  predicate Takes(op: ModelOp, input: ModelInput) {
    match op
    case Rerank => input.RankingInput?
    case Embedding => input.VectorInput?
    case _ => input.ChatInput?
  }

  /**
   * A call gets past its guards only for its own, valid tenant, with the input
   * its op takes and images only for vision; then its route is the profile's.
   * Each refusal says which of the guards failed, the first in this order.
   */
  lemma AdmissionGuards(g: Config, cap: Option<int>, request: ModelRequest)
    requires g.book.Valid()
    ensures var admission := Admit(g, cap, request);
      var own := request.caller == Fleet(request.tenantId);
      var valid := own && IsValidTenantId(request.tenantId);
      var routed := valid && Op(request.op) in g.profile.routes;
      var fits := routed && Takes(request.op, request.input);
      var sees := request.input.ChatInput? && request.input.images > 0;
      && (admission == Refused(ScopeDenied) <==> !own)
      && (admission == Refused(InvalidTenantId) <==> own && !valid)
      && (admission == Refused(OpKindMismatch) <==> routed && !fits)
      && (admission == Refused(ImageNotAccepted) <==> fits && sees && request.op != Vision)
      && (admission == Refused(ModelNotPriced) <==>
            && fits && (sees ==> request.op == Vision) && cap.Some?
            && g.profile.routes[Op(request.op)].id !in g.book.prices)
      && (admission.Priced? ==>
            fits && (sees ==> request.op == Vision) && admission.route == g.profile.routes[Op(request.op)])
  {
  }

  // -------------------------------------------------------------------------
  // A profile without faults.
  // -------------------------------------------------------------------------

  lemma {:induction false} TokensAreNotNegative(texts: seq<string>)
    ensures 0 <= SumOf(EstimateTokens, texts)
  {
    SumOfNonNegative(EstimateTokens, texts);
  }

  lemma NoFaultOf(g: Config, op: ModelOp, kind: FaultKind)
    requires Accepted(g) && Op(op) in g.profile.routes
    ensures !HasOwnerFault(op, g.profile.routes[Op(op)], g.book, kind)
    ensures !HasOutputFault(op, g.profile.routes[Op(op)], g.book, kind)
  {
    assert !HasFault(g.profile, g.book, Fault(Op(op), kind));
  }

  /** What the validator's silence says about one op. */
  lemma ServableRoute(g: Config, op: ModelOp)
    requires Accepted(g)
    ensures Op(op) in g.profile.routes
    ensures var route := g.profile.routes[Op(op)];
      && (KindOf(op).Vectors? ==> SeatWidth(route.id).Some?)
      && (KindOf(op).Chat? ==> !route.maxOutputTokens.IsAtMostZero())
      && (!KindOf(op).Chat? ==> route.maxOutputTokens == Whole(0))
      && (g.book.Lookup(route.id).Some? ==> (BillsOutput(g.book.Lookup(route.id).value) <==> KindOf(op).Chat?))
      && (!route.provider.SelfHost? ==> g.book.Lookup(route.id).Some?)
  {
    assert !HasFault(g.profile, g.book, Fault(Op(op), NoEntry));
    NoFaultOf(g, op, NoEmbeddingSeat);
    NoFaultOf(g, op, ChatWithoutCeiling);
    NoFaultOf(g, op, CeilingOnNonChat);
    NoFaultOf(g, op, ChatPricedInputOnly);
    NoFaultOf(g, op, NonChatPricedOutput);
    NoFaultOf(g, op, NoCanonicalPrice);
  }

  /** The caller's identity, tenant and input are what the op asks for. */
  predicate IsWellPosed(request: ModelRequest) {
    && request.caller == Fleet(request.tenantId)
    && IsValidTenantId(request.tenantId)
    && Matches(request.input, KindOf(request.op))
    && (request.input.ChatInput? && request.input.images > 0 ==> AcceptsImages(request.op))
  }

  /**
   * Under an accepted configuration a well-posed call is never refused for its
   * route, and its estimate throws exactly when the priced estimate has a
   * count JavaScript cannot hold exactly. The validator does not look at that:
   * a chat ceiling of 0.5 or NaN passes it.
   */
  lemma AcceptedCallsThrowOnlyOnUncountableEstimates(g: Config, cap: Option<int>, request: ModelRequest)
    requires Accepted(g) && IsWellPosed(request)
    ensures Op(request.op) in g.profile.routes
    ensures var route := g.profile.routes[Op(request.op)];
      var estimate := EstimateUsage(request.input, route);
      Admit(g, cap, request).Threw? <==>
        && route.id in g.book.prices
        && !(estimate.inputTokens.n <= MAX_SAFE_INTEGER && estimate.outputTokens.IsSafeInteger())
    ensures Admit(g, cap, request).Refused? <==>
      cap.Some? && g.profile.routes[Op(request.op)].id !in g.book.prices
    ensures Admit(g, cap, request).Refused? ==> g.profile.routes[Op(request.op)].provider.SelfHost?
  {
    ServableRoute(g, request.op);
    match request.input {
      case ChatInput(_, _, _) =>
      case VectorInput(texts) => TokensAreNotNegative(texts);
      case RankingInput(_, candidates) => TokensAreNotNegative(candidates);
    }
  }

  lemma StepKeepsInvocable(g: Config, s: State, step: Step, i: nat)
    requires Accepted(g) && g.book.Valid() && WellFormed(s) && Enabled(g, s, step) && i < |Next(g, s, step).calls|
    requires i < |s.calls| ==> CanBeInvoked(s.calls[i])
    ensures CanBeInvoked(Next(g, s, step).calls[i])
  {
    if i >= |s.calls| {
      ServableRoute(g, step.request.op);
    }
  }

  /** Every call of a run under an accepted configuration can reach its provider. */
  lemma {:induction false} AcceptedCallsCanBeInvoked(
    g: Config, cap: Option<int>, trace: seq<State>, steps: seq<Step>, k: nat, i: nat)
    requires Accepted(g) && IsRun(g, cap, trace, steps) && k < |trace| && i < |trace[k].calls|
    ensures CanBeInvoked(trace[k].calls[i])
  {
    if k > 0 {
      if i < |trace[k - 1].calls| {
        AcceptedCallsCanBeInvoked(g, cap, trace, steps, k - 1, i);
      }
      StepKeepsInvocable(g, trace[k - 1], steps[k - 1], i);
    }
  }

  /** The validator does let one through: every well-posed call of the op then throws. */
  lemma AFractionalCeilingThrows(book: PriceBook, cap: Option<int>, request: ModelRequest)
    requires ExtendsCanonical(book) && IsWellPosed(request) && request.op == Extract
    ensures Accepted(Config(WithAFractionalCeiling(), book))
    ensures Admit(Config(WithAFractionalCeiling(), book), cap, request).Threw?
  {
    var g := Config(WithAFractionalCeiling(), book);
    AFractionalCeilingIsServable(book);
    AcceptedCallsThrowOnlyOnUncountableEstimates(g, cap, request);
    HostedRouteIsCanonical(Extract);
  }

  /** Two thousand images for the operator's own vision model. */
  function ManyImages(tenantId: string): ModelRequest {
    ModelRequest(Fleet(tenantId), tenantId, Vision, ChatInput(None, "", 2_000))
  }

  lemma ManyImagesAreDear(tenantId: string, cap: Option<int>)
    requires IsValidTenantId(tenantId)
    ensures Accepted(Config(SelfHostProfile(), DearBook()))
    ensures var admission := Admit(Config(SelfHostProfile(), DearBook()), cap, ManyImages(tenantId));
      admission.Priced? && admission.estimate > MAX_SAFE_INTEGER
  {
    var request := ManyImages(tenantId);
    ADearBookIsServable();
    EveryOpIsListed(Vision);
    var usage := EstimateUsage(request.input, SelfHostRoute(Vision));
    assert usage == TokenUsage(Whole(3_200_000), Whole(4_096), None);
    var exact := ExactCost(usage, DearPrice());
    assert exact == 3_204_096 * MAX_SAFE_INTEGER;
    assert CeilingDivide(exact) >= EXACT_LIMIT;
    SmallNumbersAreDoubles(EXACT_LIMIT);
    ToDoubleIsMonotone(EXACT_LIMIT, CeilingDivide(exact));
  }

  /**
   * An estimate can be too large to count: the call is then admitted with
   * nothing held for it, under any cap, zero included.
   */
  lemma AnUncountableEstimateHoldsNothing(tenantId: string, cap: nat)
    requires IsValidTenantId(tenantId)
    ensures var g := Config(SelfHostProfile(), DearBook());
      && Accepted(g)
      && var s := Next(g, Start(Some(cap)), Begin(ManyImages(tenantId)));
        && |s.calls| == |s.budget.holds| == 1
        && s.calls[0].estimate > MAX_SAFE_INTEGER && s.budget.holds[0] == Hold(0, true, 0)
  {
    ManyImagesAreDear(tenantId, Some(cap));
  }

  // -------------------------------------------------------------------------
  // The shipped hosted profile.
  // -------------------------------------------------------------------------

  /**
   * On the hosted profile, with whatever overlay of prices, a well-posed call
   * is never refused before the budget is asked, and throws only if its input
   * is too large to count.
   */
  lemma HostedCallsAreAdmitted(book: PriceBook, cap: Option<int>, request: ModelRequest)
    requires ExtendsCanonical(book) && IsWellPosed(request)
    ensures !Admit(Config(HostedProfile(), book), cap, request).Refused?
    ensures Admit(Config(HostedProfile(), book), cap, request).Threw?
      <==> EstimateUsage(request.input, HostedRoute(request.op)).inputTokens.n > MAX_SAFE_INTEGER
  {
    var g := Config(HostedProfile(), book);
    HostedIsServable(book);
    AcceptedCallsThrowOnlyOnUncountableEstimates(g, cap, request);
    EveryOpIsListed(request.op);
    HostedRouteIsCanonical(request.op);
  }

  /** A call goes where the profile sends its op, at the price the book has for it. */
  ghost predicate RoutedAndPriced(g: Config, call: Call) {
    && Op(call.request.op) in g.profile.routes
    && call.route == g.profile.routes[Op(call.request.op)]
    && call.price == g.book.Lookup(call.route.id)
  }

  lemma StepKeepsRoutes(g: Config, s: State, step: Step, i: nat)
    requires g.book.Valid() && WellFormed(s) && Enabled(g, s, step) && i < |Next(g, s, step).calls|
    requires i < |s.calls| ==> RoutedAndPriced(g, s.calls[i])
    ensures RoutedAndPriced(g, Next(g, s, step).calls[i])
  {
  }

  lemma {:induction false} CallsAreRoutedAndPriced(
    g: Config, cap: Option<int>, trace: seq<State>, steps: seq<Step>, k: nat, i: nat)
    requires IsRun(g, cap, trace, steps) && k < |trace| && i < |trace[k].calls|
    ensures RoutedAndPriced(g, trace[k].calls[i])
  {
    if k > 0 {
      if i < |trace[k - 1].calls| {
        CallsAreRoutedAndPriced(g, cap, trace, steps, k - 1, i);
      }
      StepKeepsRoutes(g, trace[k - 1], steps[k - 1], i);
    }
  }

  /** Where the provider reported tokens that could be billed, they were no more than estimated. */
  ghost predicate StayedInsideItsTokens(call: Call) {
    && call.estimate <= MAX_SAFE_INTEGER
    && (IsBilled(call) ==>
          StaysWithin(AnswerOf(call).value.usage.value, EstimateUsage(call.request.input, call.route)))
  }

  /**
   * On the hosted profile the cap is absolute whenever providers report no more
   * tokens than estimated: its prices are canonical, so no overlay can make a
   * cached token dearer than a fresh one.
   */
  lemma HostedCapIsAbsolute(book: PriceBook, cap: int, trace: seq<State>, steps: seq<Step>, k: nat)
    requires ExtendsCanonical(book)
    requires IsRun(Config(HostedProfile(), book), Some(cap), trace, steps) && k < |trace|
    requires forall i :: 0 <= i < |trace[k].calls| ==> StayedInsideItsTokens(trace[k].calls[i])
    ensures trace[k].budget.spent + trace[k].budget.reserved <= Ceiling(cap)
  {
    forall i | 0 <= i < |trace[k].calls| ensures StayedInsideItsEstimate(trace[k].calls[i]) {
      var call := trace[k].calls[i];
      CallsAreRoutedAndPriced(Config(HostedProfile(), book), Some(cap), trace, steps, k, i);
      HostedRouteIsCanonical(call.request.op);
      CanonicalEstimatesAreCeilings(call.route.id);
      EstimatesAreCeilingsIffCachedIsNoDearer(CanonicalPricing()[call.route.id]);
    }
    CapIsAbsoluteWithinEstimates(Config(HostedProfile(), book), cap, trace, steps, k);
  }
}
