/** The op tables and the startup validator of `src/ai/routing.ts`. */
module Routing {
  import opened Prelude
  import opened Pricing

  datatype ModelOp =
    | Extract | Enrich | Contradiction | Salience | Synopsis
    | Vision | Judge | Rerank | Embedding

  /** A key of a hand-written routing table: one of the nine ops, or anything else. */
  datatype OpKey = Op(op: ModelOp) | Unknown(name: string)

  datatype OpKind = Chat | Ranking | Vectors

  const MODEL_OPS: seq<ModelOp> :=
    [Extract, Enrich, Contradiction, Salience, Synopsis, Vision, Judge, Rerank, Embedding]

  function KindOf(op: ModelOp): OpKind {
    match op
    case Rerank => Ranking
    case Embedding => Vectors
    case _ => Chat
  }

  predicate AcceptsImages(op: ModelOp) {
    op.Vision?
  }

  predicate AdmitsEmptyAnswer(op: ModelOp) {
    op.Vision?
  }

  const IMAGE_INPUT_TOKENS: int := 1_600

  datatype ProviderId = Cloudflare | Google | OpenAi | SelfHost

  datatype Route = Route(
    op: OpKey,
    alias: string,
    id: ModelId,
    provider: ProviderId,
    pinnedOn: string,
    unpinnable: Option<string>,
    maxOutputTokens: Number)

  datatype NamedProfile = NamedProfile(name: string, routes: map<OpKey, Route>)

  predicate StartsWith(s: string, prefix: string) {
    prefix <= s
  }

  /** The string ends in `-dddd-dd-dd`. */
  predicate IsDatedSnapshot(s: string) {
    |s| >= 11 && s[|s| - 11] == '-' && IsIsoDate(s[|s| - 10..])
  }

  predicate IsSelfHosted(id: ModelId) {
    StartsWith(id, "self-host/")
  }

  predicate IsPinnable(id: ModelId) {
    || StartsWith(id, "@cf/") || IsSelfHosted(id) || StartsWith(id, "text-embedding-3-")
    || IsDatedSnapshot(id)
  }

  /** The width of the column an embedding model writes to, if it has one. */
  function SeatWidth(id: ModelId): Option<int> {
    if id == "text-embedding-3-large" then Some(1536)
    else if id == "@cf/qwen/qwen3-embedding-0.6b" then Some(1024)
    else if IsSelfHosted(id) then Some(1024)
    else None
  }

  predicate IsDate(date: string) {
    && |date| == 10 && date[4] == '-' && date[7] == '-'
    && forall i :: 0 <= i < 10 && i != 4 && i != 7 ==> '0' <= date[i] <= '9'
  }

  /** An id of an immutable family is pinned whatever follows, and any id that ends in a hyphen and a date. */
  lemma WhatPinsAnId(stem: string, rest: string, date: string)
    ensures IsPinnable("@cf/" + rest) && IsPinnable("self-host/" + rest) && IsPinnable("text-embedding-3-" + rest)
    ensures IsDate(date) ==> IsPinnable(stem + "-" + date)
  {
    if IsDate(date) {
      var id := stem + "-" + date;
      assert id[|id| - 11] == '-' && id[|id| - 10..] == date;
    }
  }

  ghost predicate Begins(id: ModelId, stem: string) {
    exists rest: string :: id == stem + rest
  }

  ghost predicate EndsInADate(id: ModelId) {
    exists stem, date: string :: IsDate(date) && id == stem + "-" + date
  }

  lemma PrefixesBegin(id: ModelId, stem: string)
    requires StartsWith(id, stem)
    ensures Begins(id, stem)
  {
    assert id == stem + id[|stem|..];
  }

  lemma SnapshotsEndInADate(id: ModelId)
    requires IsDatedSnapshot(id)
    ensures EndsInADate(id)
  {
    var stem, date := id[..|id| - 11], id[|id| - 10..];
    assert id[|id| - 11..|id| - 10] == "-";
    assert id == stem + "-" + date && IsDate(date);
  }

  /** And no other id is. */
  lemma PinnedIdsAreThose(id: ModelId)
    requires IsPinnable(id)
    ensures Begins(id, "@cf/") || Begins(id, "self-host/") || Begins(id, "text-embedding-3-") || EndsInADate(id)
  {
    if StartsWith(id, "@cf/") {
      PrefixesBegin(id, "@cf/");
    } else if StartsWith(id, "self-host/") {
      PrefixesBegin(id, "self-host/");
    } else if StartsWith(id, "text-embedding-3-") {
      PrefixesBegin(id, "text-embedding-3-");
    } else {
      SnapshotsEndInADate(id);
    }
  }

  /** The two embedding models of the table write the two widths, a self-hosted one the active width. */
  lemma WhichSeats(id: ModelId)
    ensures SeatWidth(id) == Some(1536) <==> id == "text-embedding-3-large"
    ensures SeatWidth(id) == Some(1024) <==> id == "@cf/qwen/qwen3-embedding-0.6b" || "self-host/" <= id
    ensures SeatWidth(id).Some? ==> SeatWidth(id).value in {1024, 1536}
  {
    var large, selfHosted := "text-embedding-3-large", "self-host/";
    assert large[0] != selfHosted[0];
  }

  datatype FaultKind =
    | NotAnOp
    | NoEntry
    | Misfiled
    | PinDateNotIso
    | NotOfItsAlias
    | MovingAlias
    | NeedlesslyUnpinnable
    | UnpinnableWithoutReason
    | SelfHostWithoutPrefix
    | SelfHostOnCanonicalId
    | NoCanonicalPrice
    | NoEmbeddingSeat
    | ChatWithoutCeiling
    | CeilingOnNonChat
    | ChatPricedInputOnly
    | NonChatPricedOutput

  datatype Fault = Fault(key: OpKey, kind: FaultKind)

  predicate HasPinFault(op: ModelOp, route: Route, kind: FaultKind) {
    match kind
    case Misfiled => route.op != Op(op)
    case PinDateNotIso => !IsIsoDate(route.pinnedOn)
    case NotOfItsAlias => !StartsWith(route.id, route.alias)
    case MovingAlias =>
      StartsWith(route.id, route.alias) && !IsPinnable(route.id) && route.unpinnable.None?
    case NeedlesslyUnpinnable => route.unpinnable.Some? && IsPinnable(route.id)
    case UnpinnableWithoutReason => route.unpinnable.Some? && IsBlank(route.unpinnable.value)
    case _ => false
  }

  predicate HasOwnerFault(op: ModelOp, route: Route, book: PriceBook, kind: FaultKind) {
    match kind
    case SelfHostWithoutPrefix => route.provider.SelfHost? && !IsSelfHosted(route.id)
    case SelfHostOnCanonicalId => route.provider.SelfHost? && book.IsCanonical(route.id)
    case NoCanonicalPrice => !route.provider.SelfHost? && !book.IsCanonical(route.id)
    case NoEmbeddingSeat => KindOf(op).Vectors? && SeatWidth(route.id).None?
    case _ => false
  }

  predicate HasOutputFault(op: ModelOp, route: Route, book: PriceBook, kind: FaultKind) {
    match kind
    case ChatWithoutCeiling => KindOf(op).Chat? && route.maxOutputTokens.IsAtMostZero()
    case CeilingOnNonChat => !KindOf(op).Chat? && route.maxOutputTokens != Whole(0)
    case ChatPricedInputOnly =>
      KindOf(op).Chat? && book.Lookup(route.id).Some? && !BillsOutput(book.Lookup(route.id).value)
    case NonChatPricedOutput =>
      !KindOf(op).Chat? && book.Lookup(route.id).Some? && BillsOutput(book.Lookup(route.id).value)
    case _ => false
  }

  /** A chat op needs a ceiling that is not at most zero, one token is enough, and NaN and fractions of more pass. */
  lemma WhichCeilingsAreFaults(op: ModelOp, route: Route, book: PriceBook)
    ensures HasOutputFault(op, route, book, ChatWithoutCeiling) <==>
      op !in {Rerank, Embedding}
      && (route.maxOutputTokens == NotWhole(true) || exists n: int :: n < 1 && route.maxOutputTokens == Whole(n))
    ensures HasOutputFault(op, route, book, CeilingOnNonChat) <==>
      op in {Rerank, Embedding} && route.maxOutputTokens != Whole(0)
  {
  }

  predicate HasFault(profile: NamedProfile, book: PriceBook, fault: Fault) {
    match fault.key
    case Unknown(_) => fault.key in profile.routes && fault.kind == NotAnOp
    case Op(op) =>
      if fault.key !in profile.routes then fault.kind == NoEntry
      else
        || HasPinFault(op, profile.routes[fault.key], fault.kind)
        || HasOwnerFault(op, profile.routes[fault.key], book, fault.kind)
        || HasOutputFault(op, profile.routes[fault.key], book, fault.kind)
  }

  ghost predicate Servable(profile: NamedProfile, book: PriceBook) {
    forall fault :: !HasFault(profile, book, fault)
  }

  method PinFaults(op: ModelOp, route: Route) returns (kinds: seq<FaultKind>)
    ensures forall kind :: kind in kinds <==> HasPinFault(op, route, kind)
  {
    kinds := [];
    if route.op != Op(op) {
      kinds := kinds + [Misfiled];
    }
    if !IsIsoDate(route.pinnedOn) {
      kinds := kinds + [PinDateNotIso];
    }
    var pinnable := IsPinnable(route.id);
    if !StartsWith(route.id, route.alias) {
      kinds := kinds + [NotOfItsAlias];
    } else if !pinnable && route.unpinnable.None? {
      kinds := kinds + [MovingAlias];
    }
    if route.unpinnable.Some? {
      if pinnable {
        kinds := kinds + [NeedlesslyUnpinnable];
      }
      if IsBlank(route.unpinnable.value) {
        kinds := kinds + [UnpinnableWithoutReason];
      }
    }
  }

  method OwnerFaults(op: ModelOp, route: Route, book: PriceBook) returns (kinds: seq<FaultKind>)
    ensures forall kind :: kind in kinds <==> HasOwnerFault(op, route, book, kind)
  {
    kinds := [];
    if route.provider.SelfHost? {
      if !IsSelfHosted(route.id) {
        kinds := kinds + [SelfHostWithoutPrefix];
      }
      if book.IsCanonical(route.id) {
        kinds := kinds + [SelfHostOnCanonicalId];
      }
    } else if !book.IsCanonical(route.id) {
      kinds := kinds + [NoCanonicalPrice];
    }
    if KindOf(op).Vectors? && SeatWidth(route.id).None? {
      kinds := kinds + [NoEmbeddingSeat];
    }
  }

  method OutputFaults(op: ModelOp, route: Route, book: PriceBook) returns (kinds: seq<FaultKind>)
    ensures forall kind :: kind in kinds <==> HasOutputFault(op, route, book, kind)
  {
    kinds := [];
    var kind := KindOf(op);
    var price := book.Lookup(route.id);
    if kind.Chat? {
      if route.maxOutputTokens.IsAtMostZero() {
        kinds := kinds + [ChatWithoutCeiling];
      }
      if price.Some? && !BillsOutput(price.value) {
        kinds := kinds + [ChatPricedInputOnly];
      }
    } else {
      if route.maxOutputTokens != Whole(0) {
        kinds := kinds + [CeilingOnNonChat];
      }
      if price.Some? && BillsOutput(price.value) {
        kinds := kinds + [NonChatPricedOutput];
      }
    }
  }

  /** Every op is in the list the validator walks. */
  lemma EveryOpIsListed(op: ModelOp)
    ensures op in MODEL_OPS
  {
    assert MODEL_OPS[0] == Extract && MODEL_OPS[1] == Enrich && MODEL_OPS[2] == Contradiction;
    assert MODEL_OPS[3] == Salience && MODEL_OPS[4] == Synopsis && MODEL_OPS[5] == Vision;
    assert MODEL_OPS[6] == Judge && MODEL_OPS[7] == Rerank && MODEL_OPS[8] == Embedding;
  }

  function Labelled(key: OpKey, kinds: seq<FaultKind>): (faults: seq<Fault>)
    ensures forall fault :: fault in faults <==> fault.key == key && fault.kind in kinds
  {
    if kinds == [] then []
    else
      assert kinds == [kinds[0]] + kinds[1..];
      [Fault(key, kinds[0])] + Labelled(key, kinds[1..])
  }

  /** Every fault of a profile, and nothing else. */
  method FindRoutingFaults(profile: NamedProfile, book: PriceBook) returns (faults: seq<Fault>)
    ensures forall fault :: fault in faults <==> HasFault(profile, book, fault)
    ensures faults == [] <==> Servable(profile, book)
  {
    faults := [];
    var keys := profile.routes.Keys;
    while keys != {}
      invariant keys <= profile.routes.Keys
      invariant forall fault :: fault in faults <==>
        fault.key.Unknown? && fault.key in profile.routes.Keys - keys && fault.kind == NotAnOp
    {
      var key :| key in keys;
      if key.Unknown? {
        faults := faults + [Fault(key, NotAnOp)];
      }
      keys := keys - {key};
    }

    for i := 0 to |MODEL_OPS|
      invariant forall fault :: fault in faults <==>
        HasFault(profile, book, fault) && (fault.key.Op? ==> fault.key.op in MODEL_OPS[..i])
    {
      var op := MODEL_OPS[i];
      assert MODEL_OPS[..i + 1] == MODEL_OPS[..i] + [op];
      if Op(op) !in profile.routes {
        faults := faults + [Fault(Op(op), NoEntry)];
      } else {
        var pins := PinFaults(op, profile.routes[Op(op)]);
        var owner := OwnerFaults(op, profile.routes[Op(op)], book);
        var output := OutputFaults(op, profile.routes[Op(op)], book);
        faults := faults + Labelled(Op(op), pins + owner + output);
      }
    }

    assert MODEL_OPS[..|MODEL_OPS|] == MODEL_OPS;
    forall fault: Fault | fault.key.Op? ensures fault.key.op in MODEL_OPS {
      EveryOpIsListed(fault.key.op);
    }
    assert faults != [] ==> faults[0] in faults;
  }

  // -------------------------------------------------------------------------
  // The shipped profiles.
  // -------------------------------------------------------------------------

  /** The reason a route gives for carrying no pin; only that it gives one is looked at. */
  const UNPINNABLE_UNIFIED_GEMINI: string := "the endpoint serves an undated alias only"

  const PIN_DATE: string := "2026-08-12"
  const CLOUDFLARE_PIN_DATE: string := "2026-08-16"

  function UnifiedGemini(op: ModelOp, ceiling: int): Route {
    Route(Op(op), "google/gemini-3.5-flash-lite", "google/gemini-3.5-flash-lite", Cloudflare,
          CLOUDFLARE_PIN_DATE, Some(UNPINNABLE_UNIFIED_GEMINI), Whole(ceiling))
  }

  function DirectGemini(op: ModelOp, ceiling: int): Route {
    Route(Op(op), "gemini-3.5-flash-lite", "gemini-3.5-flash-lite-2026-07-21", Google,
          PIN_DATE, None, Whole(ceiling))
  }

  /** A route whose id is its own alias. */
  function OpenWeights(op: ModelOp, id: ModelId, provider: ProviderId, pinnedOn: string, ceiling: int): Route {
    Route(Op(op), id, id, provider, pinnedOn, None, Whole(ceiling))
  }

  function HostedRoute(op: ModelOp): Route {
    match op
    case Extract => UnifiedGemini(op, 4_096)
    case Enrich => UnifiedGemini(op, 2_048)
    case Contradiction => UnifiedGemini(op, 1_024)
    case Salience => OpenWeights(op, "@cf/nvidia/nemotron-3-120b-a12b", Cloudflare, PIN_DATE, 2_048)
    case Synopsis => OpenWeights(op, "@cf/nvidia/nemotron-3-120b-a12b", Cloudflare, PIN_DATE, 2_048)
    case Vision => OpenWeights(op, "@cf/moondream/moondream3.1-9B-A2B", Cloudflare, CLOUDFLARE_PIN_DATE, 4_096)
    case Judge => OpenWeights(op, "@cf/zai-org/glm-5.2", Cloudflare, PIN_DATE, 2_048)
    case Rerank => OpenWeights(op, "@cf/baai/bge-reranker-base", Cloudflare, PIN_DATE, 0)
    case Embedding => OpenWeights(op, "@cf/qwen/qwen3-embedding-0.6b", Cloudflare, CLOUDFLARE_PIN_DATE, 0)
  }

  function SelfHostRoute(op: ModelOp): Route {
    match op
    case Extract => DirectGemini(op, 4_096)
    case Enrich => DirectGemini(op, 2_048)
    case Contradiction => DirectGemini(op, 1_024)
    case Salience => OpenWeights(op, "self-host/nemotron-3-120b-a12b", SelfHost, PIN_DATE, 1_024)
    case Synopsis => OpenWeights(op, "self-host/nemotron-3-120b-a12b", SelfHost, PIN_DATE, 512)
    case Vision => OpenWeights(op, "self-host/llama-3.2-11b-vision-instruct", SelfHost, PIN_DATE, 4_096)
    case Judge => OpenWeights(op, "self-host/glm-5.2", SelfHost, PIN_DATE, 2_048)
    case Rerank => OpenWeights(op, "self-host/bge-reranker-base", SelfHost, PIN_DATE, 0)
    case Embedding => OpenWeights(op, "self-host/qwen3-embedding-0.6b", SelfHost, CLOUDFLARE_PIN_DATE, 0)
  }

  function HostedProfile(): NamedProfile {
    NamedProfile("hosted", map op: ModelOp | op in MODEL_OPS :: Op(op) := HostedRoute(op))
  }

  function SelfHostProfile(): NamedProfile {
    NamedProfile("self-host", map op: ModelOp | op in MODEL_OPS :: Op(op) := SelfHostRoute(op))
  }

  /**
   * The two profiles allow an op the same output, except that salience and
   * synopsis run at half and a quarter on the operator's own model; their
   * providers never differ within the ops of one model.
   */
  lemma TheProfilesAllowTheSameOutput(op: ModelOp)
    ensures var hosted, own := HostedRoute(op), SelfHostRoute(op);
      && hosted.maxOutputTokens.n ==
           own.maxOutputTokens.n * (if op.Salience? then 2 else if op.Synopsis? then 4 else 1)
      && own.maxOutputTokens.n ==
           (match op
            case Extract => 4_096
            case Vision => 4_096
            case Enrich => 2_048
            case Judge => 2_048
            case Contradiction => 1_024
            case Salience => 1_024
            case Synopsis => 512
            case _ => 0)
      && hosted.provider == Cloudflare
      && own.provider == if op in {Extract, Enrich, Contradiction} then Google else SelfHost
  {
  }

  /** By name: one model of the operator's serves salience and synopsis, and each other op has its own. */
  lemma TheOperatorsModels(op: ModelOp)
    requires SelfHostRoute(op).provider == SelfHost
    ensures
      match op
      case Vision => SelfHostRoute(op).id == "self-host/llama-3.2-11b-vision-instruct"
      case Judge => SelfHostRoute(op).id == "self-host/glm-5.2"
      case Rerank => SelfHostRoute(op).id == "self-host/bge-reranker-base"
      case Embedding => SelfHostRoute(op).id == "self-host/qwen3-embedding-0.6b"
      case _ => SelfHostRoute(op).id == "self-host/nemotron-3-120b-a12b"
  {
  }

  /** What a hosted op pays for a million tokens of output, in micro-USD; reranking and embedding write none. */
  lemma WhatHostedOutputCosts(op: ModelOp)
    ensures HostedRoute(op).id in CanonicalPricing()
    ensures CanonicalPricing()[HostedRoute(op).id].output ==
      match op
      case Salience => Some(Whole(1_500_000))
      case Synopsis => Some(Whole(1_500_000))
      case Vision => Some(Whole(1_000_000))
      case Judge => Some(Whole(4_400_000))
      case Rerank => None
      case Embedding => None
      case _ => Some(Whole(2_500_000))
  {
  }

  /** A book that `createPriceBook` builds: the canonical table, and an overlay beside it. */
  ghost predicate ExtendsCanonical(book: PriceBook) {
    && book.Valid()
    && book.canonical == CanonicalPricing().Keys
    && forall id :: id in CanonicalPricing() ==> book.Lookup(id) == Some(CanonicalPricing()[id])
  }

  lemma PinDatesAreIso()
    ensures IsIsoDate(PIN_DATE) && IsIsoDate(CLOUDFLARE_PIN_DATE)
  {
  }

  /** The one id that carries no pin cannot carry one. */
  lemma UnifiedGeminiHasNoPin()
    ensures !IsPinnable("google/gemini-3.5-flash-lite")
    ensures !IsBlank(UNPINNABLE_UNIFIED_GEMINI)
  {
    var id := "google/gemini-3.5-flash-lite";
    assert |id| == 28;
    assert id[0] == 'g';
    assert id[18..][4] == 'h';
    assert !IsSpace(UNPINNABLE_UNIFIED_GEMINI[0]);
  }

  lemma HostedRouteHasNoPinFault(op: ModelOp, kind: FaultKind)
    ensures !HasPinFault(op, HostedRoute(op), kind)
  {
    PinDatesAreIso();
    UnifiedGeminiHasNoPin();
  }

  /** Every hosted id is a row of the canonical table, priced for what its op does. */
  lemma HostedRouteIsCanonical(op: ModelOp)
    ensures HostedRoute(op).id in CanonicalPricing()
    ensures BillsOutput(CanonicalPricing()[HostedRoute(op).id]) <==> KindOf(op).Chat?
  {
    WhatHostedOutputCosts(op);
  }

  lemma HostedRouteHasNoPriceFault(op: ModelOp, book: PriceBook, kind: FaultKind)
    requires ExtendsCanonical(book)
    ensures !HasOwnerFault(op, HostedRoute(op), book, kind)
    ensures !HasOutputFault(op, HostedRoute(op), book, kind)
  {
    HostedRouteIsCanonical(op);
  }

  /** The hosted profile passes the startup gate with every overlay of prices. */
  lemma HostedIsServable(book: PriceBook)
    requires ExtendsCanonical(book)
    ensures Servable(HostedProfile(), book)
  {
    forall fault ensures !HasFault(HostedProfile(), book, fault) {
      if fault.key.Op? {
        EveryOpIsListed(fault.key.op);
        HostedRouteHasNoPinFault(fault.key.op, fault.kind);
        HostedRouteHasNoPriceFault(fault.key.op, book, fault.kind);
      }
    }
  }

  /** An overlay that prices an operator's own models charges for output exactly where there is some. */
  ghost predicate PricesOutputWhereThereIsSome(book: PriceBook) {
    forall op: ModelOp ::
      SelfHostRoute(op).provider.SelfHost? && book.Lookup(SelfHostRoute(op).id).Some? ==>
        (BillsOutput(book.Lookup(SelfHostRoute(op).id).value) <==> KindOf(op).Chat?)
  }

  lemma DatedGemini()
    ensures IsPinnable("gemini-3.5-flash-lite-2026-07-21")
    ensures StartsWith("gemini-3.5-flash-lite-2026-07-21", "gemini-3.5-flash-lite")
    ensures "gemini-3.5-flash-lite-2026-07-21" in CanonicalPricing()
    ensures BillsOutput(CanonicalPricing()["gemini-3.5-flash-lite-2026-07-21"])
  {
    var id := "gemini-3.5-flash-lite-2026-07-21";
    assert id[22..] == "2026-07-21";
  }

  lemma OperatorsIdsAreSelfHosted(op: ModelOp)
    requires SelfHostRoute(op).provider.SelfHost?
    ensures IsSelfHosted(SelfHostRoute(op).id)
  {
  }

  /** No id of the canonical table is an operator's own. */
  lemma CanonicalIdsAreNotSelfHosted(id: ModelId)
    requires id in CanonicalPricing()
    ensures !IsSelfHosted(id)
  {
    assert id[0] != 's';
  }

  lemma PinnedRouteHasNoPinFault(op: ModelOp, route: Route, kind: FaultKind)
    requires route.op == Op(op) && IsIsoDate(route.pinnedOn) && route.unpinnable.None?
    requires StartsWith(route.id, route.alias) && IsPinnable(route.id)
    ensures !HasPinFault(op, route, kind)
  {
  }

  /** What the self-host routes have in common. */
  lemma SelfHostRouteShape(op: ModelOp)
    ensures var route := SelfHostRoute(op);
      && route.op == Op(op) && IsIsoDate(route.pinnedOn) && route.unpinnable.None?
      && (KindOf(op).Chat? <==> !route.maxOutputTokens.IsAtMostZero())
      && (!KindOf(op).Chat? ==> route.maxOutputTokens == Whole(0))
      && (if route.provider.SelfHost? then route.alias == route.id
          else KindOf(op).Chat?
               && route.id == "gemini-3.5-flash-lite-2026-07-21" && route.alias == "gemini-3.5-flash-lite")
  {
    PinDatesAreIso();
  }

  /** The one kind of fault an overlay can make of an operator's own route. */
  function MispricedKind(op: ModelOp): FaultKind {
    if KindOf(op).Chat? then ChatPricedInputOnly else NonChatPricedOutput
  }

  lemma SelfHostRouteFaults(op: ModelOp, book: PriceBook, kind: FaultKind)
    requires ExtendsCanonical(book)
    ensures !HasPinFault(op, SelfHostRoute(op), kind)
    ensures !HasOwnerFault(op, SelfHostRoute(op), book, kind)
    ensures HasOutputFault(op, SelfHostRoute(op), book, kind) <==>
      && SelfHostRoute(op).provider.SelfHost?
      && book.Lookup(SelfHostRoute(op).id).Some?
      && kind == MispricedKind(op)
      && BillsOutput(book.Lookup(SelfHostRoute(op).id).value) != KindOf(op).Chat?
  {
    SelfHostRouteShape(op);
    DatedGemini();
    var route := SelfHostRoute(op);
    if route.provider.SelfHost? {
      OperatorsIdsAreSelfHosted(op);
      if route.id in CanonicalPricing() {
        CanonicalIdsAreNotSelfHosted(route.id);
      }
    }
    PinnedRouteHasNoPinFault(op, route, kind);
  }

  lemma MispricedOp(op: ModelOp, book: PriceBook)
    requires ExtendsCanonical(book) && Servable(SelfHostProfile(), book)
    requires SelfHostRoute(op).provider.SelfHost? && book.Lookup(SelfHostRoute(op).id).Some?
    ensures BillsOutput(book.Lookup(SelfHostRoute(op).id).value) <==> KindOf(op).Chat?
  {
    EveryOpIsListed(op);
    SelfHostRouteFaults(op, book, MispricedKind(op));
    assert !HasFault(SelfHostProfile(), book, Fault(Op(op), MispricedKind(op)));
  }

  lemma WellPricedIsServable(book: PriceBook)
    requires ExtendsCanonical(book) && PricesOutputWhereThereIsSome(book)
    ensures Servable(SelfHostProfile(), book)
  {
    forall fault ensures !HasFault(SelfHostProfile(), book, fault) {
      if fault.key.Op? {
        EveryOpIsListed(fault.key.op);
        SelfHostRouteFaults(fault.key.op, book, fault.kind);
      }
    }
  }

  /**
   * The self-host profile passes exactly with overlays that price output on
   * its chat models and on no other; in particular with no overlay.
   */
  lemma SelfHostIsServableIff(book: PriceBook)
    requires ExtendsCanonical(book)
    ensures Servable(SelfHostProfile(), book) <==> PricesOutputWhereThereIsSome(book)
    ensures book.prices.Keys == book.canonical ==> Servable(SelfHostProfile(), book)
  {
    if Servable(SelfHostProfile(), book) {
      forall op: ModelOp | SelfHostRoute(op).provider.SelfHost? && book.Lookup(SelfHostRoute(op).id).Some?
        ensures BillsOutput(book.Lookup(SelfHostRoute(op).id).value) <==> KindOf(op).Chat?
      {
        MispricedOp(op, book);
      }
    }
    if PricesOutputWhereThereIsSome(book) {
      WellPricedIsServable(book);
    }
    if book.prices.Keys == book.canonical {
      forall op: ModelOp | SelfHostRoute(op).provider.SelfHost?
        ensures book.Lookup(SelfHostRoute(op).id).None?
      {
        SelfHostRouteFaults(op, book, SelfHostOnCanonicalId);
      }
    }
  }

  // -------------------------------------------------------------------------
  // What the validator lets through.
  // -------------------------------------------------------------------------

  /** The hosted profile with a ceiling for extraction that is no whole number, 0.5 or NaN. */
  function WithAFractionalCeiling(): NamedProfile {
    var hosted := HostedProfile();
    hosted.(routes := hosted.routes[Op(Extract) := HostedRoute(Extract).(maxOutputTokens := NotWhole(false))])
  }

  lemma AFractionalCeilingIsServable(book: PriceBook)
    requires ExtendsCanonical(book)
    ensures Servable(WithAFractionalCeiling(), book)
  {
    forall fault ensures !HasFault(WithAFractionalCeiling(), book, fault) {
      if fault.key.Op? {
        EveryOpIsListed(fault.key.op);
        HostedRouteHasNoPinFault(fault.key.op, fault.kind);
        HostedRouteHasNoPriceFault(fault.key.op, book, fault.kind);
      }
    }
  }

  /** An operator's own vision model, at the greatest rate a price may have. */
  const DEAR_MODEL: ModelId := "self-host/llama-3.2-11b-vision-instruct"

  function DearPrice(): ModelPrice {
    ModelPrice(Whole(MAX_SAFE_INTEGER), Some(Whole(MAX_SAFE_INTEGER)), None)
  }

  function DearBook(): PriceBook {
    PriceBook(CanonicalPricing()[DEAR_MODEL := DearPrice()], CanonicalPricing().Keys)
  }

  lemma DearModelIsNotCanonical()
    ensures DEAR_MODEL !in CanonicalPricing()
  {
    if DEAR_MODEL in CanonicalPricing() {
      CanonicalIdsAreNotSelfHosted(DEAR_MODEL);
    }
  }

  lemma OnlyVisionIsDear(op: ModelOp)
    ensures op != Vision ==> SelfHostRoute(op).id != DEAR_MODEL
  {
    if op != Vision {
      assert SelfHostRoute(op).id[10] != DEAR_MODEL[10];
    }
  }

  lemma ADearBookIsServable()
    ensures ExtendsCanonical(DearBook()) && Servable(SelfHostProfile(), DearBook())
  {
    var book := DearBook();
    DearModelIsNotCanonical();
    forall id | id in CanonicalPricing() ensures UsablePrice(CanonicalPricing()[id]) {
      CanonicalEstimatesAreCeilings(id);
    }
    forall op: ModelOp | SelfHostRoute(op).provider.SelfHost? && book.Lookup(SelfHostRoute(op).id).Some?
      ensures BillsOutput(book.Lookup(SelfHostRoute(op).id).value) <==> KindOf(op).Chat?
    {
      var id := SelfHostRoute(op).id;
      OperatorsIdsAreSelfHosted(op);
      if id in CanonicalPricing() {
        CanonicalIdsAreNotSelfHosted(id);
      }
      OnlyVisionIsDear(op);
    }
    SelfHostIsServableIff(book);
  }
}
