/**
 * Key resolution of `src/ai/keys.ts`: a cache in insertion order, bounded in
 * size and in time, in front of a backend.
 */
module KeyStore {
  import opened Prelude
  import opened Identity
  import opened Routing

  type Key = string

  datatype Namespace = Namespace(tenant: TenantId, provider: ProviderId)

  /** A cache entry; `origin` is bookkeeping a run carries along with it. */
  datatype Slot<T> = Slot(ns: Namespace, key: Key, expiresAt: int, origin: T)

  const PROVIDER_IDS: seq<ProviderId> := [Cloudflare, Google, OpenAi, SelfHost]

  // -------------------------------------------------------------------------
  // The cache: a JavaScript Map, kept as a sequence in insertion order.
  // -------------------------------------------------------------------------

  predicate IsMap<T>(cache: seq<Slot<T>>) {
    forall i, j :: 0 <= i < j < |cache| ==> cache[i].ns != cache[j].ns
  }

  function Find<T>(cache: seq<Slot<T>>, ns: Namespace): Option<Slot<T>> {
    if cache == [] then None
    else if cache[0].ns == ns then Some(cache[0])
    else Find(cache[1..], ns)
  }

  function Without<T(!new)>(cache: seq<Slot<T>>, ns: Namespace): (r: seq<Slot<T>>)
    ensures |r| <= |cache|
    ensures forall slot :: slot in r <==> slot in cache && slot.ns != ns
    ensures IsMap(cache) ==> IsMap(r)
  {
    if cache == [] then []
    else
      assert cache == [cache[0]] + cache[1..];
      if cache[0].ns == ns then Without(cache[1..], ns) else [cache[0]] + Without(cache[1..], ns)
  }

  lemma {:induction false} WithoutDropsOne<T(!new)>(cache: seq<Slot<T>>, ns: Namespace)
    requires IsMap(cache)
    ensures |Without(cache, ns)| == |cache| - if Find(cache, ns).Some? then 1 else 0
  {
    if cache != [] {
      WithoutDropsOne(cache[1..], ns);
      if cache[0].ns == ns {
        FindIsTheEntry(cache[1..], ns);
      }
    }
  }

  /** Drop the oldest entries until there is room for one more. */
  function Evict<T>(cache: seq<Slot<T>>, maxEntries: int): (r: seq<Slot<T>>)
    ensures |r| < Max(1, maxEntries)
  {
    if |cache| >= maxEntries && cache != [] then Evict(cache[1..], maxEntries) else cache
  }

  /** What is left is the young end. */
  lemma {:induction false} EvictLeavesASuffix<T>(cache: seq<Slot<T>>, maxEntries: int)
    ensures var left := Evict(cache, maxEntries);
      |left| <= |cache| && left == cache[|cache| - |left|..]
    decreases |cache|
  {
    if |cache| >= maxEntries && cache != [] {
      EvictLeavesASuffix(cache[1..], maxEntries);
    }
  }

  /** A hit moves its entry to the young end and changes nothing in it. */
  function Touch<T(!new)>(cache: seq<Slot<T>>, slot: Slot<T>): seq<Slot<T>> {
    Without(cache, slot.ns) + [slot]
  }

  function Fill<T(!new)>(cache: seq<Slot<T>>, slot: Slot<T>, maxEntries: int): seq<Slot<T>> {
    Evict(Without(cache, slot.ns), maxEntries) + [slot]
  }

  lemma {:induction false} FindIsTheEntry<T>(cache: seq<Slot<T>>, ns: Namespace)
    ensures Find(cache, ns).Some? ==> Find(cache, ns).value in cache && Find(cache, ns).value.ns == ns
    ensures Find(cache, ns).None? <==> forall slot :: slot in cache ==> slot.ns != ns
    ensures IsMap(cache) ==> forall slot :: slot in cache && slot.ns == ns ==> Find(cache, ns) == Some(slot)
  {
    if cache != [] {
      FindIsTheEntry(cache[1..], ns);
      assert cache == [cache[0]] + cache[1..];
      if IsMap(cache) && cache[0].ns == ns {
        forall slot | slot in cache && slot.ns == ns ensures slot == cache[0] {
          var i :| 0 <= i < |cache| && cache[i] == slot;
        }
      }
    }
  }

  /** A touch extends no expiry: looking anything up answers as before. */
  lemma TouchChangesNoEntry<T(!new)>(cache: seq<Slot<T>>, ns: Namespace, other: Namespace)
    requires IsMap(cache) && Find(cache, ns).Some?
    ensures var touched := Touch(cache, Find(cache, ns).value);
      && IsMap(touched) && |touched| == |cache|
      && Find(touched, other) == Find(cache, other)
  {
    var slot := Find(cache, ns).value;
    var touched := Touch(cache, slot);
    WithoutDropsOne(cache, ns);
    FindIsTheEntry(cache, ns);
    FindIsTheEntry(cache, other);
    FindIsTheEntry(touched, other);
    if Find(cache, other).Some? {
      assert Find(cache, other).value in touched;
    }
  }

  /** What a fill leaves: the new entry, and of the old ones only survivors. */
  lemma FillKeepsSurvivors<T(!new)>(cache: seq<Slot<T>>, slot: Slot<T>, maxEntries: int)
    requires IsMap(cache)
    ensures var filled := Fill(cache, slot, maxEntries);
      && IsMap(filled) && 1 <= |filled| <= Max(1, maxEntries)
      && Find(filled, slot.ns) == Some(slot)
      && forall kept :: kept in filled ==> kept == slot || (kept in cache && kept.ns != slot.ns)
  {
    var filled := Fill(cache, slot, maxEntries);
    var others := Without(cache, slot.ns);
    var left := Evict(others, maxEntries);
    EvictLeavesASuffix(others, maxEntries);
    assert forall kept :: kept in left ==> kept in others;
    assert IsMap(left);
    assert filled == left + [slot] && filled[|filled| - 1] == slot;
    FindIsTheEntry(filled, slot.ns);
  }

  // -------------------------------------------------------------------------
  // One instance whose operations do not overlap.
  // -------------------------------------------------------------------------

  datatype ResolveFailure = ScopeDenied | NotFound | InvalidTenantId

  datatype WriteOutcome = Written | WriteDenied | WriteInvalidTenantId | BackendThrew

  /** A backend that throws on the operation for `providers[at]`, having done the work or not. */
  datatype BackendFault = BackendFault(at: nat, landed: bool)

  predicate CanResolve(caller: Caller, tenant: TenantId) {
    caller == Fleet(tenant)
  }

  /** The backend after writing `key` (None: delete) under each provider in turn. */
  function WriteAll(
    backend: map<Namespace, Key>, tenant: TenantId, providers: seq<ProviderId>, key: Option<Key>): map<Namespace, Key>
  {
    if providers == [] then backend
    else
      var before := WriteAll(backend, tenant, providers[..|providers| - 1], key);
      WriteOne(before, Namespace(tenant, providers[|providers| - 1]), key)
  }

  function WriteOne(backend: map<Namespace, Key>, ns: Namespace, key: Option<Key>): map<Namespace, Key> {
    if key.Some? then backend[ns := key.value] else backend - {ns}
  }

  /** After `WriteAll` each namespace is what the write asked for, and no other one moved. */
  lemma {:induction false} WriteAllWritesEach(
    backend: map<Namespace, Key>, tenant: TenantId, providers: seq<ProviderId>, key: Option<Key>, ns: Namespace)
    ensures var after := WriteAll(backend, tenant, providers, key);
      if ns.tenant == tenant && ns.provider in providers
      then (ns in after <==> key.Some?) && (key.Some? ==> after[ns] == key.value)
      else (ns in after <==> ns in backend) && (ns in backend ==> after[ns] == backend[ns])
  {
    if providers != [] {
      WriteAllWritesEach(backend, tenant, providers[..|providers| - 1], key, ns);
      assert providers == providers[..|providers| - 1] + [providers[|providers| - 1]];
    }
  }

  lemma EveryProviderIsListed(provider: ProviderId)
    ensures provider in PROVIDER_IDS
  {
    assert PROVIDER_IDS[0] == Cloudflare && PROVIDER_IDS[1] == Google;
    assert PROVIDER_IDS[2] == OpenAi && PROVIDER_IDS[3] == SelfHost;
  }

  class ProviderKeyStore {
    const ttlMs: int
    const maxEntries: int
    var cache: seq<Slot<()>>
    var backend: map<Namespace, Key>

    /** The cache is a map of bounded size, and everything in it is what the backend holds. */
    ghost predicate Valid()
      reads this
    {
      && IsMap(cache)
      && |cache| <= Max(1, maxEntries)
      && forall slot :: slot in cache ==> slot.ns in backend && backend[slot.ns] == slot.key
    }

    constructor (ttlMs: int, maxEntries: int, backend: map<Namespace, Key>)
      ensures Valid() && cache == [] && this.backend == backend
      ensures this.ttlMs == ttlMs && this.maxEntries == maxEntries
    {
      this.ttlMs := ttlMs;
      this.maxEntries := maxEntries;
      this.cache := [];
      this.backend := backend;
    }

    method ReadCache(ns: Namespace, now: int) returns (key: Option<Key>)
      requires IsMap(cache)
      modifies this`cache
      ensures var entry := Find(old(cache), ns);
        if entry.None? then key == None && cache == old(cache)
        else if entry.value.expiresAt <= now then key == None && cache == Without(old(cache), ns)
        else key == Some(entry.value.key) && cache == Touch(old(cache), entry.value)
    {
      var entry := Find(cache, ns);
      FindIsTheEntry(cache, ns);
      if entry.None? {
        return None;
      }
      if entry.value.expiresAt <= now {
        cache := Without(cache, ns);
        return None;
      }
      cache := Without(cache, ns);
      cache := cache + [entry.value];
      key := Some(entry.value.key);
    }

    method WriteCache(ns: Namespace, key: Key, now: int)
      modifies this`cache
      ensures cache == Fill(old(cache), Slot(ns, key, now + ttlMs, ()), maxEntries)
    {
      cache := Without(cache, ns);
      ghost var start := cache;
      while |cache| >= maxEntries
        invariant Evict(cache, maxEntries) == Evict(start, maxEntries)
        decreases |cache|
      {
        if cache == [] {
          break;
        }
        cache := cache[1..];
      }
      cache := cache + [Slot(ns, key, now + ttlMs, ())];
    }

    /** The cache is invisible: the answer is the backend's, whatever the clock says. */
    method Resolve(caller: Caller, tenant: TenantId, provider: ProviderId, readAt: int, filledAt: int)
      returns (r: Result<Key, ResolveFailure>)
      requires Valid()
      modifies this`cache
      ensures Valid()
      ensures r == (if !CanResolve(caller, tenant) then Err(ScopeDenied)
                    else if !IsValidTenantId(tenant) then Err(InvalidTenantId)
                    else if Namespace(tenant, provider) !in backend then Err(NotFound)
                    else Ok(backend[Namespace(tenant, provider)]))
      ensures r.Err? && !r.error.NotFound? ==> cache == old(cache)
    {
      if !CanResolve(caller, tenant) {
        return Err(ScopeDenied);
      }
      if !IsValidTenantId(tenant) {
        return Err(InvalidTenantId);
      }
      var ns := Namespace(tenant, provider);
      FindIsTheEntry(cache, ns);
      if Find(cache, ns).Some? {
        TouchChangesNoEntry(cache, ns, ns);
      }
      var cached := ReadCache(ns, readAt);
      if cached.Some? {
        return Ok(cached.value);
      }
      if ns !in backend {
        return Err(NotFound);
      }
      var stored := backend[ns];
      FillKeepsSurvivors(cache, Slot(ns, stored, filledAt + ttlMs, ()), maxEntries);
      WriteCache(ns, stored, filledAt);
      r := Ok(stored);
    }

    /** `put`, `revoke` and `revokeAll`: the entry leaves the cache before the backend is asked. */
    method Write(
      caller: Caller, tenant: TenantId, providers: seq<ProviderId>, key: Option<Key>, fault: Option<BackendFault>)
      returns (r: WriteOutcome)
      requires Valid()
      modifies this
      ensures Valid()
      ensures r.WriteDenied? <==> !caller.ControlPlane?
      ensures r.WriteInvalidTenantId? <==> caller.ControlPlane? && !IsValidTenantId(tenant)
      ensures r.WriteDenied? || r.WriteInvalidTenantId? ==> backend == old(backend) && cache == old(cache)
      ensures r.Written? ==> backend == WriteAll(old(backend), tenant, providers, key)
      ensures r.Written? ==> forall provider :: provider in providers ==> Find(cache, Namespace(tenant, provider)).None?
      ensures r.BackendThrew? ==> fault.Some? && fault.value.at < |providers|
      ensures r.BackendThrew? ==> Find(cache, Namespace(tenant, providers[fault.value.at])).None?
      ensures r.BackendThrew? ==>
        var landed := providers[..if fault.value.landed then fault.value.at + 1 else fault.value.at];
        backend == WriteAll(old(backend), tenant, landed, key)
    {
      if !caller.ControlPlane? {
        return WriteDenied;
      }
      if !IsValidTenantId(tenant) {
        return WriteInvalidTenantId;
      }
      for i := 0 to |providers|
        invariant Valid()
        invariant backend == WriteAll(old(backend), tenant, providers[..i], key)
        invariant forall p :: p in providers[..i] ==> Find(cache, Namespace(tenant, p)).None?
      {
        var ns := Namespace(tenant, providers[i]);
        assert providers[..i + 1][..i] == providers[..i];
        ghost var before := cache;
        cache := Without(cache, ns);
        forall p | p in providers[..i + 1] ensures Find(cache, Namespace(tenant, p)).None? {
          FindIsTheEntry(before, Namespace(tenant, p));
          FindIsTheEntry(cache, Namespace(tenant, p));
        }
        if fault.Some? && fault.value.at == i {
          if fault.value.landed {
            backend := WriteOne(backend, ns, key);
          }
          return BackendThrew;
        }
        backend := WriteOne(backend, ns, key);
      }
      assert providers[..|providers|] == providers;
      r := Written;
    }

    /** R12's erasure leg: every provider in one call. */
    method RevokeAll(caller: Caller, tenant: TenantId) returns (r: WriteOutcome)
      requires Valid()
      modifies this
      ensures Valid()
      ensures r.Written? <==> caller.ControlPlane? && IsValidTenantId(tenant)
      ensures r.Written? ==> forall ns :: ns in backend <==> ns in old(backend) && ns.tenant != tenant
    {
      r := Write(caller, tenant, PROVIDER_IDS, None, None);
      if r.Written? {
        forall ns ensures ns in backend <==> ns in old(backend) && ns.tenant != tenant {
          WriteAllWritesEach(old(backend), tenant, PROVIDER_IDS, None, ns);
          EveryProviderIsListed(ns.provider);
        }
      }
    }
  }

  // -------------------------------------------------------------------------
  // Three tiers of keys.
  // -------------------------------------------------------------------------

  datatype ResolvedKey = ExplicitKey(key: Key) | StoredKey(key: Key) | PooledKey(key: Key)

  datatype KeyRefusal = KeyScopeDenied | KeyInvalidTenantId | NoKeyAvailable

  /** `resolveProviderKey`: a refusal by the store never reaches the platform's own keys. */
  method ResolveProviderKey(
    store: ProviderKeyStore, hosted: map<ProviderId, Key>, caller: Caller, tenant: TenantId, provider: ProviderId,
    explicitKey: Option<Key>, readAt: int, filledAt: int)
    returns (r: Result<ResolvedKey, KeyRefusal>)
    requires store.Valid()
    modifies store`cache
    ensures store.Valid()
    ensures r.Err? && r.error.KeyScopeDenied? <==> !CanResolve(caller, tenant)
    ensures r.Err? && r.error.KeyInvalidTenantId? <==> CanResolve(caller, tenant) && !IsValidTenantId(tenant)
    ensures CanResolve(caller, tenant) && IsValidTenantId(tenant) ==>
      var ns := Namespace(tenant, provider);
      r == if explicitKey.Some? && explicitKey.value != "" then Ok(ExplicitKey(explicitKey.value))
           else if ns in store.backend then Ok(StoredKey(store.backend[ns]))
           else if provider in hosted then Ok(PooledKey(hosted[provider]))
           else Err(NoKeyAvailable)
  {
    if !CanResolve(caller, tenant) {
      return Err(KeyScopeDenied);
    }
    if !IsValidTenantId(tenant) {
      return Err(KeyInvalidTenantId);
    }
    if explicitKey.Some? && |explicitKey.value| > 0 {
      return Ok(ExplicitKey(explicitKey.value));
    }
    var stored := store.Resolve(caller, tenant, provider, readAt, filledAt);
    match stored {
      case Ok(key) => return Ok(StoredKey(key));
      case Err(ScopeDenied) => return Err(KeyScopeDenied);
      case Err(InvalidTenantId) => return Err(KeyInvalidTenantId);
      case Err(NotFound) =>
    }
    if provider !in hosted {
      return Err(NoKeyAvailable);
    }
    r := Ok(PooledKey(hosted[provider]));
  }

  // -------------------------------------------------------------------------
  // Overlapping operations: every `await` is a place where others may run.
  // -------------------------------------------------------------------------

  /** The backend between two writes. */
  datatype Version = Version(since: int, keys: map<Namespace, Key>)

  /** Where a cached key came from: which version was read, when, and when the fill ran. */
  datatype Origin = Origin(version: nat, readAt: int, filledAt: int)

  datatype Fetch = Asked(ns: Namespace) | Answered(ns: Namespace, stored: Option<Key>, version: nat,
      readAt: int) | Closed

  datatype Shared = Shared(clock: int, cache: seq<Slot<Origin>>, fetches: seq<Fetch>, history: seq<Version>)

  datatype Step =
    | Lookup(ns: Namespace)       // resolve, up to its first await
    | BackendGet(i: nat)          // the awaited read takes its value
    | FillCache(i: nat)           // resolve, after the await
    | DropEntry(ns: Namespace)    // write, up to its await
    | BackendSet(keys: map<Namespace, Key>) // anybody's write to the backend

  predicate Enabled(s: Shared, step: Step) {
    match step
    case BackendGet(i) => i < |s.fetches| && s.fetches[i].Asked?
    case FillCache(i) => i < |s.fetches| && s.fetches[i].Answered?
    case _ => true
  }

  function Current(s: Shared): map<Namespace, Key>
    requires s.history != []
  {
    s.history[|s.history| - 1].keys
  }

  predicate Serves(s: Shared, ns: Namespace, at: int) {
    Find(s.cache, ns).Some? && at < Find(s.cache, ns).value.expiresAt
  }

  function Next(s: Shared, step: Step, at: int, ttlMs: int, maxEntries: int): (s': Shared)
    requires s.history != [] && Enabled(s, step)
    ensures s'.history != []
  {
    var s := s.(clock := at);
    match step
    case Lookup(ns) =>
      if Serves(s, ns, at) then s.(cache := Touch(s.cache, Find(s.cache, ns).value))
      else s.(cache := Without(s.cache, ns), fetches := s.fetches + [Asked(ns)])
    case BackendGet(i) =>
      var ns := s.fetches[i].ns;
      var stored := if ns in Current(s) then Some(Current(s)[ns]) else None;
      s.(fetches := s.fetches[i := Answered(ns, stored, |s.history| - 1, at)])
    case FillCache(i) =>
      var fetch := s.fetches[i];
      var filled := if fetch.stored.None? then s.cache
        else Fill(s.cache, Slot(fetch.ns, fetch.stored.value, at + ttlMs, Origin(fetch.version, fetch.readAt, at)),
          maxEntries);
      s.(cache := filled, fetches := s.fetches[i := Closed])
    case DropEntry(ns) => s.(cache := Without(s.cache, ns))
    case BackendSet(keys) => s.(history := s.history + [Version(at, keys)])
  }

  /** A resolve fills the cache once: its fetch closes with the fill, and no step opens it again. */
  lemma AFetchFillsOnce(s: Shared, step: Step, at: int, ttlMs: int, maxEntries: int)
    requires s.history != [] && Enabled(s, step)
    ensures var s' := Next(s, step, at, ttlMs, maxEntries);
      && |s'.fetches| >= |s.fetches|
      && (step.FillCache? ==> s'.fetches[step.i] == Closed)
      && forall i :: 0 <= i < |s.fetches| && s.fetches[i] == Closed ==>
           s'.fetches[i] == Closed && !Enabled(s', BackendGet(i)) && !Enabled(s', FillCache(i))
  {
  }

  /** `version` is what the backend held at time `at`. */
  predicate HeldAt(history: seq<Version>, version: nat, at: int) {
    && version < |history|
    && history[version].since <= at
    && (version + 1 < |history| ==> at <= history[version + 1].since)
  }

  ghost predicate Inv(s: Shared, ttlMs: int, maxEntries: int) {
    && s.history != []
    && (forall v :: 0 <= v < |s.history| ==> s.history[v].since <= s.clock)
    && IsMap(s.cache) && |s.cache| <= Max(1, maxEntries)
    && (forall slot :: slot in s.cache ==>
          && HeldAt(s.history, slot.origin.version, slot.origin.readAt)
          && slot.ns in s.history[slot.origin.version].keys
          && slot.key == s.history[slot.origin.version].keys[slot.ns]
          && slot.origin.readAt <= slot.origin.filledAt <= s.clock
          && slot.expiresAt == slot.origin.filledAt + ttlMs)
    && (forall i :: 0 <= i < |s.fetches| && s.fetches[i].Answered? ==>
          && HeldAt(s.history, s.fetches[i].version, s.fetches[i].readAt)
          && s.fetches[i].readAt <= s.clock
          && (s.fetches[i].stored.Some? ==>
                && s.fetches[i].ns in s.history[s.fetches[i].version].keys
                && s.fetches[i].stored.value == s.history[s.fetches[i].version].keys[s.fetches[i].ns]))
  }

  lemma LookupKeepsInv(s: Shared, ns: Namespace, at: int, ttlMs: int, maxEntries: int)
    requires Inv(s, ttlMs, maxEntries) && Enabled(s, Lookup(ns)) && s.clock <= at
    ensures Inv(Next(s, Lookup(ns), at, ttlMs, maxEntries), ttlMs, maxEntries)
  {
    FindIsTheEntry(s.cache, ns);
    if Find(s.cache, ns).Some? {
      TouchChangesNoEntry(s.cache, ns, ns);
    }
  }

  lemma FillKeepsInv(s: Shared, i: nat, at: int, ttlMs: int, maxEntries: int)
    requires Inv(s, ttlMs, maxEntries) && Enabled(s, FillCache(i)) && s.clock <= at
    ensures Inv(Next(s, FillCache(i), at, ttlMs, maxEntries), ttlMs, maxEntries)
  {
    var fetch := s.fetches[i];
    if fetch.stored.Some? {
      FillKeepsSurvivors(s.cache,
        Slot(fetch.ns, fetch.stored.value, at + ttlMs, Origin(fetch.version, fetch.readAt, at)), maxEntries);
    }
  }

  lemma StepKeepsInv(s: Shared, step: Step, at: int, ttlMs: int, maxEntries: int)
    requires Inv(s, ttlMs, maxEntries) && Enabled(s, step) && s.clock <= at
    ensures Inv(Next(s, step, at, ttlMs, maxEntries), ttlMs, maxEntries)
  {
    match step {
      case Lookup(ns) => LookupKeepsInv(s, ns, at, ttlMs, maxEntries);
      case FillCache(i) => FillKeepsInv(s, i, at, ttlMs, maxEntries);
      case _ =>
    }
  }

  ghost predicate IsRun(trace: seq<Shared>, steps: seq<Step>, times: seq<int>, ttlMs: int, maxEntries: int) {
    && |trace| == |steps| + 1 && |times| == |steps|
    && trace[0].cache == [] && trace[0].fetches == []
    && |trace[0].history| == 1 && trace[0].history[0].since <= trace[0].clock
    && forall k :: 0 <= k < |steps| ==>
         && trace[k].history != [] && trace[k].clock <= times[k] && Enabled(trace[k], steps[k])
         && trace[k + 1] == Next(trace[k], steps[k], times[k], ttlMs, maxEntries)
  }

  lemma {:induction false} EveryRunKeepsInv(
    trace: seq<Shared>, steps: seq<Step>, times: seq<int>, ttlMs: int, maxEntries: int, k: nat)
    requires IsRun(trace, steps, times, ttlMs, maxEntries) && k < |trace|
    ensures Inv(trace[k], ttlMs, maxEntries)
  {
    if k > 0 {
      EveryRunKeepsInv(trace, steps, times, ttlMs, maxEntries, k - 1);
      StepKeepsInv(trace[k - 1], steps[k - 1], times[k - 1], ttlMs, maxEntries);
    }
  }

  /**
   * A key served from the cache, however operations overlapped, is what the
   * backend held at a read younger than the TTL plus that fill's own delay.
   */
  lemma ServedKeysAreRecent(
    trace: seq<Shared>, steps: seq<Step>, times: seq<int>, ttlMs: int, maxEntries: int, k: nat, ns: Namespace, at: int)
    requires IsRun(trace, steps, times, ttlMs, maxEntries) && k < |trace|
    requires trace[k].clock <= at && Serves(trace[k], ns, at)
    ensures |trace[k].cache| <= Max(1, maxEntries)
    ensures var slot := Find(trace[k].cache, ns).value;
      && HeldAt(trace[k].history, slot.origin.version, slot.origin.readAt)
      && ns in trace[k].history[slot.origin.version].keys
      && slot.key == trace[k].history[slot.origin.version].keys[ns]
      && 0 <= at - slot.origin.readAt < ttlMs + (slot.origin.filledAt - slot.origin.readAt)
  {
    EveryRunKeepsInv(trace, steps, times, ttlMs, maxEntries, k);
    FindIsTheEntry(trace[k].cache, ns);
  }

  /**
   * A resolve of `ns` during which the same process revokes `ns`: the backend
   * read comes before the revocation, the fill after it.
   */
  ghost function ResolveAcrossRevocation(ns: Namespace, key: Key): (s: Shared)
    ensures s.history != []
  {
    var s0 := Shared(0, [], [], [Version(0, map[ns := key])]);
    var s1 := Next(s0, Lookup(ns), 1, 60_000, 512);
    assert s1.fetches == [Asked(ns)];
    var s2 := Next(s1, BackendGet(0), 2, 60_000, 512);
    var s3 := Next(s2, DropEntry(ns), 3, 60_000, 512);
    var s4 := Next(s3, BackendSet(map[]), 4, 60_000, 512);
    assert s4.fetches == [Answered(ns, Some(key), 0, 2)];
    Next(s4, FillCache(0), 5, 60_000, 512)
  }

  /**
   * The bound is needed: the revoking process goes on serving a key it has
   * revoked when a resolve was between its backend read and its fill.
   */
  lemma ARevokedKeyCanStillBeServed(ns: Namespace, key: Key)
    ensures var s := ResolveAcrossRevocation(ns, key);
      ns !in Current(s) && Serves(s, ns, s.clock) && Find(s.cache, ns).value.key == key
  {
    var slot := Slot(ns, key, 5 + 60_000, Origin(0, 2, 5));
    assert Fill([], slot, 512) == [slot];
    assert ResolveAcrossRevocation(ns, key).cache == [slot];
  }
}
