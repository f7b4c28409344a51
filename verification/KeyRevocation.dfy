/**
 * When a process goes on serving a key it has revoked (`src/ai/keys.ts`): the steps of `KeyStore`,
 * seen from one drop of a cache entry and the write to the backend that follows it.
 */
module KeyRevocation {
  import opened Prelude
  import opened Identity
  import opened KeyStore

  function Held(keys: map<Namespace, Key>, ns: Namespace): Option<Key> {
    if ns in keys then Some(keys[ns]) else None
  }

  predicate IsCached(s: Shared, ns: Namespace) {
    Find(s.cache, ns).Some?
  }

  /** Resolve `i` has read a key of `ns` and not filled the cache with it yet. */
  predicate HoldsARead(s: Shared, i: int, ns: Namespace) {
    && 0 <= i < |s.fetches| && s.fetches[i].Answered?
    && s.fetches[i].ns == ns && s.fetches[i].stored.Some?
  }

  ghost predicate IsBeingResolved(s: Shared, ns: Namespace) {
    exists i :: HoldsARead(s, i, ns)
  }

  /** A key of `ns` is served, or on its way into the cache. */
  ghost predicate IsAtRisk(s: Shared, ttlMs: int, ns: Namespace) {
    Serves(s, ns, s.clock) || (ttlMs > 0 && IsBeingResolved(s, ns))
  }

  // -------------------------------------------------------------------------
  // Where a cached key comes from.
  // -------------------------------------------------------------------------

  lemma WithoutFindsTheRest<T(!new)>(cache: seq<Slot<T>>, dropped: Namespace, ns: Namespace)
    requires IsMap(cache)
    ensures Find(Without(cache, dropped), ns) == if ns == dropped then None else Find(cache, ns)
  {
    FindIsTheEntry(cache, ns);
    FindIsTheEntry(Without(cache, dropped), ns);
  }

  lemma FillFindsTheRest<T(!new)>(cache: seq<Slot<T>>, slot: Slot<T>, maxEntries: int, ns: Namespace)
    requires IsMap(cache)
    ensures var found := Find(Fill(cache, slot, maxEntries), ns);
      if ns == slot.ns then found == Some(slot) else found.Some? ==> found == Find(cache, ns)
  {
    var filled := Fill(cache, slot, maxEntries);
    FillKeepsSurvivors(cache, slot, maxEntries);
    FindIsTheEntry(cache, ns);
    FindIsTheEntry(filled, ns);
  }

  /** The entry that a fill from `fetch` at `at` writes. */
  function SlotFrom(fetch: Fetch, at: int, ttlMs: int): Slot<Origin>
    requires fetch.Answered? && fetch.stored.Some?
  {
    Slot(fetch.ns, fetch.stored.value, at + ttlMs, Origin(fetch.version, fetch.readAt, at))
  }

  lemma EntryAfterALookup(s: Shared, looked: Namespace, at: int, ttlMs: int, maxEntries: int, ns: Namespace)
    requires IsMap(s.cache) && s.history != []
    ensures var found := Find(Next(s, Lookup(looked), at, ttlMs, maxEntries).cache, ns);
      found.Some? ==> found == Find(s.cache, ns)
  {
    FindIsTheEntry(s.cache, looked);
    if Serves(s, looked, at) {
      TouchChangesNoEntry(s.cache, looked, ns);
    } else {
      WithoutFindsTheRest(s.cache, looked, ns);
    }
  }

  lemma EntryAfterAFill(s: Shared, i: nat, at: int, ttlMs: int, maxEntries: int, ns: Namespace)
    requires IsMap(s.cache) && s.history != [] && Enabled(s, FillCache(i))
    ensures var found := Find(Next(s, FillCache(i), at, ttlMs, maxEntries).cache, ns);
      found.Some? ==>
        || found == Find(s.cache, ns)
        || (HoldsARead(s, i, ns) && found == Some(SlotFrom(s.fetches[i], at, ttlMs)))
  {
    if s.fetches[i].stored.Some? {
      FillLeaves(s, i, at, ttlMs, maxEntries);
      FillFindsTheRest(s.cache, SlotFrom(s.fetches[i], at, ttlMs), maxEntries, ns);
    }
  }

  /** After a step an entry is the one that was there, which no drop survives, or a fresh fill. */
  lemma EntryAfterAStep(s: Shared, step: KeyStore.Step, at: int, ttlMs: int, maxEntries: int, ns: Namespace)
    requires IsMap(s.cache) && s.history != [] && Enabled(s, step)
    requires IsCached(Next(s, step, at, ttlMs, maxEntries), ns)
    ensures var slot := Find(Next(s, step, at, ttlMs, maxEntries).cache, ns).value;
      || (step != DropEntry(ns) && Find(s.cache, ns) == Some(slot))
      || (step.FillCache? && HoldsARead(s, step.i, ns) && slot == SlotFrom(s.fetches[step.i], at, ttlMs))
  {
    match step {
      case Lookup(looked) => EntryAfterALookup(s, looked, at, ttlMs, maxEntries, ns);
      case FillCache(i) => EntryAfterAFill(s, i, at, ttlMs, maxEntries, ns);
      case DropEntry(dropped) => WithoutFindsTheRest(s.cache, dropped, ns);
      case _ =>
    }
  }

  /** The cache of every state of a run is a map. */
  lemma CachesAreMaps(
    trace: seq<Shared>, steps: seq<KeyStore.Step>, times: seq<int>, ttlMs: int, maxEntries: int, k: nat)
    requires IsRun(trace, steps, times, ttlMs, maxEntries) && k < |trace|
    ensures IsMap(trace[k].cache) && trace[k].history != []
  {
    EveryRunKeepsInv(trace, steps, times, ttlMs, maxEntries, k);
  }

  /** The entry was there before step `k` of the run, or the step filled it in. */
  lemma EntryOfARun(
    trace: seq<Shared>, steps: seq<KeyStore.Step>, times: seq<int>, ttlMs: int, maxEntries: int, ns: Namespace, k: nat)
    requires IsRun(trace, steps, times, ttlMs, maxEntries) && k < |steps| && IsCached(trace[k + 1], ns)
    ensures
      || (steps[k] != DropEntry(ns) && Find(trace[k].cache, ns) == Find(trace[k + 1].cache, ns))
      || (steps[k].FillCache? && HoldsARead(trace[k], steps[k].i, ns)
          && Find(trace[k + 1].cache, ns) == Some(SlotFrom(trace[k].fetches[steps[k].i], times[k], ttlMs)))
  {
    CachesAreMaps(trace, steps, times, ttlMs, maxEntries, k);
    EntryAfterAStep(trace[k], steps[k], times[k], ttlMs, maxEntries, ns);
  }

  /** After a drop, whatever the cache holds for `ns` was filled in since. */
  lemma {:induction false} CachedSinceTheDrop(
    trace: seq<Shared>, steps: seq<KeyStore.Step>, times: seq<int>, ttlMs: int, maxEntries: int,
    ns: Namespace, d: nat, k: nat)
    returns (f: nat)
    requires IsRun(trace, steps, times, ttlMs, maxEntries) && d < k < |trace|
    requires steps[d] == DropEntry(ns) && IsCached(trace[k], ns)
    ensures d < f < k && steps[f].FillCache? && HoldsARead(trace[f], steps[f].i, ns)
    ensures Find(trace[k].cache, ns) == Some(SlotFrom(trace[f].fetches[steps[f].i], times[f], ttlMs))
  {
    f := k - 1;
    EntryOfARun(trace, steps, times, ttlMs, maxEntries, ns, f);
    if steps[f] != DropEntry(ns) && Find(trace[f].cache, ns) == Find(trace[k].cache, ns) {
      f := CachedSinceTheDrop(trace, steps, times, ttlMs, maxEntries, ns, d, f);
    }
  }

  lemma {:induction false} HistoryOnlyGrows(
    trace: seq<Shared>, steps: seq<KeyStore.Step>, times: seq<int>, ttlMs: int, maxEntries: int, j: nat, k: nat)
    requires IsRun(trace, steps, times, ttlMs, maxEntries) && j <= k < |trace|
    ensures trace[j].history <= trace[k].history
  {
    if j < k {
      HistoryOnlyGrows(trace, steps, times, ttlMs, maxEntries, j, k - 1);
    }
  }

  /**
   * A cached key differs from the backend's exactly when it was read before the
   * write. The write gave `ns` a value it had not had, or none, which it kept.
   */
  lemma StaleIffReadBeforeTheWrite(
    trace: seq<Shared>, steps: seq<KeyStore.Step>, times: seq<int>, ttlMs: int, maxEntries: int,
    ns: Namespace, w: nat, k: nat)
    requires IsRun(trace, steps, times, ttlMs, maxEntries) && w < k < |trace|
    requires steps[w].BackendSet? && IsCached(trace[k], ns)
    requires forall v :: |trace[w].history| <= v < |trace[k].history| ==>
      Held(trace[k].history[v].keys, ns) == Held(steps[w].keys, ns)
    requires ns in steps[w].keys ==> forall v :: 0 <= v < |trace[w].history| ==>
      Held(trace[w].history[v].keys, ns) != Held(steps[w].keys, ns)
    ensures trace[k].history != []
    ensures var slot := Find(trace[k].cache, ns).value;
      Held(Current(trace[k]), ns) != Some(slot.key) <==> slot.origin.version < |trace[w].history|
  {
    EveryRunKeepsInv(trace, steps, times, ttlMs, maxEntries, k);
    FindIsTheEntry(trace[k].cache, ns);
    HistoryOnlyGrows(trace, steps, times, ttlMs, maxEntries, w, k);
    HistoryOnlyGrows(trace, steps, times, ttlMs, maxEntries, w + 1, k);
    var slot := Find(trace[k].cache, ns).value;
    var version := slot.origin.version;
    assert Held(trace[k].history[version].keys, ns) == Some(slot.key);
    if version < |trace[w].history| {
      assert trace[k].history[version] == trace[w].history[version];
    }
  }

  // -------------------------------------------------------------------------
  // When a revoked key can be served.
  // -------------------------------------------------------------------------

  /** From the drop on, only a resolve that has read and not yet filled brings `ns` back. */
  lemma CachingComesFromAnOpenResolve(
    trace: seq<Shared>, steps: seq<KeyStore.Step>, times: seq<int>, ttlMs: int, maxEntries: int,
    ns: Namespace, d: nat, k: nat)
    returns (j: nat)
    requires IsRun(trace, steps, times, ttlMs, maxEntries) && d < k < |trace|
    requires steps[d] == DropEntry(ns) && (IsCached(trace[k], ns) || IsBeingResolved(trace[k], ns))
    ensures d < j <= k && IsBeingResolved(trace[j], ns)
  {
    if IsBeingResolved(trace[k], ns) {
      j := k;
    } else {
      j := CachedSinceTheDrop(trace, steps, times, ttlMs, maxEntries, ns, d, k);
    }
  }

  /** What a process may do next, and when. */
  datatype Move = Move(step: KeyStore.Step, at: int)

  /** The move can be made, leads to `next`, and does not give `ns` a key again. */
  ghost predicate IsMove(s: Shared, move: Move, next: Shared, ttlMs: int, maxEntries: int, ns: Namespace) {
    && s.history != [] && Enabled(s, move.step) && s.clock <= move.at
    && (move.step.BackendSet? ==> ns !in move.step.keys)
    && next == Next(s, move.step, move.at, ttlMs, maxEntries)
  }

  ghost predicate IsPath(states: seq<Shared>, moves: seq<Move>, ttlMs: int, maxEntries: int, ns: Namespace) {
    && |states| == |moves| + 1
    && forall k :: 0 <= k < |moves| ==> IsMove(states[k], moves[k], states[k + 1], ttlMs, maxEntries, ns)
  }

  predicate ServesNow(s: Shared, ns: Namespace) {
    Serves(s, ns, s.clock)
  }

  /** The process can come to serve a key of `ns`, though nobody gives it one. */
  ghost predicate CanStillServe(s: Shared, ttlMs: int, maxEntries: int, ns: Namespace) {
    exists states, moves ::
      IsPath(states, moves, ttlMs, maxEntries, ns) && states[0] == s && ServesNow(states[|moves|], ns)
  }

  lemma RiskIsOld(s: Shared, step: KeyStore.Step, at: int, ttlMs: int, maxEntries: int, ns: Namespace)
    requires IsMap(s.cache) && s.history != [] && Enabled(s, step) && s.clock <= at && ns !in Current(s)
    requires IsAtRisk(Next(s, step, at, ttlMs, maxEntries), ttlMs, ns)
    ensures IsAtRisk(s, ttlMs, ns)
  {
    var next := Next(s, step, at, ttlMs, maxEntries);
    if Serves(next, ns, at) {
      EntryAfterAStep(s, step, at, ttlMs, maxEntries, ns);
    } else {
      var i :| HoldsARead(next, i, ns);
      assert HoldsARead(s, i, ns);
    }
  }

  lemma StepKeepsMap(s: Shared, step: KeyStore.Step, at: int, ttlMs: int, maxEntries: int)
    requires IsMap(s.cache) && s.history != [] && Enabled(s, step)
    ensures IsMap(Next(s, step, at, ttlMs, maxEntries).cache)
  {
    match step {
      case Lookup(ns) =>
        FindIsTheEntry(s.cache, ns);
        if Serves(s, ns, at) {
          TouchChangesNoEntry(s.cache, ns, ns);
        }
      case FillCache(i) =>
        var fetch := s.fetches[i];
        if fetch.stored.Some? {
          FillKeepsSurvivors(s.cache, SlotFrom(fetch, at, ttlMs), maxEntries);
        }
      case _ =>
    }
  }

  /** Whatever is cached of `ns` is not in the backend any more. */
  ghost predicate IsGone(s: Shared, ns: Namespace) {
    IsMap(s.cache) && s.history != [] && ns !in Current(s)
  }

  lemma MoveKeepsGone(s: Shared, move: Move, next: Shared, ttlMs: int, maxEntries: int, ns: Namespace)
    requires IsGone(s, ns) && IsMove(s, move, next, ttlMs, maxEntries, ns)
    ensures IsGone(next, ns)
  {
    StepKeepsMap(s, move.step, move.at, ttlMs, maxEntries);
  }

  lemma {:induction false} PathKeepsGone(
    states: seq<Shared>, moves: seq<Move>, ttlMs: int, maxEntries: int, ns: Namespace, k: nat)
    requires IsPath(states, moves, ttlMs, maxEntries, ns) && k < |states| && IsGone(states[0], ns)
    ensures IsGone(states[k], ns)
  {
    if k > 0 {
      PathKeepsGone(states, moves, ttlMs, maxEntries, ns, k - 1);
      MoveKeepsGone(states[k - 1], moves[k - 1], states[k], ttlMs, maxEntries, ns);
    }
  }

  lemma MoveTakesNoRisk(s: Shared, move: Move, next: Shared, ttlMs: int, maxEntries: int, ns: Namespace)
    requires IsGone(s, ns) && IsMove(s, move, next, ttlMs, maxEntries, ns) && IsAtRisk(next, ttlMs, ns)
    ensures IsAtRisk(s, ttlMs, ns)
  {
    RiskIsOld(s, move.step, move.at, ttlMs, maxEntries, ns);
  }

  lemma {:induction false} ServingNeedsRisk(
    states: seq<Shared>, moves: seq<Move>, ttlMs: int, maxEntries: int, ns: Namespace, k: nat)
    requires IsPath(states, moves, ttlMs, maxEntries, ns) && k < |states| && IsGone(states[0], ns)
    requires IsAtRisk(states[k], ttlMs, ns)
    ensures IsAtRisk(states[0], ttlMs, ns)
  {
    if k > 0 {
      PathKeepsGone(states, moves, ttlMs, maxEntries, ns, k - 1);
      MoveTakesNoRisk(states[k - 1], moves[k - 1], states[k], ttlMs, maxEntries, ns);
      ServingNeedsRisk(states, moves, ttlMs, maxEntries, ns, k - 1);
    }
  }

  lemma FillLeaves(s: Shared, i: nat, at: int, ttlMs: int, maxEntries: int)
    requires s.history != [] && Enabled(s, FillCache(i)) && s.fetches[i].stored.Some?
    ensures Next(s, FillCache(i), at, ttlMs, maxEntries).cache
      == Fill(s.cache, SlotFrom(s.fetches[i], at, ttlMs), maxEntries)
  {
  }

  lemma FillingServes(s: Shared, i: nat, at: int, ttlMs: int, maxEntries: int, ns: Namespace)
    requires IsMap(s.cache) && s.history != [] && HoldsARead(s, i, ns) && ttlMs > 0
    ensures Serves(Next(s, FillCache(i), at, ttlMs, maxEntries), ns, at)
  {
    FillLeaves(s, i, at, ttlMs, maxEntries);
    FillFindsTheRest(s.cache, SlotFrom(s.fetches[i], at, ttlMs), maxEntries, ns);
  }

  lemma FillingIsAMove(s: Shared, i: nat, ttlMs: int, maxEntries: int, ns: Namespace) returns (next: Shared)
    requires IsMap(s.cache) && s.history != [] && HoldsARead(s, i, ns) && ttlMs > 0
    ensures IsMove(s, Move(FillCache(i), s.clock), next, ttlMs, maxEntries, ns) && ServesNow(next, ns)
  {
    next := Next(s, FillCache(i), s.clock, ttlMs, maxEntries);
    FillingServes(s, i, s.clock, ttlMs, maxEntries, ns);
  }

  lemma RiskCanServe(s: Shared, ttlMs: int, maxEntries: int, ns: Namespace)
    requires IsMap(s.cache) && s.history != [] && IsAtRisk(s, ttlMs, ns)
    ensures CanStillServe(s, ttlMs, maxEntries, ns)
  {
    if Serves(s, ns, s.clock) {
      assert IsPath([s], [], ttlMs, maxEntries, ns) && ServesNow([s][0], ns);
    } else {
      var i: nat :| HoldsARead(s, i, ns);
      var next := FillingIsAMove(s, i, ttlMs, maxEntries, ns);
      var states, moves := [s, next], [Move(FillCache(i), s.clock)];
      assert IsPath(states, moves, ttlMs, maxEntries, ns) && states[0] == s && ServesNow(states[|moves|], ns);
    }
  }

  /**
   * A process that drops `ns` and then takes its key from the backend can serve
   * the revoked key afterwards exactly when, as the revocation lands, the key is
   * live in its cache again or one of its resolves has read it and not yet
   * filled the cache. That takes a resolve of `ns` open between the drop and the
   * revocation: without one, the revocation is final.
   */
  lemma ARevokedKeyIsServedIffAResolveWasOpen(
    trace: seq<Shared>, steps: seq<KeyStore.Step>, times: seq<int>, ttlMs: int, maxEntries: int,
    ns: Namespace, d: nat, w: nat)
    requires IsRun(trace, steps, times, ttlMs, maxEntries) && d < w < |steps|
    requires steps[d] == DropEntry(ns) && steps[w].BackendSet? && ns !in steps[w].keys
    ensures CanStillServe(trace[w + 1], ttlMs, maxEntries, ns) <==> IsAtRisk(trace[w + 1], ttlMs, ns)
    ensures IsAtRisk(trace[w + 1], ttlMs, ns) ==> exists j :: d < j <= w && IsBeingResolved(trace[j], ns)
  {
    var s, next := trace[w], trace[w + 1];
    CachesAreMaps(trace, steps, times, ttlMs, maxEntries, w);
    CachesAreMaps(trace, steps, times, ttlMs, maxEntries, w + 1);
    assert next.cache == s.cache && next.fetches == s.fetches;
    if IsAtRisk(next, ttlMs, ns) {
      RiskCanServe(next, ttlMs, maxEntries, ns);
      if !IsCached(s, ns) {
        var i :| HoldsARead(next, i, ns);
        assert HoldsARead(s, i, ns);
      }
      var j := CachingComesFromAnOpenResolve(trace, steps, times, ttlMs, maxEntries, ns, d, w);
    }
    if CanStillServe(next, ttlMs, maxEntries, ns) {
      var states, moves :| IsPath(states, moves, ttlMs, maxEntries, ns)
        && states[0] == next && ServesNow(states[|moves|], ns);
      ServingNeedsRisk(states, moves, ttlMs, maxEntries, ns, |moves|);
    }
  }
}
