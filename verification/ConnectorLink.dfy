/**
 * The connector link of `src/control/connector-pg.ts`: one row per tenant and source, a fence that
 * only disconnects move, and readers and writers that may act on what they read long ago.
 */
module ConnectorLink {
  import opened Identity
  import opened Prelude

  datatype Source = Gmail | Calendar | Drive | Contacts

  datatype LinkKey = LinkKey(tenant: TenantId, source: Source)

  datatype ConnectorState = ConnectorState(source: Source, cursor: Option<string>)

  /** A sealed state: it opens only under the key it was sealed for. */
  datatype Envelope = Envelope(sealedFor: LinkKey, state: ConnectorState)

  datatype Link = Link(state: Option<Envelope>, pendingSince: Option<int>, fence: nat)

  type Table = map<LinkKey, Link>

  const PENDING_WINDOW_MS: int := 129_600_000

  function Seal(tenant: TenantId, state: ConnectorState): Envelope {
    Envelope(LinkKey(tenant, state.source), state)
  }

  predicate Opens(key: LinkKey, envelope: Envelope) {
    envelope.sealedFor == key && envelope.state.source == key.source
  }

  /** The fence of a link nobody has touched is the column's default. */
  function FenceOf(rows: Table, key: LinkKey): nat {
    if key in rows then rows[key].fence else 0
  }

  predicate IsConnected(rows: Table, key: LinkKey) {
    key in rows && rows[key].state.Some?
  }

  datatype ReadError = Unreadable

  datatype WriteError = NothingRead

  /** What a read of a link answers. */
  function Answer(rows: Table, key: LinkKey): Result<Option<ConnectorState>, ReadError> {
    if !IsConnected(rows, key) then Ok(None)
    else if Opens(key, rows[key].state.value) then Ok(Some(rows[key].state.value.state))
    else Err(Unreadable)
  }

  // -------------------------------------------------------------------------
  // The statements.
  // -------------------------------------------------------------------------

  /** INSERT, or refresh the intent of a link that is not connected. */
  function ConnectRow(rows: Table, key: LinkKey, now: int): Table {
    if key !in rows then rows[key := Link(None, Some(now), 0)]
    else if rows[key].state.None? then rows[key := rows[key].(pendingSince := Some(now))]
    else rows
  }

  /** INSERT at fence 1, or clear the link and advance its fence. */
  function DisconnectRow(rows: Table, key: LinkKey): Table {
    rows[key := Link(None, None, FenceOf(rows, key) + 1)]
  }

  /** The row a `pending` query returns: an intent inside the window and no connection. */
  predicate IsPending(rows: Table, key: LinkKey, now: int) {
    && key in rows && rows[key].state.None?
    && rows[key].pendingSince.Some? && rows[key].pendingSince.value > now - PENDING_WINDOW_MS
  }

  /** Narrowed to one tenant when the caller names one. */
  predicate IsAskedFor(rows: Table, key: LinkKey, now: int, tenant: Option<TenantId>) {
    IsPending(rows, key, now) && (tenant.Some? ==> key.tenant == tenant.value)
  }

  datatype PendingLink = PendingLink(key: LinkKey, fence: nat)

  function Since(rows: Table, key: LinkKey): int {
    if key in rows && rows[key].pendingSince.Some? then rows[key].pendingSince.value else 0
  }

  ghost function AskedFor(rows: Table, now: int, tenant: Option<TenantId>): set<LinkKey> {
    set key | key in rows && IsAskedFor(rows, key, now, tenant)
  }

  ghost function Keys(links: seq<PendingLink>): set<LinkKey> {
    set i | 0 <= i < |links| :: links[i].key
  }

  /** Each link once, with its fence, by the age of its intent. */
  ghost predicate OldestFirst(rows: Table, links: seq<PendingLink>) {
    && (forall i :: 0 <= i < |links| ==> links[i].fence == FenceOf(rows, links[i].key))
    && forall i, j :: 0 <= i < j < |links| ==>
         links[i].key != links[j].key && Since(rows, links[i].key) <= Since(rows, links[j].key)
  }

  ghost predicate NoneOlder(rows: Table, links: seq<PendingLink>, rest: set<LinkKey>) {
    forall i, key :: 0 <= i < |links| && key in rest ==> Since(rows, links[i].key) <= Since(rows, key)
  }

  /** Such a list of links asked for is by their intents, and leaves out only intents no older. */
  lemma WhatIsListed(rows: Table, now: int, tenant: Option<TenantId>, links: seq<PendingLink>)
    requires OldestFirst(rows, links) && Keys(links) <= AskedFor(rows, now, tenant)
    requires NoneOlder(rows, links, AskedFor(rows, now, tenant) - Keys(links))
    ensures forall i :: 0 <= i < |links| ==>
      links[i].key in rows && rows[links[i].key].pendingSince.Some? && links[i].fence == rows[links[i].key].fence
    ensures forall i, j :: 0 <= i < j < |links| ==>
      && links[i].key != links[j].key
      && rows[links[i].key].pendingSince.value <= rows[links[j].key].pendingSince.value
    ensures forall i, key :: 0 <= i < |links| && key in AskedFor(rows, now, tenant) && key !in Keys(links) ==>
      rows[links[i].key].pendingSince.value <= rows[key].pendingSince.value
  {
    forall i | 0 <= i < |links| ensures links[i].key in AskedFor(rows, now, tenant) {
      assert links[i].key in Keys(links);
    }
    forall i, key | 0 <= i < |links| && key in AskedFor(rows, now, tenant) && key !in Keys(links)
      ensures Since(rows, links[i].key) <= Since(rows, key) {
      assert key in AskedFor(rows, now, tenant) - Keys(links);
    }
  }

  /** A stored state cannot be read exactly when it is sealed for another link or is another source's. */
  lemma WhatIsUnreadable(rows: Table, key: LinkKey)
    ensures Answer(rows, key) == Err(Unreadable) <==>
      && key in rows && rows[key].state.Some?
      && var envelope := rows[key].state.value;
        || envelope.sealedFor.tenant != key.tenant || envelope.sealedFor.source != key.source
        || envelope.state.source != key.source
  {
  }

  lemma TakeOldest(rows: Table, links: seq<PendingLink>, waiting: set<LinkKey>, key: LinkKey)
    requires OldestFirst(rows, links) && NoneOlder(rows, links, waiting) && Keys(links) !! waiting
    requires key in waiting && forall other :: other in waiting ==> Since(rows, key) <= Since(rows, other)
    ensures var more := links + [PendingLink(key, FenceOf(rows, key))];
      OldestFirst(rows, more) && NoneOlder(rows, more, waiting - {key}) && Keys(more) == Keys(links) + {key}
  {
    var more := links + [PendingLink(key, FenceOf(rows, key))];
    forall i | 0 <= i < |links| ensures links[i].key != key {
      assert links[i].key in Keys(links);
    }
    forall k | k in Keys(links) + {key} ensures k in Keys(more) {
      if k == key {
        assert more[|links|].key == key;
      } else {
        var i :| 0 <= i < |links| && links[i].key == k;
        assert more[i].key == k;
      }
    }
  }

  lemma {:induction false} OldestExists(rows: Table, keys: set<LinkKey>)
    requires keys != {}
    ensures exists key :: key in keys && forall other :: other in keys ==> Since(rows, key) <= Since(rows, other)
  {
    var key :| key in keys;
    if keys != {key} {
      OldestExists(rows, keys - {key});
      var oldest :| oldest in keys - {key} && forall other :: other in keys - {key} ==>
        Since(rows, oldest) <= Since(rows, other);
      if Since(rows, key) <= Since(rows, oldest) {
        assert forall other :: other in keys ==> other == key || other in keys - {key};
      } else {
        assert forall other :: other in keys ==> other == key || other in keys - {key};
        assert oldest in keys;
      }
    }
  }

  predicate CanAdopt(rows: Table, key: LinkKey, fence: int) {
    key in rows && rows[key].state.None? && rows[key].fence == fence
  }

  function AdoptRow(rows: Table, key: LinkKey, fence: int, envelope: Envelope): Table {
    if CanAdopt(rows, key, fence) then rows[key := rows[key].(state := Some(envelope), pendingSince := None)] else rows
  }

  predicate CanWrite(rows: Table, key: LinkKey, fence: int) {
    key in rows && rows[key].state.Some? && rows[key].fence == fence
  }

  function WriteRow(rows: Table, key: LinkKey, fence: int, envelope: Envelope): Table {
    if CanWrite(rows, key, fence) then rows[key := rows[key].(state := Some(envelope))] else rows
  }

  /** `control.connector_link`, and the module's functions over it. */
  class LinkTable {
    var rows: Table

    constructor ()
      ensures rows == map[]
    {
      rows := map[];
    }

    method MarkConnectPending(key: LinkKey, now: int)
      modifies this
      ensures rows == ConnectRow(old(rows), key, now)
    {
      if key !in rows {
        rows := rows[key := Link(None, Some(now), 0)];
      } else if rows[key].state.None? {
        var row := rows[key];
        rows := rows[key := Link(None, Some(now), row.fence)];
      }
    }

    method FenceConnectorLink(key: LinkKey)
      modifies this
      ensures rows == DisconnectRow(old(rows), key)
    {
      if key !in rows {
        rows := rows[key := Link(None, None, 1)];
      } else {
        rows := rows[key := Link(None, None, rows[key].fence + 1)];
      }
    }

    /**
     * The oldest intents first, at most `limit` of them; an intent left out is no
     * older than any that was taken, and is left out only for lack of room.
     */
    method Pending(now: int, tenant: Option<TenantId>, limit: nat) returns (links: seq<PendingLink>)
      ensures |links| <= limit && OldestFirst(rows, links)
      ensures Keys(links) <= AskedFor(rows, now, tenant)
      ensures Keys(links) == AskedFor(rows, now, tenant) || |links| == limit
      ensures NoneOlder(rows, links, AskedFor(rows, now, tenant) - Keys(links))
    {
      links := [];
      ghost var asked := AskedFor(rows, now, tenant);
      var waiting := set key | key in rows && IsAskedFor(rows, key, now, tenant);
      while waiting != {} && |links| < limit
        invariant |links| <= limit && OldestFirst(rows, links)
        invariant Keys(links) <= asked && waiting == asked - Keys(links)
        invariant NoneOlder(rows, links, waiting)
        decreases waiting
      {
        OldestExists(rows, waiting);
        var key :| key in waiting && forall other :: other in waiting ==> Since(rows, key) <= Since(rows, other);
        TakeOldest(rows, links, waiting, key);
        links := links + [PendingLink(key, rows[key].fence)];
        waiting := waiting - {key};
      }
      if waiting == {} {
        forall key | key in asked ensures key in Keys(links) {
          assert key !in waiting;
        }
        assert Keys(links) == asked;
      }
    }

    method AdoptLink(key: LinkKey, fence: int, state: ConnectorState) returns (adopted: bool)
      modifies this
      ensures adopted <==> CanAdopt(old(rows), key, fence)
      ensures rows == AdoptRow(old(rows), key, fence, Seal(key.tenant, state))
    {
      var sealed := Seal(key.tenant, state);
      adopted := key in rows && rows[key].state.None? && rows[key].fence == fence;
      if adopted {
        rows := rows[key := Link(Some(sealed), None, rows[key].fence)];
      }
    }
  }

  /** `storeFor(tenantId)`: one pull's view of its tenant's links. */
  class ConnectorStore {
    const tenant: TenantId
    const table: LinkTable
    /** The fence each source was read under. */
    var fences: map<Source, nat>

    constructor (tenant: TenantId, table: LinkTable)
      ensures this.tenant == tenant && this.table == table && fences == map[]
    {
      this.tenant := tenant;
      this.table := table;
      fences := map[];
    }

    method Read(source: Source) returns (r: Result<Option<ConnectorState>, ReadError>)
      modifies this
      ensures var key := LinkKey(tenant, source);
        && fences == (if key in table.rows then old(fences)[source := table.rows[key].fence] else old(fences))
        && r == Answer(table.rows, key)
    {
      var key := LinkKey(tenant, source);
      if key !in table.rows {
        return Ok(None);
      }
      var row := table.rows[key];
      fences := fences[source := row.fence];
      if row.state.None? {
        return Ok(None);
      }
      if !Opens(key, row.state.value) {
        return Err(Unreadable);
      }
      r := Ok(Some(row.state.value.state));
    }

    /** A write whose fence has moved is dropped without a word. */
    method Write(state: ConnectorState) returns (r: Result<(), WriteError>)
      modifies table
      ensures r == if state.source in fences then Ok(()) else Err(NothingRead)
      ensures table.rows ==
        if state.source in fences
        then WriteRow(old(table.rows), LinkKey(tenant, state.source), fences[state.source], Seal(tenant, state))
        else old(table.rows)
    {
      if state.source !in fences {
        return Err(NothingRead);
      }
      var key := LinkKey(tenant, state.source);
      var sealed := Seal(tenant, state);
      if key in table.rows && table.rows[key].state.Some? && table.rows[key].fence == fences[state.source] {
        var row := table.rows[key];
        table.rows := table.rows[key := Link(Some(sealed), row.pendingSince, row.fence)];
      }
      r := Ok(());
    }
  }

  // -------------------------------------------------------------------------
  // Any interleaving of any number of users, passes and pulls.
  // -------------------------------------------------------------------------

  datatype StoreId = StoreId(tenant: TenantId, n: nat)

  datatype Step =
    | Connects(key: LinkKey, now: int)
    | Disconnects(key: LinkKey)
    | Adopts(key: LinkKey, fence: int, state: ConnectorState)
    | Reads(store: StoreId, source: Source)
    | Writes(store: StoreId, state: ConnectorState)

  datatype Captured = Captured(store: StoreId, source: Source)

  /** The table, and the fence maps of all stores together. */
  datatype System = System(rows: Table, fences: map<Captured, nat>)

  function Next(s: System, step: Step): System {
    match step
    case Connects(key, now) => s.(rows := ConnectRow(s.rows, key, now))
    case Disconnects(key) => s.(rows := DisconnectRow(s.rows, key))
    case Adopts(key, fence, state) => s.(rows := AdoptRow(s.rows, key, fence, Seal(key.tenant, state)))
    case Reads(store, source) =>
      var key := LinkKey(store.tenant, source);
      if key in s.rows then s.(fences := s.fences[Captured(store, source) := s.rows[key].fence]) else s
    case Writes(store, state) =>
      var at := Captured(store, state.source);
      if at !in s.fences then s
      else s.(rows := WriteRow(s.rows, LinkKey(store.tenant, state.source), s.fences[at], Seal(store.tenant, state)))
  }

  /** The system after a whole history, from an empty table. */
  function Run(steps: seq<Step>): System {
    if steps == [] then System(map[], map[]) else Next(Run(steps[..|steps| - 1]), steps[|steps| - 1])
  }

  lemma RunPrefix(steps: seq<Step>, k: nat)
    requires k < |steps|
    ensures Run(steps[..k + 1]) == Next(Run(steps[..k]), steps[k])
  {
    assert steps[..k + 1][..k] == steps[..k];
  }

  /** Connected and waiting to be connected are never true of one link at once. */
  lemma {:induction false} ConnectedIsNotPending(steps: seq<Step>, key: LinkKey)
    requires key in Run(steps).rows
    ensures Run(steps).rows[key].state.None? || Run(steps).rows[key].pendingSince.None?
  {
    if steps != [] && key in Run(steps[..|steps| - 1]).rows {
      ConnectedIsNotPending(steps[..|steps| - 1], key);
    }
  }

  function CountDisconnects(steps: seq<Step>, key: LinkKey): nat {
    if steps == [] then 0
    else CountDisconnects(steps[..|steps| - 1], key) + if steps[|steps| - 1] == Disconnects(key) then 1 else 0
  }

  /** The fence is the number of disconnects so far, and nothing else moves it. */
  lemma {:induction false} TheFenceCountsDisconnects(steps: seq<Step>, key: LinkKey)
    ensures FenceOf(Run(steps).rows, key) == CountDisconnects(steps, key)
  {
    if steps != [] {
      TheFenceCountsDisconnects(steps[..|steps| - 1], key);
    }
  }

  /** No disconnect of `key` happens from moment `i` to moment `j`. */
  ghost predicate NoDisconnect(steps: seq<Step>, key: LinkKey, i: nat, j: nat)
    requires i <= j <= |steps|
  {
    forall k :: i <= k < j ==> steps[k] != Disconnects(key)
  }

  /** Two moments with the same fence have no disconnect between them, and conversely. */
  lemma {:induction false} SameFenceIffNoDisconnect(steps: seq<Step>, key: LinkKey, i: nat, j: nat)
    requires i <= j <= |steps|
    ensures FenceOf(Run(steps[..i]).rows, key) <= FenceOf(Run(steps[..j]).rows, key)
    ensures FenceOf(Run(steps[..i]).rows, key) == FenceOf(Run(steps[..j]).rows, key) <==> NoDisconnect(steps, key, i, j)
  {
    if i < j {
      SameFenceIffNoDisconnect(steps, key, i, j - 1);
      TheFenceCountsDisconnects(steps[..j], key);
      TheFenceCountsDisconnects(steps[..j - 1], key);
      assert steps[..j][..j - 1] == steps[..j - 1];
    }
  }

  predicate AdoptLands(steps: seq<Step>, k: nat, key: LinkKey)
    requires k < |steps|
  {
    steps[k].Adopts? && steps[k].key == key && CanAdopt(Run(steps[..k]).rows, key, steps[k].fence)
  }

  function CountAdoptions(steps: seq<Step>, key: LinkKey, j: nat): nat
    requires j <= |steps|
  {
    if j == 0 then 0 else CountAdoptions(steps, key, j - 1) + if AdoptLands(steps, j - 1, key) then 1 else 0
  }

  /**
   * Between two moments without a disconnect a connection survives, nothing is
   * adopted over it, and at most one adoption makes it.
   */
  lemma {:induction false} WhileTheFenceStands(steps: seq<Step>, key: LinkKey, i: nat, j: nat)
    requires i <= j <= |steps| && NoDisconnect(steps, key, i, j)
    ensures IsConnected(Run(steps[..i]).rows, key) ==>
      IsConnected(Run(steps[..j]).rows, key) && CountAdoptions(steps, key, j) == CountAdoptions(steps, key, i)
    ensures !IsConnected(Run(steps[..i]).rows, key) ==>
      CountAdoptions(steps, key, j) ==
        CountAdoptions(steps, key, i) + if IsConnected(Run(steps[..j]).rows, key) then 1 else 0
  {
    if i < j {
      WhileTheFenceStands(steps, key, i, j - 1);
      RunPrefix(steps, j - 1);
    }
  }

  /** A pass that read the fence at moment `i` and lands its adoption at `j` saw no disconnect in between. */
  lemma NoAdoptionAcrossADisconnect(steps: seq<Step>, key: LinkKey, i: nat, j: nat)
    requires i <= j < |steps| && AdoptLands(steps, j, key)
    requires steps[j].fence == FenceOf(Run(steps[..i]).rows, key)
    ensures NoDisconnect(steps, key, i, j)
    ensures CountAdoptions(steps, key, j) == CountAdoptions(steps, key, i)
  {
    SameFenceIffNoDisconnect(steps, key, i, j);
    WhileTheFenceStands(steps, key, i, j);
  }

  /** Of two adoptions that land, the later one landed under a greater fence. */
  lemma AtMostOneAdoptionPerFence(steps: seq<Step>, key: LinkKey, i: nat, j: nat)
    requires i < j < |steps| && AdoptLands(steps, i, key) && AdoptLands(steps, j, key)
    ensures steps[i].fence < steps[j].fence
  {
    RunPrefix(steps, i);
    SameFenceIffNoDisconnect(steps, key, i, i + 1);
    SameFenceIffNoDisconnect(steps, key, i + 1, j);
    if steps[i].fence == steps[j].fence {
      WhileTheFenceStands(steps, key, i + 1, j);
    }
  }

  /** A read that found a row: the kind that records its fence. */
  predicate ReadRecords(steps: seq<Step>, k: nat, at: Captured)
    requires k < |steps|
  {
    steps[k] == Reads(at.store, at.source) && LinkKey(at.store.tenant, at.source) in Run(steps[..k]).rows
  }

  /** `i` is the last read before `j` that recorded a fence for `at`. */
  ghost predicate IsLastRead(steps: seq<Step>, at: Captured, i: int, j: nat)
    requires j <= |steps|
  {
    && 0 <= i < j && ReadRecords(steps, i, at)
    && forall k :: i < k < j ==> !ReadRecords(steps, k, at)
  }

  lemma {:induction false} CapturedFenceIsTheLastRead(steps: seq<Step>, at: Captured, j: nat) returns (i: nat)
    requires j <= |steps| && at in Run(steps[..j]).fences
    ensures IsLastRead(steps, at, i, j)
    ensures Run(steps[..j]).fences[at] == FenceOf(Run(steps[..i]).rows, LinkKey(at.store.tenant, at.source))
  {
    RunPrefix(steps, j - 1);
    if ReadRecords(steps, j - 1, at) {
      i := j - 1;
    } else {
      i := CapturedFenceIsTheLastRead(steps, at, j - 1);
    }
  }

  predicate WriteLands(steps: seq<Step>, k: nat)
    requires k < |steps|
  {
    && steps[k].Writes?
    && Captured(steps[k].store, steps[k].state.source) in Run(steps[..k]).fences
    && CanWrite(Run(steps[..k]).rows, LinkKey(steps[k].store.tenant, steps[k].state.source),
         Run(steps[..k]).fences[Captured(steps[k].store, steps[k].state.source)])
  }

  /**
   * A write that lands has a read before it with no disconnect in between, and
   * it lands on the adoption that read saw exactly when the read found a
   * connection. A read that answers null records the fence too: a write on the
   * strength of it lands on an adoption made since.
   */
  lemma AWriteLandsWhereItReadIffItReadAConnection(steps: seq<Step>, j: nat)
    requires j < |steps| && WriteLands(steps, j)
    ensures var at := Captured(steps[j].store, steps[j].state.source);
      var key := LinkKey(steps[j].store.tenant, steps[j].state.source);
      exists i: nat ::
        && IsLastRead(steps, at, i, j) && NoDisconnect(steps, key, i, j)
        && (IsConnected(Run(steps[..i]).rows, key) <==> CountAdoptions(steps, key, i) == CountAdoptions(steps, key, j))
  {
    var at := Captured(steps[j].store, steps[j].state.source);
    var key := LinkKey(steps[j].store.tenant, steps[j].state.source);
    var i := CapturedFenceIsTheLastRead(steps, at, j);
    SameFenceIffNoDisconnect(steps, key, i, j);
    WhileTheFenceStands(steps, key, i, j);
  }

  /** Such a history: connect, a read that answers null, an adoption, a write that replaces it. */
  lemma AWriteCanReplaceAnAdoptionItNeverRead(store: StoreId, source: Source, adopted: ConnectorState,
      written: ConnectorState)
    requires adopted.source == source && written.source == source
    ensures var key := LinkKey(store.tenant, source);
      var s := Next(Next(Next(Next(Run([]), Connects(key, 0)), Reads(store, source)), Adopts(key, 0, adopted)),
        Writes(store, written));
      Answer(s.rows, key) == Ok(Some(written))
  {
  }

  // -------------------------------------------------------------------------
  // What a read gives back.
  // -------------------------------------------------------------------------

  /** An adoption or a write of `key` lands at step `k`. */
  predicate Lands(steps: seq<Step>, k: nat, key: LinkKey)
    requires k < |steps|
  {
    || AdoptLands(steps, k, key)
    || (WriteLands(steps, k) && key == LinkKey(steps[k].store.tenant, steps[k].state.source))
  }

  /** The state that last landed on `key`. */
  function LastLanded(steps: seq<Step>, key: LinkKey): Option<ConnectorState> {
    if steps == [] then None
    else
      var last := |steps| - 1;
      if Lands(steps, last, key) then Some(steps[last].state) else LastLanded(steps[..last], key)
  }

  lemma StepAnswers(s: System, step: Step, key: LinkKey)
    ensures IsConnected(Next(s, step).rows, key) ==>
      || (&& step.Adopts? && step.key == key && CanAdopt(s.rows, key, step.fence)
          && Answer(Next(s, step).rows, key)
               == if step.state.source == key.source then Ok(Some(step.state)) else Err(Unreadable))
      || (&& step.Writes? && key == LinkKey(step.store.tenant, step.state.source)
          && Captured(step.store, step.state.source) in s.fences
          && CanWrite(s.rows, key, s.fences[Captured(step.store, step.state.source)])
          && Answer(Next(s, step).rows, key) == Ok(Some(step.state)))
      || (&& IsConnected(s.rows, key) && Answer(Next(s, step).rows, key) == Answer(s.rows, key)
          && !(step.Adopts? && step.key == key && CanAdopt(s.rows, key, step.fence))
          && !(&& step.Writes? && key == LinkKey(step.store.tenant, step.state.source)
               && Captured(step.store, step.state.source) in s.fences
               && CanWrite(s.rows, key, s.fences[Captured(step.store, step.state.source)])))
  {
  }

  /**
   * Over any history, a read of a connected link answers the state of the last
   * adoption or write that landed on it, as it was handed in. The one thing a
   * read cannot open is an adoption of another source's state.
   */
  lemma {:induction false} ReadsAnswerWhatLanded(steps: seq<Step>, key: LinkKey)
    requires IsConnected(Run(steps).rows, key)
    ensures LastLanded(steps, key).Some?
    ensures var state := LastLanded(steps, key).value;
      Answer(Run(steps).rows, key) == if state.source == key.source then Ok(Some(state)) else Err(Unreadable)
  {
    var last := |steps| - 1;
    assert steps != [];
    RunPrefix(steps, last);
    assert steps[..last + 1] == steps;
    StepAnswers(Run(steps[..last]), steps[last], key);
    if !Lands(steps, last, key) {
      ReadsAnswerWhatLanded(steps[..last], key);
    }
  }

  /** What lands is what the next read answers, and a read of a link that is not connected answers null. */
  lemma WhatLandsIsRead(steps: seq<Step>, k: nat, key: LinkKey)
    requires k < |steps|
    ensures Lands(steps, k, key) && steps[k].state.source == key.source ==>
      Answer(Run(steps[..k + 1]).rows, key) == Ok(Some(steps[k].state))
    ensures steps[k] == Disconnects(key) ==> Answer(Run(steps[..k + 1]).rows, key) == Ok(None)
  {
    RunPrefix(steps, k);
  }

  // -------------------------------------------------------------------------
  // How old an intent is.
  // -------------------------------------------------------------------------

  /** When the user last asked to connect `key` since it was last disconnected. */
  function LastAsked(steps: seq<Step>, key: LinkKey): Option<int> {
    if steps == [] then None
    else
      match steps[|steps| - 1]
      case Connects(asked, now) => if asked == key then Some(now) else LastAsked(steps[..|steps| - 1], key)
      case Disconnects(ended) => if ended == key then None else LastAsked(steps[..|steps| - 1], key)
      case _ => LastAsked(steps[..|steps| - 1], key)
  }

  /** Over any history, the intent of a link that is not connected dates from the last time it was asked for. */
  lemma {:induction false} IntentsDateFromTheLastAsking(steps: seq<Step>, key: LinkKey)
    requires !IsConnected(Run(steps).rows, key)
    ensures LastAsked(steps, key) ==
      if key in Run(steps).rows then Run(steps).rows[key].pendingSince else None
  {
    if steps != [] {
      var last := |steps| - 1;
      if !IsConnected(Run(steps[..last]).rows, key) {
        IntentsDateFromTheLastAsking(steps[..last], key);
      }
    }
  }

  /** So a pending query is about links asked for less than thirty-six hours ago and not connected since. */
  lemma WhatIsPending(steps: seq<Step>, key: LinkKey, now: int, tenant: Option<TenantId>)
    ensures key in AskedFor(Run(steps).rows, now, tenant) <==>
      && key in Run(steps).rows && !IsConnected(Run(steps).rows, key)
      && (tenant.None? || tenant.value == key.tenant)
      && LastAsked(steps, key).Some? && now - LastAsked(steps, key).value < 36 * 60 * 60 * 1000
  {
    if !IsConnected(Run(steps).rows, key) {
      IntentsDateFromTheLastAsking(steps, key);
    }
  }
}
