/**
 * The two meters of `src/ai/gateway.ts`: the in-memory one, and the rolling
 * pair of counters on a tenant's control-plane row.
 */
module SpendMeter {
  import opened Identity
  import opened Prelude

  /** What a metering record contributes; `cost` is None when the price is unknown. */
  datatype Charge = Charge(tenant: TenantId, cost: Option<Number>, hosted: bool)

  /** `control.tenant`, the columns the meter writes. */
  datatype Row = Row(spend: int, hostedCogs: int, windowStartedAt: int)

  /** One UPDATE that found its row: when the database ran it, and with which deltas. */
  datatype Update = Update(at: int, spend: int, hostedCogs: int)

  predicate IsExpired(row: Row, windowSeconds: int, at: int) {
    row.windowStartedAt <= at - windowSeconds
  }

  /** The three CASE expressions, all on the same predicate. */
  function UpdateRow(row: Row, windowSeconds: int, u: Update): Row {
    if IsExpired(row, windowSeconds, u.at) then Row(u.spend, u.hostedCogs, u.at)
    else Row(row.spend + u.spend, row.hostedCogs + u.hostedCogs, row.windowStartedAt)
  }

  function DeltaOf(charge: Charge): Number {
    if charge.cost.Some? then charge.cost.value else Whole(0)
  }

  function UpdateFor(charge: Charge, at: int): Update
    requires DeltaOf(charge).IsCountable()
  {
    Update(at, DeltaOf(charge).n, if charge.hosted then DeltaOf(charge).n else 0)
  }

  datatype MeterError = NotCountable | NoRow

  /** `createPostgresSpendMeter`, over the rows of the control plane. */
  class PostgresSpendMeter {
    const windowSeconds: int
    var rows: map<TenantId, Row>

    constructor (windowSeconds: int, rows: map<TenantId, Row>)
      ensures this.windowSeconds == windowSeconds && this.rows == rows
    {
      this.windowSeconds := windowSeconds;
      this.rows := rows;
    }

    method Record(charge: Charge, at: int) returns (r: Result<(), MeterError>)
      modifies this
      ensures r == (if !DeltaOf(charge).IsCountable() then Err(NotCountable)
                    else if charge.tenant !in old(rows) then Err(NoRow)
                    else Ok(()))
      ensures r.Err? ==> rows == old(rows)
      ensures r.Ok? ==> rows == old(rows)[charge.tenant :=
        UpdateRow(old(rows)[charge.tenant], windowSeconds, UpdateFor(charge, at))]
    {
      var delta := DeltaOf(charge);
      if !delta.IsCountable() {
        return Err(NotCountable);
      }
      var cogsDelta := if charge.hosted then delta.n else 0;
      if charge.tenant !in rows {
        return Err(NoRow);
      }
      var row := rows[charge.tenant];
      var expired := row.windowStartedAt <= at - windowSeconds;
      var spend := if expired then delta.n else row.spend + delta.n;
      var cogs := if expired then cogsDelta else row.hostedCogs + cogsDelta;
      var started := if expired then at else row.windowStartedAt;
      rows := rows[charge.tenant := Row(spend, cogs, started)];
      r := Ok(());
    }
  }

  // -------------------------------------------------------------------------
  // Any sequence of updates to one row.
  // -------------------------------------------------------------------------

  function SpendOf(u: Update): int { u.spend }

  function CogsOf(u: Update): int { u.hostedCogs }

  function RunUpdates(row: Row, windowSeconds: int, updates: seq<Update>): Row {
    if updates == [] then row
    else UpdateRow(RunUpdates(row, windowSeconds, updates[..|updates| - 1]), windowSeconds, updates[|updates| - 1])
  }

  /** The number of updates before the one that opened the current window; 0 while the first is open. */
  function WindowOpenedBy(row: Row, windowSeconds: int, updates: seq<Update>): (k: nat)
    ensures k <= |updates|
  {
    if updates == [] then 0
    else
      var before := updates[..|updates| - 1];
      if IsExpired(RunUpdates(row, windowSeconds, before), windowSeconds, updates[|updates| - 1].at)
      then |before|
      else WindowOpenedBy(row, windowSeconds, before)
  }

  predicate RollsAt(row: Row, windowSeconds: int, updates: seq<Update>, k: nat)
    requires k < |updates|
  {
    IsExpired(RunUpdates(row, windowSeconds, updates[..k]), windowSeconds, updates[k].at)
  }

  /** Whether some update has rolled the window. */
  predicate Rolled(row: Row, windowSeconds: int, updates: seq<Update>) {
    exists k :: 0 <= k < |updates| && RollsAt(row, windowSeconds, updates, k)
  }

  /** What the row carried into the current window: its old totals, until the first roll. */
  function CarriedSpend(row: Row, windowSeconds: int, updates: seq<Update>): int {
    if Rolled(row, windowSeconds, updates) then 0 else row.spend
  }

  function CarriedCogs(row: Row, windowSeconds: int, updates: seq<Update>): int {
    if Rolled(row, windowSeconds, updates) then 0 else row.hostedCogs
  }

  lemma RollsAtBefore(row: Row, windowSeconds: int, updates: seq<Update>, k: nat)
    requires k < |updates| - 1
    ensures RollsAt(row, windowSeconds, updates[..|updates| - 1], k) == RollsAt(row, windowSeconds, updates, k)
  {
    assert updates[..|updates| - 1][..k] == updates[..k];
  }

  lemma RolledSoFar(row: Row, windowSeconds: int, updates: seq<Update>)
    requires updates != []
    ensures Rolled(row, windowSeconds, updates) <==>
      || Rolled(row, windowSeconds, updates[..|updates| - 1])
      || RollsAt(row, windowSeconds, updates, |updates| - 1)
  {
    var last := |updates| - 1;
    forall k | 0 <= k < last
      ensures RollsAt(row, windowSeconds, updates[..last], k) == RollsAt(row, windowSeconds, updates, k) {
      RollsAtBefore(row, windowSeconds, updates, k);
    }
  }

  /**
   * Both counters are the sum of the deltas since one and the same update: the
   * one that opened the current window, whatever the clock did in between.
   */
  lemma {:induction false} CountersCoverOneWindow(row: Row, windowSeconds: int, updates: seq<Update>)
    ensures var k := WindowOpenedBy(row, windowSeconds, updates);
      var now := RunUpdates(row, windowSeconds, updates);
      && now.spend == CarriedSpend(row, windowSeconds, updates) + SumOf(SpendOf, updates[k..])
      && now.hostedCogs == CarriedCogs(row, windowSeconds, updates) + SumOf(CogsOf, updates[k..])
      && now.windowStartedAt == if Rolled(row, windowSeconds, updates) then updates[k].at else row.windowStartedAt
    ensures Rolled(row, windowSeconds, updates) ==> WindowOpenedBy(row, windowSeconds, updates) < |updates|
  {
    if updates != [] {
      var last := |updates| - 1;
      var before := updates[..last];
      CountersCoverOneWindow(row, windowSeconds, before);
      RolledSoFar(row, windowSeconds, updates);
      var k := WindowOpenedBy(row, windowSeconds, updates);
      assert updates[k..][..|updates[k..]| - 1] == before[k..];
    }
  }

  /**
   * A window is `windowSeconds` long on the database's clock: every update counted
   * in the open one came less than that after its start, the opening one at it.
   */
  lemma {:induction false} WindowsAreThisLong(row: Row, windowSeconds: int, updates: seq<Update>)
    ensures Rolled(row, windowSeconds, updates) ==>
      && WindowOpenedBy(row, windowSeconds, updates) < |updates|
      && updates[WindowOpenedBy(row, windowSeconds, updates)].at
        == RunUpdates(row, windowSeconds, updates).windowStartedAt
    ensures forall j :: WindowOpenedBy(row, windowSeconds, updates) <= j < |updates| ==>
      || updates[j].at - RunUpdates(row, windowSeconds, updates).windowStartedAt < windowSeconds
      || (j == WindowOpenedBy(row, windowSeconds, updates) && Rolled(row, windowSeconds, updates))
  {
    CountersCoverOneWindow(row, windowSeconds, updates);
    if updates != [] {
      WindowsAreThisLong(row, windowSeconds, updates[..|updates| - 1]);
      RolledSoFar(row, windowSeconds, updates);
    }
  }

  /**
   * After any run, a charge that comes `windowSeconds` or more after the start
   * of the open window leaves a window of its own, and an earlier one is added
   * to it; an unknown cost adds nothing, and only a hosted one is platform cost.
   */
  lemma WhatOneMoreChargeLeaves(row: Row, windowSeconds: int, updates: seq<Update>, charge: Charge, at: int)
    requires charge.cost.Some? ==> charge.cost.value.IsCountable()
    ensures var now := RunUpdates(row, windowSeconds, updates);
      var next := RunUpdates(row, windowSeconds, updates + [UpdateFor(charge, at)]);
      var cost := if charge.cost == None then 0 else charge.cost.value.n;
      && (at - now.windowStartedAt >= windowSeconds ==>
        next.windowStartedAt == at && next.spend == cost && next.hostedCogs == if charge.hosted then cost else 0)
      && (at - now.windowStartedAt < windowSeconds ==>
        && next.windowStartedAt == now.windowStartedAt && next.spend - now.spend == cost
        && next.hostedCogs - now.hostedCogs == if charge.hosted then cost else 0)
  {
    assert (updates + [UpdateFor(charge, at)])[..|updates|] == updates;
  }

  /** The totals of the windows that were closed by a roll, oldest first. */
  function ClosedWindows(row: Row, windowSeconds: int, updates: seq<Update>): seq<Row> {
    if updates == [] then []
    else
      var before := updates[..|updates| - 1];
      var now := RunUpdates(row, windowSeconds, before);
      ClosedWindows(row, windowSeconds, before)
      + if IsExpired(now, windowSeconds, updates[|updates| - 1].at) then [now] else []
  }

  /** No delta is lost or counted twice: closed windows and the open one make up everything metered. */
  lemma {:induction false} WindowsConserveSpend(row: Row, windowSeconds: int, updates: seq<Update>)
    ensures SumOf((w: Row) => w.spend, ClosedWindows(row, windowSeconds, updates))
        + RunUpdates(row, windowSeconds, updates).spend
      == row.spend + SumOf(SpendOf, updates)
    ensures SumOf((w: Row) => w.hostedCogs, ClosedWindows(row, windowSeconds, updates))
        + RunUpdates(row, windowSeconds, updates).hostedCogs
      == row.hostedCogs + SumOf(CogsOf, updates)
  {
    if updates != [] {
      var before := updates[..|updates| - 1];
      WindowsConserveSpend(row, windowSeconds, before);
      var now := RunUpdates(row, windowSeconds, before);
      SumOfAppend((w: Row) => w.spend, ClosedWindows(row, windowSeconds, before), now);
      SumOfAppend((w: Row) => w.hostedCogs, ClosedWindows(row, windowSeconds, before), now);
      assert ClosedWindows(row, windowSeconds, before) + [] == ClosedWindows(row, windowSeconds, before);
    }
  }

  /** An update the meter can issue: hosted cost is part of the spend or nothing. */
  predicate Issuable(u: Update) {
    0 <= u.hostedCogs <= u.spend
  }

  lemma EveryUpdateIsIssuable(charge: Charge, at: int)
    requires DeltaOf(charge).IsCountable()
    ensures Issuable(UpdateFor(charge, at))
    ensures charge.hosted ==> UpdateFor(charge, at).hostedCogs == UpdateFor(charge, at).spend
  {
  }

  /** What the platform paid never exceeds what the tenant spent, in any window. */
  lemma {:induction false} HostedCogsNeverExceedSpend(row: Row, windowSeconds: int, updates: seq<Update>)
    requires 0 <= row.hostedCogs <= row.spend
    requires forall i :: 0 <= i < |updates| ==> Issuable(updates[i])
    ensures 0 <= RunUpdates(row, windowSeconds, updates).hostedCogs <= RunUpdates(row, windowSeconds, updates).spend
  {
    if updates != [] {
      HostedCogsNeverExceedSpend(row, windowSeconds, updates[..|updates| - 1]);
    }
  }

  // -------------------------------------------------------------------------
  // The in-memory meter.
  // -------------------------------------------------------------------------

  datatype MemoryRecord = MemoryRecord(tenant: TenantId, cost: Option<int>)

  function CostTo(tenant: TenantId): MemoryRecord -> int {
    (m: MemoryRecord) => if m.tenant == tenant && m.cost.Some? then m.cost.value else 0
  }

  class InMemorySpendMeter {
    var written: seq<MemoryRecord>
    var totals: map<TenantId, int>

    ghost predicate Valid()
      reads this
    {
      && (forall m :: m in written ==> m.tenant in totals)
      && forall tenant :: tenant in totals ==> totals[tenant] == SumOf(CostTo(tenant), written)
    }

    constructor ()
      ensures Valid() && written == []
    {
      written := [];
      totals := map[];
    }

    method Record(m: MemoryRecord)
      requires Valid()
      modifies this
      ensures Valid() && written == old(written) + [m]
    {
      forall tenant ensures SumOf(CostTo(tenant), written + [m]) == SumOf(CostTo(tenant), written) + CostTo(tenant)(m) {
        SumOfAppend(CostTo(tenant), written, m);
      }
      NothingWrittenNothingSpent(written, m.tenant);
      written := written + [m];
      totals := totals[m.tenant :=
        (if m.tenant in totals then totals[m.tenant] else 0) + (if m.cost.Some? then m.cost.value else 0)];
    }

    method TotalFor(tenant: TenantId) returns (total: int)
      requires Valid()
      ensures total == SumOf(CostTo(tenant), written)
    {
      NothingWrittenNothingSpent(written, tenant);
      total := if tenant in totals then totals[tenant] else 0;
    }
  }

  lemma {:induction false} NothingWrittenNothingSpent(written: seq<MemoryRecord>, tenant: TenantId)
    ensures (forall m :: m in written ==> m.tenant != tenant) ==> SumOf(CostTo(tenant), written) == 0
  {
    if written != [] {
      NothingWrittenNothingSpent(written[..|written| - 1], tenant);
      assert written[|written| - 1] in written;
      assert forall m :: m in written[..|written| - 1] ==> m in written;
    }
  }
}
