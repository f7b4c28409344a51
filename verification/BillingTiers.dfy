/**
 * The two halves of a tier: the subscription row of `applyToSubscription` and
 * the control-plane row it moves after it, in another database.
 */
module BillingTiers {
  import opened Identity
  import opened Prelude
  import opened Billing

  // -------------------------------------------------------------------------
  // One account's applications do not interleave: the two databases.
  // -------------------------------------------------------------------------

  predicate IsUnderWay(s: System, i: int, account: AccountId) {
    0 <= i < |s.apps| && IsFor(s.db, s.apps[i], account) && !IsOver(s.apps[i].phase)
  }

  ghost predicate AtMostOneRuns(s: System, account: AccountId) {
    forall i, j :: IsUnderWay(s, i, account) && IsUnderWay(s, j, account) ==> i == j
  }

  /** The account has a brain of its own, with a control-plane row. */
  ghost predicate HasOwnBrain(db: Db, account: AccountId) {
    && account in db.rows && account in db.brains && db.brains[account] in db.control
    && forall other :: other in db.brains && other != account ==> db.brains[other] != db.brains[account]
  }

  predicate InStep(db: Db, account: AccountId)
    requires account in db.rows && account in db.brains && db.brains[account] in db.control
  {
    db.control[db.brains[account]] == Subscribed(db.rows[account].tier)
  }

  /** The step runs the UPDATE of a delivery against the row of `account`, and its WHERE matches. */
  predicate MovesRow(s: System, step: Step, account: AccountId) {
    && step.Advance? && step.i < |s.apps| && account in s.db.rows
    && RunsUpdate(s.db, s.apps[step.i], step.reply)
    && s.apps[step.i].phase.account == account
    && IsNotOlder(s.db.rows[account], s.apps[step.i].delivery.update)
  }

  /** The application that last moved the row of `account`. */
  function LastMover(start: Db, steps: seq<Step>, account: AccountId): Option<nat> {
    if steps == [] then None
    else
      var before := steps[..|steps| - 1];
      var step := steps[|steps| - 1];
      if MovesRow(Run(Start(start), before), step, account) then Some(step.i)
      else LastMover(start, before, account)
  }

  /** The application wrote the row as it stands. */
  predicate WroteTheRow(s: System, i: nat, account: AccountId) {
    && i < |s.apps| && IsFor(s.db, s.apps[i], account) && s.apps[i].delivery.Subscription?
    && account in s.db.rows && s.db.rows[account] == RowFrom(s.apps[i].delivery.update)
  }

  /** Past the UPDATE, and not known to have written the control plane. */
  predicate IsHalfWay(phase: Phase) {
    phase.RowMoved? || phase.HasBrain? || phase.Unwinding? || phase.Failed?
  }

  ghost predicate SyncInv(s: System, mover: Option<nat>, account: AccountId) {
    && HasOwnBrain(s.db, account)
    && (mover.Some? ==> WroteTheRow(s, mover.value, account))
    && (forall i :: IsUnderWay(s, i, account) && (s.apps[i].phase.RowMoved? || s.apps[i].phase.HasBrain?) ==>
          mover == Some(i))
    && (InStep(s.db, account) || (mover.Some? && IsHalfWay(s.apps[mover.value].phase)))
  }

  function MoverAfter(s: System, step: Step, mover: Option<nat>, account: AccountId): Option<nat> {
    if MovesRow(s, step, account) then Some(step.i) else mover
  }

  lemma OtherAccountsKeepSync(s: System, i: nat, reply: Reply, mover: Option<nat>, account: AccountId)
    requires AppsInv(s) && SyncInv(s, mover, account)
    requires i < |s.apps| && !IsFor(s.db, s.apps[i], account)
    ensures !MovesRow(s, Advance(i, reply), account)
    ensures SyncInv(Next(s, Advance(i, reply)), mover, account)
  {
    var next := Next(s, Advance(i, reply));
    assert PhaseInv(s.db, s.ran, s.apps[i]);
    StatementFrame(s.db, s.apps[i], reply);
    forall k | IsUnderWay(next, k, account) ensures IsUnderWay(s, k, account) && next.apps[k] == s.apps[k] {
    }
  }

  lemma MovingKeepsSync(s: System, i: nat, reply: Reply, mover: Option<nat>, account: AccountId)
    requires AppsInv(s) && SyncInv(s, mover, account) && AtMostOneRuns(s, account)
    requires IsUnderWay(s, i, account) && MovesRow(s, Advance(i, reply), account)
    ensures SyncInv(Next(s, Advance(i, reply)), Some(i), account)
  {
    var next := Next(s, Advance(i, reply));
    StatementFrame(s.db, s.apps[i], reply);
    forall k | IsUnderWay(next, k, account) ensures k == i {
      assert k != i ==> IsUnderWay(s, k, account);
    }
  }

  lemma StayingKeepsSync(s: System, i: nat, reply: Reply, mover: Option<nat>, account: AccountId)
    requires AppsInv(s) && SyncInv(s, mover, account) && AtMostOneRuns(s, account)
    requires IsUnderWay(s, i, account) && !MovesRow(s, Advance(i, reply), account)
    ensures SyncInv(Next(s, Advance(i, reply)), mover, account)
  {
    var next := Next(s, Advance(i, reply));
    assert PhaseInv(s.db, s.ran, s.apps[i]);
    StatementFrame(s.db, s.apps[i], reply);
    assert next.db.rows[account] == s.db.rows[account];
    forall k | IsUnderWay(next, k, account) ensures k == i {
      assert k != i ==> IsUnderWay(s, k, account);
    }
  }

  lemma StepKeepsSync(s: System, step: Step, mover: Option<nat>, account: AccountId)
    requires AppsInv(s) && SyncInv(s, mover, account) && AtMostOneRuns(s, account)
    ensures SyncInv(Next(s, step), MoverAfter(s, step, mover, account), account)
  {
    var next := Next(s, step);
    if step.Advance? && step.i < |s.apps| {
      if IsUnderWay(s, step.i, account) {
        if MovesRow(s, step, account) {
          MovingKeepsSync(s, step.i, step.reply, mover, account);
        } else {
          StayingKeepsSync(s, step.i, step.reply, mover, account);
        }
      } else if !IsFor(s.db, s.apps[step.i], account) {
        OtherAccountsKeepSync(s, step.i, step.reply, mover, account);
      } else {
        assert next.apps == s.apps;
      }
    } else {
      forall k | IsUnderWay(next, k, account) && (next.apps[k].phase.RowMoved? || next.apps[k].phase.HasBrain?)
        ensures IsUnderWay(s, k, account) && next.apps[k] == s.apps[k]
      {
      }
    }
  }

  /** At every point of the run at most one application of `account` was under way. */
  ghost predicate NeverInterleaves(start: Db, steps: seq<Step>, account: AccountId) {
    forall k :: 0 <= k <= |steps| ==> AtMostOneRuns(Run(Start(start), steps[..k]), account)
  }

  lemma {:induction false} EveryRunKeepsSync(start: Db, steps: seq<Step>, account: AccountId)
    requires HasOwnBrain(start, account) && InStep(start, account)
    requires NeverInterleaves(start, steps, account)
    ensures SyncInv(Run(Start(start), steps), LastMover(start, steps, account), account)
  {
    if steps != [] {
      var before := steps[..|steps| - 1];
      forall k | 0 <= k <= |before| ensures AtMostOneRuns(Run(Start(start), before[..k]), account) {
        assert before[..k] == steps[..k];
      }
      EveryRunKeepsSync(start, before, account);
      EveryRunKeepsAppsInv(start, before);
      assert before[..|before|] == before;
      StepKeepsSync(Run(Start(start), before), steps[|steps| - 1], LastMover(start, before, account), account);
    }
  }

  /**
   * While applications for an account do not interleave, its two tiers differ
   * only when the very delivery whose UPDATE last moved the row stands between
   * the two databases, or failed there. A retry of it moves the row again and
   * takes its place, so a delivery that finished leaves them in step.
   */
  lemma TiersDifferOnlyHalfWay(start: Db, steps: seq<Step>, account: AccountId)
    requires HasOwnBrain(start, account) && InStep(start, account)
    requires NeverInterleaves(start, steps, account)
    ensures var s := Run(Start(start), steps);
      var mover := LastMover(start, steps, account);
      && HasOwnBrain(s.db, account)
      && (mover.None? ==> InStep(s.db, account))
      && (mover.Some? ==>
            && WroteTheRow(s, mover.value, account)
            && (s.apps[mover.value].phase.Finished? ==> InStep(s.db, account))
            && (!InStep(s.db, account) ==> IsHalfWay(s.apps[mover.value].phase)))
  {
    EveryRunKeepsSync(start, steps, account);
  }

  /** The delivery that last moved the row, if any did, has finished. */
  predicate HasSettled(start: Db, steps: seq<Step>, account: AccountId) {
    var mover := LastMover(start, steps, account);
    mover.Some? ==>
      mover.value < |Run(Start(start), steps).apps| && Run(Start(start), steps).apps[mover.value].phase.Finished?
  }

  /** And then the brains agree too, where the last movers have finished. */
  lemma RunsAgreeOnTheBrain(start: Db, one: seq<Step>, two: seq<Step>, account: AccountId)
    requires HasOwnBrain(start, account) && InStep(start, account)
    requires NeverInterleaves(start, one, account) && NeverInterleaves(start, two, account)
    requires HasSettled(start, one, account) && HasSettled(start, two, account)
    requires HeardTheSame(Run(Start(start), one), Run(Start(start), two), account)
    ensures var s, t := Run(Start(start), one).db, Run(Start(start), two).db;
      && HasOwnBrain(s, account) && HasOwnBrain(t, account) && s.brains == t.brains
      && s.rows[account] == t.rows[account]
      && s.control[s.brains[account]] == t.control[t.brains[account]]
  {
    RunsAgree(start, one, two, account);
    TiersDifferOnlyHalfWay(start, one, account);
    TiersDifferOnlyHalfWay(start, two, account);
    EveryRunKeepsRowsInv(start, one);
    EveryRunKeepsRowsInv(start, two);
  }

  /** A delivery applied alone, every statement answered: five statements to the end. */
  function DeliverAlone(db: Db, d: Delivery): (s: System)
    ensures |s.apps| == 1
  {
    var next := Advance(0, Replies);
    Next(Next(Next(Next(Next(Next(Start(db), Deliver(d)), next), next), next), next), next)
  }

  /**
   * Once its claim is released, a retry of the half-done delivery brings the two
   * tiers back in step: its own `created` passes the recency check because the
   * check is `<=`.
   */
  lemma ARetryRepairs(db: Db, app: Application, account: AccountId)
    requires HasOwnBrain(db, account) && IsFor(db, app, account) && app.delivery.Subscription?
    requires db.rows[account] == RowFrom(app.delivery.update)
    requires app.delivery.id !in db.claims && !Violates(db, account, app.delivery.update)
    ensures var s := DeliverAlone(db, app.delivery);
      && s.apps[0].phase == Finished(Applied)
      && s.db.rows == db.rows
      && HasOwnBrain(s.db, account) && InStep(s.db, account)
  {
    var d := app.delivery;
    var claimed := Claim(db, d);
    var moved := MoveSubscription(claimed, account, d.update);
    assert moved.rows == db.rows;
    assert RunStatement(db, Application(d, Arrived), Replies) == (claimed, Claimed);
    assert RunStatement(claimed, Application(d, Claimed), Replies) == (claimed, Owned(account));
    assert RunStatement(claimed, Application(d, Owned(account)), Replies) == (moved, RowMoved(account));
  }

  // -------------------------------------------------------------------------
  // Deliveries that are not applied.
  // -------------------------------------------------------------------------

  /** On its way to an answer other than applied, or there. */
  predicate IsQuiet(phase: Phase) {
    || phase.Arrived? || phase.Claimed? || phase.Owned? || phase.Marking?
    || (phase.Finished? && phase.outcome != Applied)
  }

  lemma QuietStatement(db: Db, app: Application, reply: Reply)
    requires app.phase.Marking? ==> app.phase.mark != Applied
    requires IsQuiet(RunStatement(db, app, reply).1)
    ensures IsQuiet(app.phase)
    ensures RunStatement(db, app, reply).0.rows == db.rows && RunStatement(db, app, reply).0.control == db.control
  {
  }

  lemma {:induction false} ApplicationsStay(start: Db, steps: seq<Step>, k: nat)
    requires k <= |steps|
    ensures |Run(Start(start), steps[..k]).apps| <= |Run(Start(start), steps).apps|
  {
    if k == |steps| {
      assert steps[..k] == steps;
    } else {
      var before := steps[..|steps| - 1];
      assert before[..k] == steps[..k];
      ApplicationsStay(start, before, k);
    }
  }

  lemma QuietStep(start: Db, steps: seq<Step>, step: Step, i: nat)
    requires var s := Run(Start(start), steps);
      i < |s.apps| && i < |Next(s, step).apps| && IsQuiet(Next(s, step).apps[i].phase)
    ensures var s := Run(Start(start), steps);
      && IsQuiet(s.apps[i].phase)
      && (step.Advance? && step.i == i ==>
            Next(s, step).db.rows == s.db.rows && Next(s, step).db.control == s.db.control)
  {
    var s := Run(Start(start), steps);
    EveryRunKeepsAppsInv(start, steps);
    assert PhaseInv(s.db, s.ran, s.apps[i]);
    if step.Advance? && step.i == i {
      QuietStatement(s.db, s.apps[i], step.reply);
    }
  }

  /**
   * A delivery that was superseded, repeated, ignored or of an unknown customer
   * has changed neither half of any tier with any of its statements.
   */
  lemma {:induction false} QuietDeliveriesMoveNothing(start: Db, steps: seq<Step>, i: nat, k: nat)
    requires i < |Run(Start(start), steps).apps| && IsQuiet(Run(Start(start), steps).apps[i].phase)
    requires k < |steps| && steps[k].Advance? && steps[k].i == i
    ensures var before := Run(Start(start), steps[..k]);
      var after := Run(Start(start), steps[..k + 1]);
      after.db.rows == before.db.rows && after.db.control == before.db.control
  {
    var before := steps[..|steps| - 1];
    assert steps[..k + 1][..k] == steps[..k];
    if i < |Run(Start(start), before).apps| {
      QuietStep(start, before, steps[|steps| - 1], i);
      if k < |before| {
        assert before[..k] == steps[..k] && before[..k + 1] == steps[..k + 1];
        QuietDeliveriesMoveNothing(start, before, i, k);
      } else {
        assert steps[..k + 1] == steps && steps[..k] == before;
      }
    } else {
      assert before[..k] == steps[..k] || k == |before|;
      if k < |before| {
        ApplicationsStay(start, before, k);
      }
    }
  }

  // -------------------------------------------------------------------------
  // Interleaved applications.
  // -------------------------------------------------------------------------

  /** The step runs the UPDATE of a delivery against the control-plane row of the account's brain. */
  predicate WritesControl(s: System, step: Step, account: AccountId) {
    && step.Advance? && step.i < |s.apps| && account in s.db.brains && s.db.brains[account] in s.db.control
    && s.apps[step.i].phase == HasBrain(s.db.brains[account])
    && s.apps[step.i].delivery.Subscription? && !step.reply.ThrowsUnlanded?
  }

  /** The application that last wrote the tier of the account's brain. */
  function LastWriter(start: Db, steps: seq<Step>, account: AccountId): Option<nat> {
    if steps == [] then None
    else
      var before := steps[..|steps| - 1];
      var step := steps[|steps| - 1];
      if WritesControl(Run(Start(start), before), step, account) then Some(step.i)
      else LastWriter(start, before, account)
  }

  /** Application `i` carries an update with this tier. */
  predicate CarriesTier(s: System, i: nat, tier: Tier) {
    i < |s.apps| && s.apps[i].delivery.Subscription? && s.apps[i].delivery.update.tier == tier
  }

  /** Each half is its last writer's, or as it was at the start. */
  ghost predicate HalvesInv(start: Db, s: System, mover: Option<nat>, writer: Option<nat>, account: AccountId) {
    && HasOwnBrain(start, account) && HasOwnBrain(s.db, account) && s.db.brains == start.brains
    && (if mover.Some? then CarriesTier(s, mover.value, s.db.rows[account].tier)
        else s.db.rows[account] == start.rows[account])
    && (if writer.Some?
        then exists tier :: CarriesTier(s, writer.value, tier)
                            && s.db.control[s.db.brains[account]] == Subscribed(tier)
        else s.db.control[s.db.brains[account]] == start.control[start.brains[account]])
  }

  lemma CarriersKeepTheirTier(s: System, step: Step, i: nat, tier: Tier)
    requires CarriesTier(s, i, tier)
    ensures CarriesTier(Next(s, step), i, tier)
  {
  }

  lemma StepKeepsRowHalf(s: System, step: Step, account: AccountId)
    requires account in s.db.rows
    ensures account in Next(s, step).db.rows
    ensures if MovesRow(s, step, account)
      then CarriesTier(Next(s, step), step.i, Next(s, step).db.rows[account].tier)
      else Next(s, step).db.rows[account] == s.db.rows[account]
  {
    if step.Advance? && step.i < |s.apps| {
      StatementFrame(s.db, s.apps[step.i], step.reply);
    }
  }

  lemma StepKeepsControlHalf(s: System, step: Step, account: AccountId)
    requires HasOwnBrain(s.db, account)
    ensures HasOwnBrain(Next(s, step).db, account) && Next(s, step).db.brains == s.db.brains
    ensures var tenant := s.db.brains[account];
      if WritesControl(s, step, account)
      then CarriesTier(Next(s, step), step.i, s.apps[step.i].delivery.update.tier)
           && Next(s, step).db.control[tenant] == Subscribed(s.apps[step.i].delivery.update.tier)
      else Next(s, step).db.control[tenant] == s.db.control[tenant]
  {
    if step.Advance? && step.i < |s.apps| {
      StatementFrame(s.db, s.apps[step.i], step.reply);
    }
  }

  lemma StepKeepsHalves(
    start: Db, s: System, step: Step, mover: Option<nat>, writer: Option<nat>, account: AccountId)
    requires HalvesInv(start, s, mover, writer, account)
    ensures HalvesInv(start, Next(s, step), MoverAfter(s, step, mover, account),
      if WritesControl(s, step, account) then Some(step.i) else writer, account)
  {
    StepKeepsRowHalf(s, step, account);
    StepKeepsControlHalf(s, step, account);
    if mover.Some? {
      CarriersKeepTheirTier(s, step, mover.value, s.db.rows[account].tier);
    }
    if writer.Some? {
      var tier :| CarriesTier(s, writer.value, tier) && s.db.control[s.db.brains[account]] == Subscribed(tier);
      CarriersKeepTheirTier(s, step, writer.value, tier);
    }
  }

  lemma {:induction false} EveryRunKeepsHalves(start: Db, steps: seq<Step>, account: AccountId)
    requires HasOwnBrain(start, account)
    ensures HalvesInv(start, Run(Start(start), steps),
      LastMover(start, steps, account), LastWriter(start, steps, account), account)
  {
    if steps != [] {
      var before := steps[..|steps| - 1];
      EveryRunKeepsHalves(start, before, account);
      StepKeepsHalves(start, Run(Start(start), before), steps[|steps| - 1],
        LastMover(start, before, account), LastWriter(start, before, account), account);
    }
  }

  /** The tier the row has: its last mover's, or the one it started with. */
  function MovedTier(start: Db, steps: seq<Step>, account: AccountId): Tier
    requires account in start.rows
  {
    var apps := Run(Start(start), steps).apps;
    var mover := LastMover(start, steps, account);
    if mover.Some? && mover.value < |apps| && apps[mover.value].delivery.Subscription?
    then apps[mover.value].delivery.update.tier else start.rows[account].tier
  }

  /** The tier the brain has: its last writer's, or the one it started with. */
  function WrittenTier(start: Db, steps: seq<Step>, account: AccountId): ControlTier
    requires account in start.brains && start.brains[account] in start.control
  {
    var apps := Run(Start(start), steps).apps;
    var writer := LastWriter(start, steps, account);
    if writer.Some? && writer.value < |apps| && apps[writer.value].delivery.Subscription?
    then Subscribed(apps[writer.value].delivery.update.tier) else start.control[start.brains[account]]
  }

  /**
   * Under any interleaving the two tiers agree exactly when the delivery whose
   * UPDATE last moved the row, and the one that last wrote the brain, carry the
   * same tier; a half nobody has written counts with the tier it started with.
   */
  lemma InStepIffTheLastWritersAgree(start: Db, steps: seq<Step>, account: AccountId)
    requires HasOwnBrain(start, account)
    ensures var s := Run(Start(start), steps);
      && HasOwnBrain(s.db, account)
      && s.db.rows[account].tier == MovedTier(start, steps, account)
      && s.db.control[s.db.brains[account]] == WrittenTier(start, steps, account)
      && (LastWriter(start, steps, account).Some? ==> WrittenTier(start, steps, account).Subscribed?)
      && (InStep(s.db, account) <==>
            WrittenTier(start, steps, account) == Subscribed(MovedTier(start, steps, account)))
    ensures var s := Run(Start(start), steps);
      var mover, writer := LastMover(start, steps, account), LastWriter(start, steps, account);
      && (mover.Some? ==> CarriesTier(s, mover.value, MovedTier(start, steps, account)))
      && (writer.Some? ==> CarriesTier(s, writer.value, WrittenTier(start, steps, account).tier))
  {
    EveryRunKeepsHalves(start, steps, account);
  }

  /** A run so far: where it stands, and who wrote each half last. */
  datatype Trail = Trail(s: System, mover: Option<nat>, writer: Option<nat>)

  function TrailOf(start: Db, steps: seq<Step>, account: AccountId): Trail {
    Trail(Run(Start(start), steps), LastMover(start, steps, account), LastWriter(start, steps, account))
  }

  function OnTrail(t: Trail, step: Step, account: AccountId): Trail {
    Trail(Next(t.s, step), MoverAfter(t.s, step, t.mover, account),
      if WritesControl(t.s, step, account) then Some(step.i) else t.writer)
  }

  lemma OneStepMore(start: Db, steps: seq<Step>, step: Step, account: AccountId)
    ensures TrailOf(start, steps + [step], account) == OnTrail(TrailOf(start, steps, account), step, account)
  {
    assert (steps + [step])[..|steps|] == steps;
  }

  function TwoOnTrail(t: Trail, one: Step, two: Step, account: AccountId): Trail {
    OnTrail(OnTrail(t, one, account), two, account)
  }

  lemma TwoStepsMore(start: Db, steps: seq<Step>, one: Step, two: Step, account: AccountId)
    ensures TrailOf(start, steps + [one, two], account) == TwoOnTrail(TrailOf(start, steps, account), one, two, account)
  {
    OneStepMore(start, steps, one, account);
    OneStepMore(start, steps + [one], two, account);
    assert steps + [one, two] == steps + [one] + [two];
  }

  const OLDER: Step := Advance(0, Replies)
  const NEWER: Step := Advance(1, Replies)

  function Cancellation(customer: CustomerId): Delivery {
    Subscription("evt_1", Some(customer), Update(1, Free, Canceled, None, None))
  }

  function Upgrade(customer: CustomerId): Delivery {
    Subscription("evt_2", Some(customer), Update(2, Paid, Active, Some("sub_1"), None))
  }

  /** One free account with a brain of its own. */
  function OneAccount(account: AccountId, tenant: TenantId, customer: CustomerId): Db {
    Db(map[], map[customer := account], map[account := Row(Free, NoStatus, None, None, None)],
      map[account := tenant], map[tenant := Subscribed(Free)])
  }

  /** A cancellation and the upgrade after it, delivered together, up to where both have moved the row. */
  function UpToBothMoved(customer: CustomerId): seq<Step> {
    [Deliver(Cancellation(customer)), Deliver(Upgrade(customer))]
    + [OLDER, OLDER] + [OLDER, NEWER] + [NEWER, NEWER]
  }

  ghost predicate HasBothRowsMoved(s: System, account: AccountId, tenant: TenantId) {
    && |s.apps| == 2 && s.apps[0].phase == s.apps[1].phase == RowMoved(account)
    && CarriesTier(s, 0, Free) && s.apps[0].delivery.id in s.db.claims
    && CarriesTier(s, 1, Paid) && s.apps[1].delivery.id in s.db.claims
    && account in s.db.rows && s.db.rows[account].tier == Paid
    && s.db.brains == map[account := tenant] && tenant in s.db.control
  }

  /** Both have arrived, the older one has found its account, nothing is written yet. */
  ghost predicate IsOlderOwned(t: Trail, account: AccountId, tenant: TenantId, customer: CustomerId) {
    && t.mover == None
    && t.s.apps == [Application(Cancellation(customer), Owned(account)), Application(Upgrade(customer), Arrived)]
    && t.s.db == Claim(OneAccount(account, tenant, customer), Cancellation(customer))
  }

  lemma TheOlderGoesFirst(account: AccountId, tenant: TenantId, customer: CustomerId)
    ensures var t := Trail(Start(OneAccount(account, tenant, customer)), None, None);
      var arrived := TwoOnTrail(t, Deliver(Cancellation(customer)), Deliver(Upgrade(customer)), account);
      IsOlderOwned(TwoOnTrail(arrived, OLDER, OLDER, account), account, tenant, customer)
  {
  }

  lemma TheNewerMovesLast(t: Trail, account: AccountId, tenant: TenantId, customer: CustomerId)
    requires IsOlderOwned(t, account, tenant, customer)
    ensures var after := TwoOnTrail(TwoOnTrail(t, OLDER, NEWER, account), NEWER, NEWER, account);
      HasBothRowsMoved(after.s, account, tenant) && after.mover == Some(1)
  {
  }

  lemma TrailUpToBothMoved(start: Db, account: AccountId, customer: CustomerId)
    ensures var t := Trail(Start(start), None, None);
      var arrived := TwoOnTrail(t, Deliver(Cancellation(customer)), Deliver(Upgrade(customer)), account);
      var owned := TwoOnTrail(arrived, OLDER, OLDER, account);
      TrailOf(start, UpToBothMoved(customer), account)
      == TwoOnTrail(TwoOnTrail(owned, OLDER, NEWER, account), NEWER, NEWER, account)
  {
    var arrived := [Deliver(Cancellation(customer)), Deliver(Upgrade(customer))];
    TwoStepsMore(start, [], arrived[0], arrived[1], account);
    assert [] + [arrived[0], arrived[1]] == arrived;
    TwoStepsMore(start, arrived, OLDER, OLDER, account);
    TwoStepsMore(start, arrived + [OLDER, OLDER], OLDER, NEWER, account);
    TwoStepsMore(start, arrived + [OLDER, OLDER] + [OLDER, NEWER], NEWER, NEWER, account);
  }

  lemma BothRowsDoMove(account: AccountId, tenant: TenantId, customer: CustomerId)
    ensures var t := TrailOf(OneAccount(account, tenant, customer), UpToBothMoved(customer), account);
      HasBothRowsMoved(t.s, account, tenant) && t.mover == Some(1)
  {
    var t := Trail(Start(OneAccount(account, tenant, customer)), None, None);
    var arrived := TwoOnTrail(t, Deliver(Cancellation(customer)), Deliver(Upgrade(customer)), account);
    TheOlderGoesFirst(account, tenant, customer);
    TheNewerMovesLast(TwoOnTrail(arrived, OLDER, OLDER, account), account, tenant, customer);
    TrailUpToBothMoved(OneAccount(account, tenant, customer), account, customer);
  }

  /** From there the newer one finishes first, and the older one's last statement runs last. */
  lemma TheOlderOneWritesLast(t: Trail, account: AccountId, tenant: TenantId)
    requires HasBothRowsMoved(t.s, account, tenant) && t.mover == Some(1)
    ensures var after := TwoOnTrail(TwoOnTrail(t, NEWER, NEWER, account), OLDER, OLDER, account);
      && after.mover == Some(1) && after.writer == Some(0)
      && |after.s.apps| == 2 && after.s.apps[0].phase == after.s.apps[1].phase == Finished(Applied)
      && after.s.apps[0].delivery == t.s.apps[0].delivery && after.s.apps[1].delivery == t.s.apps[1].delivery
      && after.s.db.claims == t.s.db.claims && after.s.db.rows == t.s.db.rows
      && tenant in after.s.db.control && after.s.db.control[tenant] == Subscribed(Free)
  {
  }

  /**
   * It happens: two deliveries interleave, both finish and both keep their
   * claims, the upgrade moved the row last and the cancellation wrote the brain
   * last. That leaves a paid subscription on a free brain that no retry revisits.
   */
  lemma InterleavedTiersCanDiverge(account: AccountId, tenant: TenantId, customer: CustomerId)
    ensures var start := OneAccount(account, tenant, customer);
      var steps := UpToBothMoved(customer) + [NEWER, NEWER] + [OLDER, OLDER];
      var s := Run(Start(start), steps);
      && |s.apps| == 2 && s.apps[0].phase == s.apps[1].phase == Finished(Applied)
      && s.apps[0].delivery.id in s.db.claims && s.apps[1].delivery.id in s.db.claims
      && account in s.db.rows && s.db.rows[account].tier == Paid
      && tenant in s.db.control && s.db.control[tenant] == Subscribed(Free)
      && LastMover(start, steps, account) == Some(1) && CarriesTier(s, 1, Paid)
      && LastWriter(start, steps, account) == Some(0) && CarriesTier(s, 0, Free)
  {
    var start := OneAccount(account, tenant, customer);
    var moved := UpToBothMoved(customer);
    BothRowsDoMove(account, tenant, customer);
    TwoStepsMore(start, moved, NEWER, NEWER, account);
    TwoStepsMore(start, moved + [NEWER, NEWER], OLDER, OLDER, account);
    TheOlderOneWritesLast(TrailOf(start, moved, account), account, tenant);
  }
}
