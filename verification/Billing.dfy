/**
 * Webhook deliveries of `src/control/billing.ts`, one SQL statement per step. They may repeat,
 * overtake each other and fail at any statement; no transaction spans the two databases.
 */
module Billing {
  import opened Identity
  import opened Prelude

  type AccountId = string
  type CustomerId = string
  type VendorId = string

  datatype Tier = Free | Paid

  datatype ControlTier = Subscribed(tier: Tier) | Internal

  datatype Status = NoStatus | Trialing | Active | PastDue | Canceled | Incomplete

  /** Which statuses keep the model phases; an unknown one does not. */
  function TierForStatus(status: string): Tier {
    if status == "active" || status == "trialing" || status == "past_due" then Paid else Free
  }

  function StatusColumnValue(status: string): Status {
    if status == "none" then NoStatus
    else if status == "trialing" then Trialing
    else if status == "active" then Active
    else if status == "past_due" then PastDue
    else if status == "canceled" then Canceled
    else Incomplete
  }

  /** The two columns a delivery writes say the same thing about paid capability. */
  lemma StatusAndTierAgree(status: string)
    ensures TierForStatus(status) == Paid <==> StatusColumnValue(status) in {Active, Trialing, PastDue}
  {
  }

  /** A unix second that a date can hold; anything else orders nothing. */
  function ReadCreated(value: Number): Option<int> {
    if !value.IsSafeInteger() || value.n <= 0 || value.n > 1_000_000_000_000 then None else Some(value.n)
  }

  datatype EventKind = SubscriptionChanged | SubscriptionDeleted | CheckoutCompleted | OtherEvent

  /** A verified event body, down to the fields the module reads. */
  datatype Event = Event(
    id: VendorId,
    kind: EventKind,
    created: Number,
    customer: Option<CustomerId>,
    subscription: Option<VendorId>,
    status: Option<string>,
    periodEnd: Option<int>)

  /** The values a subscription delivery binds into its UPDATE. */
  datatype Update = Update(
    created: int,
    tier: Tier,
    status: Status,
    subscription: Option<VendorId>,
    periodEnd: Option<int>)

  datatype Delivery =
    | Subscription(id: VendorId, customer: Option<CustomerId>, update: Update)
    | Checkout(id: VendorId, customer: Option<CustomerId>)
    | Other(id: VendorId)

  function RawStatus(e: Event): string {
    if e.kind.SubscriptionDeleted? || e.status.None? then "canceled" else e.status.value
  }

  /** None is `malformed_event`: refused before the claim, so nothing is written. */
  function Read(e: Event): Option<Delivery> {
    if e.kind.OtherEvent? then Some(Other(e.id))
    else if e.kind.CheckoutCompleted? then Some(Checkout(e.id, e.customer))
    else if ReadCreated(e.created).None? then None
    else
      var tier := TierForStatus(RawStatus(e));
      Some(Subscription(e.id, e.customer, Update(
        ReadCreated(e.created).value, tier, StatusColumnValue(RawStatus(e)),
        if tier == Paid then e.subscription else None, e.periodEnd)))
  }

  // -------------------------------------------------------------------------
  // The subscription row.
  // -------------------------------------------------------------------------

  datatype Row = Row(
    tier: Tier,
    status: Status,
    subscription: Option<VendorId>,
    periodEnd: Option<int>,
    lastCreated: Option<int>)

  /** The row an UPDATE writes when its WHERE matches. */
  function RowFrom(u: Update): Row {
    Row(u.tier, u.status, u.subscription, u.periodEnd, Some(u.created))
  }

  /** The recency predicate in the WHERE. */
  predicate IsNotOlder(row: Row, u: Update) {
    row.lastCreated.None? || row.lastCreated.value <= u.created
  }

  function MoveRow(row: Row, u: Update): Row {
    if IsNotOlder(row, u) then RowFrom(u) else row
  }

  function MoveAll(row: Row, us: seq<Update>): Row {
    if us == [] then row else MoveRow(MoveAll(row, us[..|us| - 1]), us[|us| - 1])
  }

  /** Every update is older than what the row already had. */
  predicate AllAreStale(row: Row, us: seq<Update>) {
    forall u :: u in us ==> !IsNotOlder(row, u)
  }

  /** No update is newer than `u`, and `u` is one the row admits. */
  predicate IsNewest(row: Row, us: seq<Update>, u: Update) {
    u in us && IsNotOlder(row, u) && forall v :: v in us ==> v.created <= u.created
  }

  /** The row already is what some newest update wrote, or no update was admitted. */
  ghost predicate IsFromTheNewest(row: Row, us: seq<Update>, after: Row) {
    if AllAreStale(row, us) then after == row else exists u :: IsNewest(row, us, u) && after == RowFrom(u)
  }

  lemma StepFromTheNewest(row: Row, before: seq<Update>, u: Update, after: Row)
    requires IsFromTheNewest(row, before, after)
    ensures IsFromTheNewest(row, before + [u], MoveRow(after, u))
  {
    var us := before + [u];
    assert u in us && forall v :: v in us <==> v in before || v == u;
    if AllAreStale(row, before) {
      if IsNotOlder(row, u) {
        if row.lastCreated.Some? {
          assert IsNewest(row, us, u);
        } else {
          assert before == [] || !IsNotOlder(row, before[0]) by { if before != [] { assert before[0] in before; } }
          assert IsNewest(row, us, u);
        }
      }
    } else {
      var newest :| IsNewest(row, before, newest) && after == RowFrom(newest);
      if newest.created <= u.created {
        assert IsNewest(row, us, u);
      } else {
        assert IsNewest(row, us, newest);
      }
    }
  }

  /**
   * Whatever ran in whatever order, the row is the one of a delivery with the
   * greatest `created`, and untouched when all of them were stale.
   */
  lemma {:induction false} TheNewestDecides(row: Row, us: seq<Update>)
    ensures IsFromTheNewest(row, us, MoveAll(row, us))
  {
    if us != [] {
      var before := us[..|us| - 1];
      TheNewestDecides(row, before);
      StepFromTheNewest(row, before, us[|us| - 1], MoveAll(row, before));
      assert us == before + [us[|us| - 1]];
    }
  }

  /** `last_event_created_at` is the maximum of what it was and of every `created` that ran. */
  lemma LastCreatedIsTheMaximum(row: Row, us: seq<Update>)
    ensures var after := MoveAll(row, us).lastCreated;
      && (row.lastCreated.Some? ==> after.Some? && row.lastCreated.value <= after.value)
      && (forall u :: u in us ==> after.Some? && u.created <= after.value)
      && (after == row.lastCreated || exists u :: u in us && after == Some(u.created))
  {
    TheNewestDecides(row, us);
    if !AllAreStale(row, us) {
      var u :| IsNewest(row, us, u) && MoveAll(row, us) == RowFrom(u);
    }
  }

  /**
   * Delivery order and repetition do not matter: two runs over the same set of
   * updates, no two different ones sharing a second, leave the same row.
   */
  lemma OrderDoesNotMatter(row: Row, us: seq<Update>, vs: seq<Update>)
    requires forall u :: u in us <==> u in vs
    requires forall u, v :: u in us && v in us && u.created == v.created ==> u == v
    ensures MoveAll(row, us) == MoveAll(row, vs)
  {
    TheNewestDecides(row, us);
    TheNewestDecides(row, vs);
    if !AllAreStale(row, us) {
      var u :| IsNewest(row, us, u) && MoveAll(row, us) == RowFrom(u);
      assert u in vs;
      var v :| IsNewest(row, vs, v) && MoveAll(row, vs) == RowFrom(v);
      assert v in us && u.created == v.created;
    }
  }

  // -------------------------------------------------------------------------
  // The two databases and the statements against them.
  // -------------------------------------------------------------------------

  datatype Outcome = Duplicate | Ignored | UnknownCustomer | Superseded | Applied

  /** `customers` and `brains` are the two unique lookups; no delivery writes them. */
  datatype Db = Db(
    claims: map<VendorId, Outcome>,
    customers: map<CustomerId, AccountId>,
    rows: map<AccountId, Row>,
    brains: map<AccountId, TenantId>,
    control: map<TenantId, ControlTier>)

  function OwnerOf(db: Db, customer: Option<CustomerId>): Option<AccountId> {
    if customer.Some? && customer.value in db.customers then Some(db.customers[customer.value]) else None
  }

  /** The row the UPDATE would write breaks a CHECK or the unique index on subscription ids. */
  predicate Violates(db: Db, account: AccountId, u: Update) {
    && account in db.rows && IsNotOlder(db.rows[account], u) && u.tier == Paid
    && (u.subscription.None?
        || exists other :: other in db.rows && other != account && db.rows[other].subscription == u.subscription)
  }

  function MoveSubscription(db: Db, account: AccountId, u: Update): Db {
    if account in db.rows then db.(rows := db.rows[account := MoveRow(db.rows[account], u)]) else db
  }

  function MoveControl(db: Db, tenant: TenantId, tier: Tier): Db {
    if tenant in db.control then db.(control := db.control[tenant := Subscribed(tier)]) else db
  }

  function Claim(db: Db, d: Delivery): Db {
    db.(claims := db.claims[d.id := if d.Other? then Ignored else Applied])
  }

  function Mark(db: Db, d: Delivery, mark: Outcome): Db {
    if d.id in db.claims then db.(claims := db.claims[d.id := mark]) else db
  }

  function Release(db: Db, d: Delivery): Db {
    db.(claims := db.claims - {d.id})
  }

  /** Between which two statements an application stands. */
  datatype Phase =
    | Arrived
    | Claimed
    | Owned(account: AccountId)
    | RowMoved(account: AccountId)
    | HasBrain(tenant: TenantId)
    | Marking(mark: Outcome)
    | Unwinding
    | Failed
    | Finished(outcome: Outcome)

  datatype Application = Application(delivery: Delivery, phase: Phase)

  /** How an awaited statement ends; one that throws may have landed all the same. */
  datatype Reply = Replies | ThrowsUnlanded | ThrowsLanded

  predicate IsOver(phase: Phase) {
    phase.Failed? || phase.Finished?
  }

  /** The databases after one statement of one application, and where the application goes. */
  function RunStatement(db: Db, app: Application, reply: Reply): (Db, Phase) {
    var d := app.delivery;
    match app.phase
    case Arrived =>
      // The claim stands outside the try block: a throw here releases nothing.
      if d.id in db.claims then (db, if reply.Replies? then Finished(Duplicate) else Failed)
      else
        (match reply
         case Replies => (Claim(db, d), if d.Other? then Finished(Ignored) else Claimed)
         case ThrowsUnlanded => (db, Failed)
         case ThrowsLanded => (Claim(db, d), Failed))
    case Claimed =>
      if d.Other? || d.customer.None? then (db, Marking(UnknownCustomer))
      else if !reply.Replies? then (db, Unwinding)
      else if OwnerOf(db, d.customer).None? then (db, Marking(UnknownCustomer))
      else if d.Checkout? then (db, Marking(Ignored))
      else (db, Owned(OwnerOf(db, d.customer).value))
    case Owned(account) =>
      if !d.Subscription? || Violates(db, account, d.update) || reply.ThrowsUnlanded? then (db, Unwinding)
      else
        var matched := account in db.rows && IsNotOlder(db.rows[account], d.update);
        (MoveSubscription(db, account, d.update),
         if reply.ThrowsLanded? then Unwinding else if matched then RowMoved(account) else Marking(Superseded))
    case RowMoved(account) =>
      (db, if !reply.Replies? then Unwinding
           else if account in db.brains then HasBrain(db.brains[account])
           else Finished(Applied))
    case HasBrain(tenant) =>
      var moved := if d.Subscription? then MoveControl(db, tenant, d.update.tier) else db;
      (if reply.ThrowsUnlanded? then db else moved, if reply.Replies? then Finished(Applied) else Unwinding)
    case Marking(mark) =>
      (if reply.ThrowsUnlanded? then db else Mark(db, d, mark), if reply.Replies? then Finished(mark) else Unwinding)
    case Unwinding =>
      (if reply.ThrowsUnlanded? then db else Release(db, d), Failed)
    case Failed => (db, Failed)
    case Finished(outcome) => (db, Finished(outcome))
  }

  /** The UPDATE on the subscription row executes in this step. */
  predicate RunsUpdate(db: Db, app: Application, reply: Reply) {
    && app.phase.Owned? && app.delivery.Subscription?
    && !Violates(db, app.phase.account, app.delivery.update) && !reply.ThrowsUnlanded?
  }

  datatype Ran = Ran(account: AccountId, update: Update)

  /** `ran` logs each subscription UPDATE that executed, in the order the database ran them. */
  datatype System = System(db: Db, apps: seq<Application>, ran: seq<Ran>)

  datatype Step = Deliver(delivery: Delivery) | Advance(i: nat, reply: Reply)

  function Next(s: System, step: Step): System {
    match step
    case Deliver(delivery) => s.(apps := s.apps + [Application(delivery, Arrived)])
    case Advance(i, reply) =>
      if i >= |s.apps| then s
      else
        var app := s.apps[i];
        var (db, phase) := RunStatement(s.db, app, reply);
        System(db, s.apps[i := Application(app.delivery, phase)],
          if RunsUpdate(s.db, app, reply) then s.ran + [Ran(app.phase.account, app.delivery.update)] else s.ran)
  }

  function Start(db: Db): System {
    System(db, [], [])
  }

  function Run(s: System, steps: seq<Step>): System {
    if steps == [] then s else Next(Run(s, steps[..|steps| - 1]), steps[|steps| - 1])
  }

  // -------------------------------------------------------------------------
  // Any interleaving: the subscription row.
  // -------------------------------------------------------------------------

  /** The updates that ran against `account`, in order. */
  function RanOn(ran: seq<Ran>, account: AccountId): seq<Update> {
    if ran == [] then []
    else
      var rest := RanOn(ran[..|ran| - 1], account);
      if ran[|ran| - 1].account == account then rest + [ran[|ran| - 1].update] else rest
  }

  lemma RanOnAppend(ran: seq<Ran>, r: Ran, account: AccountId)
    ensures RanOn(ran + [r], account) == if r.account == account then
      RanOn(ran, account) + [r.update] else RanOn(ran, account)
  {
    assert (ran + [r])[..|ran|] == ran;
  }

  lemma {:induction false} RanOnHas(ran: seq<Ran>, account: AccountId, u: Update)
    ensures u in RanOn(ran, account) <==> Ran(account, u) in ran
  {
    if ran != [] {
      RanOnHas(ran[..|ran| - 1], account, u);
      assert ran == ran[..|ran| - 1] + [ran[|ran| - 1]];
    }
  }

  /** The row of `account` after the statement, given the one before. */
  function RowAfter(db: Db, app: Application, reply: Reply, account: AccountId): Row
    requires account in db.rows
  {
    if RunsUpdate(db, app, reply) && app.phase.account == account
    then MoveRow(db.rows[account], app.delivery.update) else db.rows[account]
  }

  /** What a statement leaves alone, and what the UPDATE makes of a row. */
  ghost predicate IsFramed(db: Db, app: Application, reply: Reply, after: Db) {
    && after.customers == db.customers && after.brains == db.brains
    && after.rows.Keys == db.rows.Keys && after.control.Keys == db.control.Keys
    && (forall account :: account in db.rows ==> after.rows[account] == RowAfter(db, app, reply, account))
    && (forall tenant :: tenant in db.control && app.phase != HasBrain(tenant) ==>
      after.control[tenant] == db.control[tenant])
  }

  lemma UpdateFrame(db: Db, app: Application, reply: Reply)
    requires app.phase.Owned?
    ensures IsFramed(db, app, reply, RunStatement(db, app, reply).0)
  {
  }

  lemma ControlFrame(db: Db, app: Application, reply: Reply)
    requires app.phase.HasBrain?
    ensures IsFramed(db, app, reply, RunStatement(db, app, reply).0)
  {
  }

  lemma OtherFrame(db: Db, app: Application, reply: Reply)
    requires !app.phase.Owned? && !app.phase.HasBrain?
    ensures IsFramed(db, app, reply, RunStatement(db, app, reply).0)
  {
  }

  lemma StatementFrame(db: Db, app: Application, reply: Reply)
    ensures IsFramed(db, app, reply, RunStatement(db, app, reply).0)
  {
    if app.phase.Owned? {
      UpdateFrame(db, app, reply);
    } else if app.phase.HasBrain? {
      ControlFrame(db, app, reply);
    } else {
      OtherFrame(db, app, reply);
    }
  }

  /** The row is what its UPDATEs made of it, and the lookups are as they were. */
  ghost predicate RowsInv(start: Db, s: System) {
    && s.db.rows.Keys == start.rows.Keys
    && s.db.customers == start.customers && s.db.brains == start.brains
    && forall account :: account in start.rows ==>
         s.db.rows[account] == MoveAll(start.rows[account], RanOn(s.ran, account))
  }

  lemma StepKeepsRowsInv(start: Db, s: System, step: Step)
    requires RowsInv(start, s)
    ensures RowsInv(start, Next(s, step))
  {
    if step.Advance? && step.i < |s.apps| {
      var app := s.apps[step.i];
      StatementFrame(s.db, app, step.reply);
      if RunsUpdate(s.db, app, step.reply) {
        var ran := Ran(app.phase.account, app.delivery.update);
        forall account | account in start.rows
          ensures Next(s, step).db.rows[account] == MoveAll(start.rows[account], RanOn(s.ran + [ran], account))
        {
          RanOnAppend(s.ran, ran, account);
          var us := RanOn(s.ran, account);
          assert (us + [ran.update])[..|us|] == us;
        }
      }
    }
  }

  lemma {:induction false} EveryRunKeepsRowsInv(start: Db, steps: seq<Step>)
    ensures RowsInv(start, Run(Start(start), steps))
  {
    if steps != [] {
      EveryRunKeepsRowsInv(start, steps[..|steps| - 1]);
      StepKeepsRowsInv(start, Run(Start(start), steps[..|steps| - 1]), steps[|steps| - 1]);
    }
  }

  /** The phases in which the UPDATE of a delivery has been answered. */
  predicate UpdateAnswered(phase: Phase) {
    || phase.RowMoved? || phase.HasBrain?
    || phase == Marking(Superseded) || phase == Finished(Superseded) || phase == Finished(Applied)
  }

  /** What the phase of an application says about its delivery. */
  ghost predicate PhaseInv(db: Db, ran: seq<Ran>, app: Application) {
    var owner := if app.delivery.Other? then None else OwnerOf(db, app.delivery.customer);
    && (app.phase.Owned? || app.phase.RowMoved? ==> owner == Some(app.phase.account))
    && (app.phase.HasBrain? ==>
          owner.Some? && owner.value in db.brains && db.brains[owner.value] == app.phase.tenant)
    && (app.phase.Marking? ==> app.phase.mark in {UnknownCustomer, Ignored, Superseded})
    && (app.phase.Owned? ==> app.delivery.Subscription?)
    && (UpdateAnswered(app.phase) ==>
          app.delivery.Subscription? && owner.Some? && Ran(owner.value, app.delivery.update) in ran)
  }

  lemma StatementKeepsPhaseInv(db: Db, ran: seq<Ran>, app: Application, reply: Reply)
    requires PhaseInv(db, ran, app)
    ensures var (after, phase) := RunStatement(db, app, reply);
      PhaseInv(after,
        if RunsUpdate(db, app, reply) then ran + [Ran(app.phase.account, app.delivery.update)] else ran,
        Application(app.delivery, phase))
  {
    StatementFrame(db, app, reply);
  }

  ghost predicate AppsInv(s: System) {
    forall i :: 0 <= i < |s.apps| ==> PhaseInv(s.db, s.ran, s.apps[i])
  }

  lemma StepKeepsAppsInv(s: System, step: Step)
    requires AppsInv(s)
    ensures AppsInv(Next(s, step))
  {
    if step.Advance? && step.i < |s.apps| {
      StatementFrame(s.db, s.apps[step.i], step.reply);
      StatementKeepsPhaseInv(s.db, s.ran, s.apps[step.i], step.reply);
      var next := Next(s, step);
      forall k | 0 <= k < |next.apps| ensures PhaseInv(next.db, next.ran, next.apps[k]) {
        assert PhaseInv(s.db, s.ran, s.apps[k]);
      }
    }
  }

  lemma {:induction false} EveryRunKeepsAppsInv(start: Db, steps: seq<Step>)
    ensures AppsInv(Run(Start(start), steps))
  {
    if steps != [] {
      EveryRunKeepsAppsInv(start, steps[..|steps| - 1]);
      StepKeepsAppsInv(Run(Start(start), steps[..|steps| - 1]), steps[|steps| - 1]);
    }
  }

  /** The delivery concerns `account`. */
  predicate IsFor(db: Db, app: Application, account: AccountId) {
    !app.delivery.Other? && OwnerOf(db, app.delivery.customer) == Some(account)
  }

  /** Application `i` is for the account of `r`, carries its update, and got past its UPDATE. */
  predicate Carries(s: System, i: int, r: Ran) {
    && 0 <= i < |s.apps|
    && IsFor(s.db, s.apps[i], r.account)
    && s.apps[i].delivery.Subscription? && s.apps[i].delivery.update == r.update
    && !s.apps[i].phase.Arrived? && !s.apps[i].phase.Claimed? && !s.apps[i].phase.Owned?
  }

  ghost predicate IsCarried(s: System, r: Ran) {
    exists i :: Carries(s, i, r)
  }

  ghost predicate LogInv(s: System) {
    forall r :: r in s.ran ==> IsCarried(s, r)
  }

  lemma CarriersStay(s: System, step: Step, i: int, r: Ran)
    requires Carries(s, i, r)
    ensures Carries(Next(s, step), i, r)
  {
    if step.Advance? && step.i < |s.apps| {
      StatementFrame(s.db, s.apps[step.i], step.reply);
    }
  }

  lemma StepKeepsLog(s: System, step: Step)
    requires LogInv(s) && AppsInv(s)
    ensures LogInv(Next(s, step))
  {
    var next := Next(s, step);
    forall r | r in next.ran ensures IsCarried(next, r) {
      if r in s.ran {
        var i :| Carries(s, i, r);
        CarriersStay(s, step, i, r);
      } else {
        assert PhaseInv(s.db, s.ran, s.apps[step.i]);
        StatementFrame(s.db, s.apps[step.i], step.reply);
        assert Carries(next, step.i, r);
      }
    }
  }

  lemma {:induction false} EveryRunKeepsLog(start: Db, steps: seq<Step>)
    ensures LogInv(Run(Start(start), steps))
  {
    if steps != [] {
      EveryRunKeepsLog(start, steps[..|steps| - 1]);
      EveryRunKeepsAppsInv(start, steps[..|steps| - 1]);
      StepKeepsLog(Run(Start(start), steps[..|steps| - 1]), steps[|steps| - 1]);
    }
  }

  /**
   * Under any interleaving, repetition and partial failure, the row is the
   * starting one or exactly the row of the newest update that ran. Those that
   * ran were each carried by a delivery for this account, and every delivery
   * answered applied or superseded is among them.
   */
  lemma TheRowIsTheNewestDelivery(start: Db, steps: seq<Step>, account: AccountId)
    requires account in start.rows
    ensures var s := Run(Start(start), steps);
      var us := RanOn(s.ran, account);
      && account in s.db.rows
      && IsFromTheNewest(start.rows[account], us, s.db.rows[account])
      && (forall u :: u in us ==> IsCarried(s, Ran(account, u)))
      && (forall k :: 0 <= k < |s.apps| && IsFor(s.db, s.apps[k], account) && UpdateAnswered(s.apps[k].phase) ==>
            s.apps[k].delivery.Subscription? && s.apps[k].delivery.update in us)
  {
    var s := Run(Start(start), steps);
    EveryRunKeepsRowsInv(start, steps);
    EveryRunKeepsAppsInv(start, steps);
    EveryRunKeepsLog(start, steps);
    var us := RanOn(s.ran, account);
    TheNewestDecides(start.rows[account], us);
    forall u | u in us ensures IsCarried(s, Ran(account, u)) {
      RanOnHas(s.ran, account, u);
    }
    forall k | 0 <= k < |s.apps| && IsFor(s.db, s.apps[k], account) && UpdateAnswered(s.apps[k].phase)
      ensures s.apps[k].delivery.Subscription? && s.apps[k].delivery.update in us
    {
      assert PhaseInv(s.db, s.ran, s.apps[k]);
      RanOnHas(s.ran, account, s.apps[k].delivery.update);
    }
  }

  /** A delivery for the account that carries `u` has arrived. */
  predicate Offers(s: System, i: int, account: AccountId, u: Update) {
    && 0 <= i < |s.apps| && IsFor(s.db, s.apps[i], account)
    && s.apps[i].delivery.Subscription? && s.apps[i].delivery.update == u
  }

  ghost predicate IsOffered(s: System, account: AccountId, u: Update) {
    exists i :: Offers(s, i, account, u)
  }

  /** Some delivery that carries `u` was answered applied or superseded. */
  ghost predicate IsAnswered(s: System, account: AccountId, u: Update) {
    exists i :: Offers(s, i, account, u) && UpdateAnswered(s.apps[i].phase)
  }

  /** Both offered the same updates, no two different ones of one second, and answered each. */
  ghost predicate HeardTheSame(s: System, t: System, account: AccountId) {
    && (forall u :: IsOffered(s, account, u) <==> IsOffered(t, account, u))
    && (forall u :: IsOffered(s, account, u) ==> IsAnswered(s, account, u) && IsAnswered(t, account, u))
    && (forall u, v | IsOffered(s, account, u) && IsOffered(s, account, v) && u.created == v.created :: u == v)
  }

  /** When every offered update has been answered, those that ran are those that were offered. */
  lemma AllThatIsOfferedRan(start: Db, steps: seq<Step>, account: AccountId, u: Update)
    requires account in start.rows
    requires var s := Run(Start(start), steps); IsOffered(s, account, u) ==> IsAnswered(s, account, u)
    ensures var s := Run(Start(start), steps); u in RanOn(s.ran, account) <==> IsOffered(s, account, u)
  {
    var s := Run(Start(start), steps);
    TheRowIsTheNewestDelivery(start, steps, account);
    if u in RanOn(s.ran, account) {
      var i :| Carries(s, i, Ran(account, u));
      assert Offers(s, i, account, u);
    }
  }

  /**
   * Confluence: two runs over the same updates for an account, no two different
   * ones of one second, each answered at least once, leave the same row. How
   * deliveries repeated, failed, overtook and interleaved does not show.
   */
  lemma RunsAgree(start: Db, one: seq<Step>, two: seq<Step>, account: AccountId)
    requires account in start.rows
    requires HeardTheSame(Run(Start(start), one), Run(Start(start), two), account)
    ensures account in Run(Start(start), one).db.rows && account in Run(Start(start), two).db.rows
    ensures Run(Start(start), one).db.rows[account] == Run(Start(start), two).db.rows[account]
  {
    var s, t := Run(Start(start), one), Run(Start(start), two);
    EveryRunKeepsRowsInv(start, one);
    EveryRunKeepsRowsInv(start, two);
    var us, vs := RanOn(s.ran, account), RanOn(t.ran, account);
    forall u ensures u in us <==> IsOffered(s, account, u) {
      AllThatIsOfferedRan(start, one, account, u);
    }
    forall u ensures u in vs <==> IsOffered(t, account, u) {
      AllThatIsOfferedRan(start, two, account, u);
    }
    OrderDoesNotMatter(start.rows[account], us, vs);
  }

  /** The recency mark only ever advances, step by step. */
  lemma LastCreatedNeverDecreases(s: System, step: Step, account: AccountId)
    requires account in s.db.rows
    ensures account in Next(s, step).db.rows
    ensures s.db.rows[account].lastCreated.Some? ==>
      var after := Next(s, step).db.rows[account].lastCreated;
      after.Some? && s.db.rows[account].lastCreated.value <= after.value
  {
    if step.Advance? && step.i < |s.apps| {
      StatementFrame(s.db, s.apps[step.i], step.reply);
    }
  }
}
