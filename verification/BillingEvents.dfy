/**
 * From a verified event of `applyBillingEvent` to the values a delivery binds,
 * and from there to the row and the brain it leaves.
 */
module BillingEvents {
  import opened Prelude
  import opened Billing
  import opened BillingTiers

  predicate ActsOnSubscription(e: Event) {
    e.kind.SubscriptionChanged? || e.kind.SubscriptionDeleted?
  }

  /** A positive whole number of seconds, up to 10^12. */
  predicate HasUsableCreated(e: Event) {
    e.created.Whole? && 1 <= e.created.n <= 1_000_000_000_000
  }

  /** Only a subscription event can be malformed, and only for its `created`; the others read as they are. */
  lemma WhatIsMalformed(e: Event)
    ensures Read(e).None? <==> ActsOnSubscription(e) && !HasUsableCreated(e)
    ensures e.kind.CheckoutCompleted? ==> Read(e) == Some(Checkout(e.id, e.customer))
    ensures e.kind.OtherEvent? ==> Read(e) == Some(Other(e.id))
  {
  }

  /** A deletion, and a change without a status, read as a free, canceled account without a subscription. */
  lemma EndingsReadAsCanceled(e: Event)
    requires e.kind.SubscriptionDeleted? || (e.kind.SubscriptionChanged? && e.status.None?)
    requires HasUsableCreated(e)
    ensures Read(e) ==
      Some(Subscription(e.id, e.customer, Update(e.created.n, Free, Canceled, None, e.periodEnd)))
  {
  }

  /**
   * A change reads as the status it names, or as incomplete for a name nobody
   * knows. It pays, and keeps the vendor's subscription id, exactly when that is
   * active, trialing or past due; everything else of it is bound as it came.
   */
  lemma ChangesReadAsNamed(e: Event)
    requires e.kind.SubscriptionChanged? && e.status.Some? && HasUsableCreated(e)
    ensures Read(e).Some? && Read(e).value.Subscription?
    ensures var d := Read(e).value;
      && d.id == e.id && d.customer == e.customer
      && d.update.created == e.created.n && d.update.periodEnd == e.periodEnd
      && (d.update.status == NoStatus <==> e.status.value == "none")
      && (d.update.status == Trialing <==> e.status.value == "trialing")
      && (d.update.status == Active <==> e.status.value == "active")
      && (d.update.status == PastDue <==> e.status.value == "past_due")
      && (d.update.status == Canceled <==> e.status.value == "canceled")
      && (d.update.tier == Paid <==> e.status.value in {"active", "trialing", "past_due"})
      && d.update.subscription == if d.update.tier == Paid then e.subscription else None
  {
  }

  /** `u` ran, the account had seen nothing newer before, and everything else that ran is older. */
  predicate RanLatest(before: Row, us: seq<Update>, u: Update) {
    && u in us
    && (before.lastCreated.Some? ==> before.lastCreated.value <= u.created)
    && forall v :: v in us ==> v == u || v.created < u.created
  }

  /** Column by column, the row is what the latest update says. */
  lemma TheRowShowsTheLatest(start: Db, steps: seq<Step>, account: AccountId, u: Update)
    requires account in start.rows
    requires RanLatest(start.rows[account], RanOn(Run(Start(start), steps).ran, account), u)
    ensures account in Run(Start(start), steps).db.rows
    ensures Run(Start(start), steps).db.rows[account] ==
      Row(u.tier, u.status, u.subscription, u.periodEnd, Some(u.created))
  {
    var before := start.rows[account];
    var us := RanOn(Run(Start(start), steps).ran, account);
    TheRowIsTheNewestDelivery(start, steps, account);
    assert IsNewest(before, us, u);
    if !AllAreStale(before, us) {
      var newest :| IsNewest(before, us, newest)
        && Run(Start(start), steps).db.rows[account] == RowFrom(newest);
      assert u.created <= newest.created;
    }
  }

  /** One application at a time, the tiers in step before, and the last that moved the row has finished. */
  ghost predicate IsOrderly(start: Db, steps: seq<Step>, account: AccountId) {
    && HasOwnBrain(start, account) && InStep(start, account)
    && NeverInterleaves(start, steps, account) && HasSettled(start, steps, account)
  }

  /**
   * When the latest delivery that ran is read from a deletion, the row ends
   * free, canceled and without a subscription, whatever came in whatever order;
   * and where applications did not interleave and it finished, the brain is free.
   */
  lemma ADeletionEndsTheSubscription(start: Db, steps: seq<Step>, account: AccountId, e: Event)
    requires account in start.rows
    requires e.kind.SubscriptionDeleted? && Read(e).Some?
    requires RanLatest(start.rows[account], RanOn(Run(Start(start), steps).ran, account), Read(e).value.update)
    ensures var db := Run(Start(start), steps).db;
      && account in db.rows
      && db.rows[account].tier == Free && db.rows[account].status == Canceled
      && db.rows[account].subscription == None && db.rows[account].periodEnd == e.periodEnd
      && e.created.Whole? && db.rows[account].lastCreated == Some(e.created.n)
    ensures IsOrderly(start, steps, account) ==>
      var db := Run(Start(start), steps).db;
      account in db.brains && db.brains[account] in db.control
      && db.control[db.brains[account]] == Subscribed(Free)
  {
    WhatIsMalformed(e);
    EndingsReadAsCanceled(e);
    TheRowShowsTheLatest(start, steps, account, Read(e).value.update);
    if IsOrderly(start, steps, account) {
      TiersDifferOnlyHalfWay(start, steps, account);
    }
  }

  /** And from a change to a status that pays, paid, with the vendor's subscription. */
  lemma AnUpgradePays(start: Db, steps: seq<Step>, account: AccountId, e: Event)
    requires account in start.rows
    requires e.kind.SubscriptionChanged? && Read(e).Some?
    requires e.status == Some("active") || e.status == Some("trialing") || e.status == Some("past_due")
    requires RanLatest(start.rows[account], RanOn(Run(Start(start), steps).ran, account), Read(e).value.update)
    ensures var db := Run(Start(start), steps).db;
      && account in db.rows
      && db.rows[account].tier == Paid && db.rows[account].subscription == e.subscription
      && db.rows[account].periodEnd == e.periodEnd
    ensures IsOrderly(start, steps, account) ==>
      var db := Run(Start(start), steps).db;
      account in db.brains && db.brains[account] in db.control
      && db.control[db.brains[account]] == Subscribed(Paid)
  {
    WhatIsMalformed(e);
    ChangesReadAsNamed(e);
    TheRowShowsTheLatest(start, steps, account, Read(e).value.update);
    if IsOrderly(start, steps, account) {
      TiersDifferOnlyHalfWay(start, steps, account);
    }
  }

  // -------------------------------------------------------------------------
  // What an answer means.
  // -------------------------------------------------------------------------

  /** The case an application is in, or has been answered with, is that of its delivery. */
  ghost predicate IsInItsCase(db: Db, app: Application) {
    var d := app.delivery;
    var owned := !d.Other? && d.customer.Some? && d.customer.value in db.customers;
    var mark := if app.phase.Marking? then Some(app.phase.mark)
                else if app.phase.Finished? then Some(app.phase.outcome) else None;
    && (app.phase.Claimed? ==> !d.Other?)
    && (app.phase.Owned? || app.phase.RowMoved? || app.phase.HasBrain? ==> d.Subscription? && owned)
    && (mark == Some(UnknownCustomer) ==> !d.Other? && !owned)
    && (mark == Some(Ignored) ==> d.Other? || (d.Checkout? && owned))
    && (mark == Some(Superseded) || mark == Some(Applied) ==> d.Subscription? && owned)
  }

  lemma StatementKeepsItsCase(db: Db, app: Application, reply: Reply)
    requires IsInItsCase(db, app)
    ensures IsInItsCase(RunStatement(db, app, reply).0, Application(app.delivery, RunStatement(db, app, reply).1))
  {
    StatementFrame(db, app, reply);
  }

  /**
   * In every run an answer says what the delivery was: unknown customer for one
   * nobody has, ignored for an event that is acted on by no one or a checkout,
   * applied or superseded for a subscription of a known customer.
   */
  lemma {:induction false} AnswersNameTheCase(start: Db, steps: seq<Step>, i: nat)
    requires i < |Run(Start(start), steps).apps|
    ensures IsInItsCase(Run(Start(start), steps).db, Run(Start(start), steps).apps[i])
  {
    if steps != [] {
      var before := steps[..|steps| - 1];
      var s, step := Run(Start(start), before), steps[|steps| - 1];
      if i < |s.apps| {
        AnswersNameTheCase(start, before, i);
      }
      if step.Advance? && step.i < |s.apps| {
        StatementFrame(s.db, s.apps[step.i], step.reply);
        if i == step.i {
          StatementKeepsItsCase(s.db, s.apps[i], step.reply);
        }
      }
    }
  }

  // -------------------------------------------------------------------------
  // One delivery, statement by statement and as a whole.
  // -------------------------------------------------------------------------

  /** The application after `n` more statements that all reply, with nothing else at work. */
  function Undisturbed(db: Db, app: Application, n: nat): (Db, Phase)
    decreases n
  {
    if n == 0 then (db, app.phase)
    else
      var (next, phase) := RunStatement(db, app, Replies);
      Undisturbed(next, Application(app.delivery, phase), n - 1)
  }

  predicate IsKnown(db: Db, customer: Option<CustomerId>) {
    customer.Some? && customer.value in db.customers
  }

  /** What the table's constraints refuse: paying without a subscription, or with another account's. */
  predicate IsRefused(db: Db, account: AccountId, u: Update) {
    u.tier == Paid
    && (u.subscription == None
        || exists other :: other in db.rows && other != account && db.rows[other].subscription == u.subscription)
  }

  /** Both halves of the tier, and the whole row, by one delivery. */
  function Carried(db: Db, account: AccountId, u: Update): Db {
    var row := Row(u.tier, u.status, u.subscription, u.periodEnd, Some(u.created));
    var moved := db.(rows := db.rows[account := row]);
    if account in db.brains && db.brains[account] in db.control
      then moved.(control := db.control[db.brains[account] := Subscribed(u.tier)])
      else moved
  }

  predicate IsSuperseded(db: Db, account: AccountId, u: Update) {
    account !in db.rows || (db.rows[account].lastCreated.Some? && u.created < db.rows[account].lastCreated.value)
  }

  /** What a delivery comes to when nothing throws and nothing else is at work. */
  function Handled(db: Db, d: Delivery): (Db, Phase) {
    if d.id in db.claims then (db, Finished(Duplicate))
    else
      match d
      case Other(id) => (db.(claims := db.claims[id := Ignored]), Finished(Ignored))
      case Checkout(id, customer) =>
        var outcome := if IsKnown(db, customer) then Ignored else UnknownCustomer;
        (db.(claims := db.claims[id := outcome]), Finished(outcome))
      case Subscription(id, customer, u) =>
        if !IsKnown(db, customer) then (db.(claims := db.claims[id := UnknownCustomer]), Finished(UnknownCustomer))
        else
          var account := db.customers[customer.value];
          if IsSuperseded(db, account, u) then (db.(claims := db.claims[id := Superseded]), Finished(Superseded))
          else if IsRefused(db, account, u) then (db, Failed)
          else (Carried(db, account, u).(claims := db.claims[id := Applied]), Finished(Applied))
  }

  lemma NStatements(db: Db, app: Application, n: nat)
    requires n > 0
    ensures var (next, phase) := RunStatement(db, app, Replies);
      Undisturbed(db, app, n) == Undisturbed(next, Application(app.delivery, phase), n - 1)
  {
  }

  lemma {:induction false} OverStaysOver(db: Db, app: Application, n: nat)
    requires IsOver(app.phase)
    ensures Undisturbed(db, app, n) == (db, app.phase)
  {
    if n > 0 {
      OverStaysOver(db, app, n - 1);
    }
  }

  lemma MarkedAndDone(db: Db, d: Delivery, mark: Outcome, n: nat)
    requires d.id in db.claims && n > 0
    ensures Undisturbed(db, Application(d, Marking(mark)), n) ==
      (db.(claims := db.claims[d.id := mark]), Finished(mark))
  {
    NStatements(db, Application(d, Marking(mark)), n);
    OverStaysOver(db.(claims := db.claims[d.id := mark]), Application(d, Finished(mark)), n - 1);
  }

  lemma UnwoundAndDone(db: Db, d: Delivery, n: nat)
    requires n > 0
    ensures Undisturbed(db, Application(d, Unwinding), n) == (db.(claims := db.claims - {d.id}), Failed)
  {
    NStatements(db, Application(d, Unwinding), n);
    OverStaysOver(db.(claims := db.claims - {d.id}), Application(d, Failed), n - 1);
  }

  /** From the moved row on: the other half, if there is a brain for it. */
  lemma MovedAndDone(db: Db, d: Delivery, account: AccountId)
    requires d.Subscription?
    ensures Undisturbed(db, Application(d, RowMoved(account)), 2) ==
      (if account in db.brains && db.brains[account] in db.control
       then db.(control := db.control[db.brains[account] := Subscribed(d.update.tier)]) else db, Finished(Applied))
  {
    NStatements(db, Application(d, RowMoved(account)), 2);
    if account in db.brains {
      NStatements(db, Application(d, HasBrain(db.brains[account])), 1);
    } else {
      OverStaysOver(db, Application(d, Finished(Applied)), 1);
    }
  }

  lemma OwnedAndDone(db: Db, d: Delivery, account: AccountId)
    requires d.Subscription? && d.id in db.claims && db.claims[d.id] == Applied
    ensures Undisturbed(db, Application(d, Owned(account)), 3) ==
      if IsSuperseded(db, account, d.update) then (db.(claims := db.claims[d.id := Superseded]), Finished(Superseded))
      else if IsRefused(db, account, d.update) then (db.(claims := db.claims - {d.id}), Failed)
      else (Carried(db, account, d.update), Finished(Applied))
  {
    NStatements(db, Application(d, Owned(account)), 3);
    if IsSuperseded(db, account, d.update) {
      assert MoveSubscription(db, account, d.update) == db by {
        assert account in db.rows ==> db.rows[account := db.rows[account]] == db.rows;
      }
      MarkedAndDone(db, d, Superseded, 2);
    } else if IsRefused(db, account, d.update) {
      UnwoundAndDone(db, d, 2);
    } else {
      MovedAndDone(MoveSubscription(db, account, d.update), d, account);
    }
  }

  lemma ClaimedAndDone(db: Db, d: Delivery)
    requires !d.Other? && d.id in db.claims && db.claims[d.id] == Applied
    ensures Undisturbed(db, Application(d, Claimed), 4) ==
      if !IsKnown(db, d.customer)
      then (db.(claims := db.claims[d.id := UnknownCustomer]), Finished(UnknownCustomer))
      else if d.Checkout? then (db.(claims := db.claims[d.id := Ignored]), Finished(Ignored))
      else Undisturbed(db, Application(d, Owned(db.customers[d.customer.value])), 3)
  {
    NStatements(db, Application(d, Claimed), 4);
    if !IsKnown(db, d.customer) {
      MarkedAndDone(db, d, UnknownCustomer, 3);
    } else if d.Checkout? {
      MarkedAndDone(db, d, Ignored, 3);
    }
  }

  /**
   * The statements of one delivery, run to their end, are one transaction: the
   * claim, and with it the row and the brain or nothing.
   */
  lemma StatementsMakeATransaction(db: Db, d: Delivery)
    ensures Undisturbed(db, Application(d, Arrived), 5) == Handled(db, d)
  {
    NStatements(db, Application(d, Arrived), 5);
    if d.id in db.claims {
      OverStaysOver(db, Application(d, Finished(Duplicate)), 4);
    } else if d.Other? {
      OverStaysOver(Claim(db, d), Application(d, Finished(Ignored)), 4);
    } else {
      var claimed := Claim(db, d);
      ClaimedAndDone(claimed, d);
      assert claimed.claims - {d.id} == db.claims;
      assert claimed == db.(claims := db.claims[d.id := Applied]);
      assert claimed.claims[d.id := UnknownCustomer] == db.claims[d.id := UnknownCustomer];
      assert claimed.claims[d.id := Ignored] == db.claims[d.id := Ignored];
      assert claimed.claims[d.id := Superseded] == db.claims[d.id := Superseded];
      if d.Subscription? && IsKnown(db, d.customer) {
        OwnedAndDone(claimed, d, db.customers[d.customer.value]);
      }
    }
  }

  /**
   * A statement that throws is never the last of an answered delivery: what it
   * would have written is there or is not there as a whole, and the delivery
   * goes on to release its claim, or has failed. A claimed delivery that names no
   * customer looks nobody up, so that nothing can throw there.
   */
  lemma AThrowIsNeverAnAnswer(db: Db, app: Application, reply: Reply)
    requires !IsOver(app.phase) && !reply.Replies? && (app.phase.Claimed? ==> !app.delivery.Other?)
    ensures RunStatement(db, app, reply).1 ==
      if app.phase.Claimed? && app.delivery.customer == None then Marking(UnknownCustomer)
      else if app.phase.Arrived? || app.phase.Unwinding? then Failed
      else Unwinding
    ensures reply.ThrowsUnlanded? ==> RunStatement(db, app, reply).0 == db
    ensures reply.ThrowsLanded? ==> RunStatement(db, app, reply).0 == RunStatement(db, app, Replies).0
  {
  }
}
