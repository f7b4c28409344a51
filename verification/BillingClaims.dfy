/**
 * The dedupe table of `applyBillingEvent`: who holds the claim on an event id
 * at each point of a run, and what a failure does with it.
 */
module BillingClaims {
  import opened Prelude
  import opened Billing

  /** The application has its event's claim: it is at work under it, or has answered under it. */
  predicate HasClaim(app: Application) {
    match app.phase
    case Arrived => false
    case Failed => false
    case Finished(outcome) => outcome != Duplicate
    case _ => true
  }

  /**
   * The step ends an application and leaves its claim behind: the claim landed
   * although its statement threw, or the release did not land.
   */
  predicate Orphans(s: System, step: Step) {
    && step.Advance? && step.i < |s.apps|
    && var app := s.apps[step.i];
      || (app.phase.Arrived? && app.delivery.id !in s.db.claims && step.reply.ThrowsLanded?)
      || (app.phase.Unwinding? && step.reply.ThrowsUnlanded?)
  }

  /** The event ids whose claim a failed delivery of the run left behind. */
  function Orphaned(start: Db, steps: seq<Step>): set<VendorId> {
    if steps == [] then {}
    else
      var before := steps[..|steps| - 1];
      var s := Run(Start(start), before);
      var step := steps[|steps| - 1];
      Orphaned(start, before) + if Orphans(s, step) then {s.apps[step.i].delivery.id} else {}
  }

  function HeldIds(apps: seq<Application>): set<VendorId> {
    set i | 0 <= i < |apps| && HasClaim(apps[i]) :: apps[i].delivery.id
  }

  /** Nobody's claims: those of before the run, and those left behind. */
  ghost predicate ClaimsInv(left: set<VendorId>, s: System) {
    && s.db.claims.Keys == left + HeldIds(s.apps)
    && (forall i :: 0 <= i < |s.apps| && HasClaim(s.apps[i]) ==> s.apps[i].delivery.id !in left)
    && (forall i, j :: 0 <= i < j < |s.apps| && HasClaim(s.apps[i]) && HasClaim(s.apps[j]) ==>
          s.apps[i].delivery.id != s.apps[j].delivery.id)
  }

  /** What one statement does to the claim on its own event, and to no other. */
  lemma StatementMovesItsClaim(db: Db, app: Application, reply: Reply)
    requires HasClaim(app) ==> app.delivery.id in db.claims
    requires app.phase.Marking? ==> app.phase.mark != Duplicate
    ensures var (after, phase) := RunStatement(db, app, reply);
      var id := app.delivery.id;
      && (forall other :: other != id ==> (other in after.claims <==> other in db.claims))
      && (HasClaim(Application(app.delivery, phase)) ==> id in after.claims)
      && (HasClaim(Application(app.delivery, phase)) && !HasClaim(app) ==> id !in db.claims)
      && (!HasClaim(Application(app.delivery, phase)) && HasClaim(app) ==>
            app.phase.Unwinding? && (id in after.claims <==> reply.ThrowsUnlanded?))
      && (!HasClaim(Application(app.delivery, phase)) && !HasClaim(app) ==>
            (id in after.claims <==>
              id in db.claims || (app.phase.Arrived? && reply.ThrowsLanded?)))
  {
  }

  lemma HeldIdsOneMore(apps: seq<Application>, app: Application)
    ensures HeldIds(apps + [app]) == HeldIds(apps) + if HasClaim(app) then {app.delivery.id} else {}
  {
    var more := apps + [app];
    assert forall i :: 0 <= i < |apps| ==> more[i] == apps[i];
    forall id | id in HeldIds(apps) ensures id in HeldIds(more) {
      var i :| 0 <= i < |apps| && HasClaim(apps[i]) && apps[i].delivery.id == id;
      assert more[i] == apps[i];
    }
    if HasClaim(app) {
      assert more[|apps|] == app;
    }
  }

  /** Everyone else's claims when application `i` moves. */
  lemma HeldIdsMove(apps: seq<Application>, i: nat, app: Application, id: VendorId)
    requires i < |apps| && app.delivery == apps[i].delivery && id != app.delivery.id
    ensures id in HeldIds(apps[i := app]) <==> id in HeldIds(apps)
  {
    if id in HeldIds(apps) {
      var k :| 0 <= k < |apps| && HasClaim(apps[k]) && apps[k].delivery.id == id;
      assert apps[i := app][k] == apps[k];
    }
    if id in HeldIds(apps[i := app]) {
      var k :| 0 <= k < |apps| && HasClaim(apps[i := app][k]) && apps[i := app][k].delivery.id == id;
      assert apps[i := app][k] == apps[k];
    }
  }

  function LeftBy(s: System, step: Step): set<VendorId> {
    if Orphans(s, step) then {s.apps[step.i].delivery.id} else {}
  }

  lemma MoveKeepsDistinctClaims(left: set<VendorId>, s: System, step: Step)
    requires ClaimsInv(left, s) && AppsInv(s) && step.Advance? && step.i < |s.apps|
    ensures var next := Next(s, step);
      forall i, j :: 0 <= i < j < |next.apps| && HasClaim(next.apps[i]) && HasClaim(next.apps[j]) ==>
          next.apps[i].delivery.id != next.apps[j].delivery.id
  {
    var app := s.apps[step.i];
    var next := Next(s, step);
    assert PhaseInv(s.db, s.ran, app);
    StatementMovesItsClaim(s.db, app, step.reply);
    forall i, j | 0 <= i < j < |next.apps| && HasClaim(next.apps[i]) && HasClaim(next.apps[j])
      ensures next.apps[i].delivery.id != next.apps[j].delivery.id
    {
      var k := if i == step.i then j else i;
      if (i == step.i || j == step.i) && !HasClaim(app) {
        assert next.apps[k] == s.apps[k];
        assert s.apps[k].delivery.id in HeldIds(s.apps);
      }
    }
  }

  lemma MoveKeepsClaims(left: set<VendorId>, s: System, step: Step)
    requires ClaimsInv(left, s) && AppsInv(s) && step.Advance? && step.i < |s.apps|
    ensures Next(s, step).db.claims.Keys == left + LeftBy(s, step) + HeldIds(Next(s, step).apps)
    ensures forall i :: 0 <= i < |s.apps| && HasClaim(Next(s, step).apps[i]) ==>
      Next(s, step).apps[i].delivery.id !in left + LeftBy(s, step)
  {
    var app := s.apps[step.i];
    var id := app.delivery.id;
    var next := Next(s, step);
    assert PhaseInv(s.db, s.ran, app);
    assert HasClaim(app) ==> id in HeldIds(s.apps);
    StatementMovesItsClaim(s.db, app, step.reply);
    forall other | other != id ensures other in HeldIds(next.apps) <==> other in HeldIds(s.apps) {
      HeldIdsMove(s.apps, step.i, next.apps[step.i], other);
    }
    OwnIdHeld(left, s, step);
    forall i | 0 <= i < |s.apps| && HasClaim(next.apps[i])
      ensures next.apps[i].delivery.id !in left + LeftBy(s, step)
    {
      if i != step.i {
        assert next.apps[i] == s.apps[i] && s.apps[i].delivery.id in HeldIds(s.apps);
      }
    }
  }

  /** After the step, the id of the application that moved is claimed just as the invariant says. */
  lemma OwnIdHeld(left: set<VendorId>, s: System, step: Step)
    requires ClaimsInv(left, s) && AppsInv(s) && step.Advance? && step.i < |s.apps|
    ensures var id := s.apps[step.i].delivery.id;
      id in Next(s, step).db.claims <==> id in left + LeftBy(s, step) + HeldIds(Next(s, step).apps)
  {
    var app := s.apps[step.i];
    var id := app.delivery.id;
    var next := Next(s, step);
    assert PhaseInv(s.db, s.ran, app);
    assert HasClaim(app) ==> id in HeldIds(s.apps);
    StatementMovesItsClaim(s.db, app, step.reply);
    if HasClaim(next.apps[step.i]) {
      assert id in HeldIds(next.apps);
    } else if HasClaim(app) {
      forall k | 0 <= k < |next.apps| && next.apps[k].delivery.id == id ensures !HasClaim(next.apps[k]) {
        assert k != step.i ==> next.apps[k] == s.apps[k];
      }
    } else {
      if id in HeldIds(s.apps) {
        var k :| 0 <= k < |s.apps| && HasClaim(s.apps[k]) && s.apps[k].delivery.id == id;
        assert next.apps[k] == s.apps[k];
      }
      if id in HeldIds(next.apps) {
        var k :| 0 <= k < |next.apps| && HasClaim(next.apps[k]) && next.apps[k].delivery.id == id;
        assert next.apps[k] == s.apps[k];
      }
    }
  }

  lemma StepKeepsClaims(left: set<VendorId>, s: System, step: Step)
    requires ClaimsInv(left, s) && AppsInv(s)
    ensures ClaimsInv(left + LeftBy(s, step), Next(s, step))
  {
    match step {
      case Deliver(delivery) =>
        HeldIdsOneMore(s.apps, Application(delivery, Arrived));
      case Advance(i, _) =>
        if i < |s.apps| {
          MoveKeepsClaims(left, s, step);
          MoveKeepsDistinctClaims(left, s, step);
        }
    }
  }

  /** At every point of every run the claims are those of before, those at work or answered, and those left behind. */
  lemma {:induction false} EveryRunKeepsClaims(start: Db, steps: seq<Step>)
    ensures ClaimsInv(start.claims.Keys + Orphaned(start, steps), Run(Start(start), steps))
  {
    if steps != [] {
      var before := steps[..|steps| - 1];
      var s := Run(Start(start), before);
      EveryRunKeepsClaims(start, before);
      EveryRunKeepsAppsInv(start, before);
      StepKeepsClaims(start.claims.Keys + Orphaned(start, before), s, steps[|steps| - 1]);
      assert start.claims.Keys + Orphaned(start, steps)
        == start.claims.Keys + Orphaned(start, before) + LeftBy(s, steps[|steps| - 1]);
    }
  }

  /**
   * Applied once: whatever interleaves, repeats or fails, no two deliveries of
   * one event end in an outcome of their own, and the id of one that did stays
   * claimed.
   */
  lemma AnEventIsAppliedOnce(start: Db, steps: seq<Step>, i: nat, j: nat)
    requires var s := Run(Start(start), steps);
      && i < |s.apps| && s.apps[i].phase.Finished? && s.apps[i].phase.outcome != Duplicate
      && j < |s.apps| && s.apps[j].delivery.id == s.apps[i].delivery.id
    ensures var s := Run(Start(start), steps);
      && s.apps[i].delivery.id in s.db.claims
      && (j != i && s.apps[j].phase.Finished? ==> s.apps[j].phase.outcome == Duplicate)
  {
    EveryRunKeepsClaims(start, steps);
    var s := Run(Start(start), steps);
    assert HasClaim(s.apps[i]) && s.apps[i].delivery.id in HeldIds(s.apps);
  }

  /** Who is at work on an event works alone. */
  lemma AtMostOneWorksOnAnEvent(start: Db, steps: seq<Step>, i: nat, j: nat)
    requires var s := Run(Start(start), steps);
      && i < j < |s.apps| && s.apps[i].delivery.id == s.apps[j].delivery.id
    ensures var s := Run(Start(start), steps); !HasClaim(s.apps[i]) || !HasClaim(s.apps[j])
  {
    EveryRunKeepsClaims(start, steps);
  }

  /**
   * The id of a failed delivery is claimed exactly when it was claimed before
   * the run, when some delivery of it left its claim behind, or when another
   * delivery of it is at work or has answered.
   */
  lemma FailureLeavesTheClaimIff(start: Db, steps: seq<Step>, i: nat)
    requires var s := Run(Start(start), steps); i < |s.apps| && s.apps[i].phase.Failed?
    ensures var s := Run(Start(start), steps);
      var id := s.apps[i].delivery.id;
      id in s.db.claims <==>
        || id in start.claims
        || id in Orphaned(start, steps)
        || exists j :: 0 <= j < |s.apps| && j != i && s.apps[j].delivery.id == id && HasClaim(s.apps[j])
  {
    EveryRunKeepsClaims(start, steps);
  }

  lemma WithoutAClaim(app: Application)
    requires !HasClaim(app)
    ensures app.phase.Finished? || app.phase.Failed? || app.phase.Arrived?
    ensures app.phase.Finished? ==> app.phase.outcome == Duplicate
  {
  }

  /** A claim left behind is never taken back, and every delivery of that event is swallowed or fails. */
  lemma AnOrphanedEventIsNeverApplied(start: Db, steps: seq<Step>, i: nat)
    requires var s := Run(Start(start), steps);
      i < |s.apps| && s.apps[i].delivery.id in start.claims.Keys + Orphaned(start, steps)
    ensures var s := Run(Start(start), steps);
      && s.apps[i].delivery.id in s.db.claims
      && (s.apps[i].phase.Finished? ==> s.apps[i].phase.outcome == Duplicate)
      && (s.apps[i].phase.Finished? || s.apps[i].phase.Failed? || s.apps[i].phase.Arrived?)
  {
    EveryRunKeepsClaims(start, steps);
    WithoutAClaim(Run(Start(start), steps).apps[i]);
  }

  /** It does happen: a claim that lands and throws, and the vendor's retry after it. */
  lemma ALandedClaimThatThrowsSwallowsTheRetry(start: Db, d: Delivery)
    requires d.id !in start.claims
    ensures var s := Run(Start(start),
        [Deliver(d), Advance(0, ThrowsLanded), Deliver(d), Advance(1, Replies)]);
      && s.apps == [Application(d, Failed), Application(d, Finished(Duplicate))]
      && s.db.rows == start.rows && s.db.control == start.control
  {
    var steps := [Deliver(d), Advance(0, ThrowsLanded), Deliver(d), Advance(1, Replies)];
    assert steps[..3][..2] == steps[..2] && steps[..2][..1] == steps[..1] && steps[..1][..0] == [];
    assert Run(Start(start), steps[..1]) == Next(Start(start), Deliver(d));
    assert Run(Start(start), steps[..2]) == Next(Run(Start(start), steps[..1]), steps[1]);
    assert Run(Start(start), steps[..3]) == Next(Run(Start(start), steps[..2]), steps[2]);
  }

  // -------------------------------------------------------------------------
  // What the dedupe table records.
  // -------------------------------------------------------------------------

  /** An event at work is recorded as applied, and an answered one as it was answered. */
  ghost predicate IsRecorded(db: Db, app: Application) {
    && (app.phase.Claimed? || app.phase.Owned? || app.phase.RowMoved? || app.phase.HasBrain? ==>
          app.delivery.id in db.claims && db.claims[app.delivery.id] == Applied)
    && (app.phase.Finished? && app.phase.outcome != Duplicate ==>
          app.delivery.id in db.claims && db.claims[app.delivery.id] == app.phase.outcome)
  }

  ghost predicate RecordsInv(s: System) {
    forall i :: 0 <= i < |s.apps| ==> IsRecorded(s.db, s.apps[i])
  }

  lemma OthersRecordsStay(db: Db, app: Application, reply: Reply, id: VendorId)
    requires id != app.delivery.id || (id in db.claims && !HasClaim(app))
    ensures var after := RunStatement(db, app, reply).0;
      id in db.claims ==> id in after.claims && after.claims[id] == db.claims[id]
  {
  }

  lemma OwnRecordIsKept(db: Db, app: Application, reply: Reply)
    requires IsRecorded(db, app) && (HasClaim(app) ==> app.delivery.id in db.claims)
    requires app.phase.Marking? ==> app.phase.mark != Duplicate
    ensures IsRecorded(RunStatement(db, app, reply).0, Application(app.delivery, RunStatement(db, app, reply).1))
  {
  }

  lemma StepKeepsRecords(left: set<VendorId>, s: System, step: Step)
    requires ClaimsInv(left, s) && AppsInv(s) && RecordsInv(s)
    ensures RecordsInv(Next(s, step))
  {
    if step.Advance? && step.i < |s.apps| {
      var app := s.apps[step.i];
      var next := Next(s, step);
      assert PhaseInv(s.db, s.ran, app);
      assert HasClaim(app) ==> app.delivery.id in HeldIds(s.apps);
      OwnRecordIsKept(s.db, app, step.reply);
      forall k | 0 <= k < |next.apps| && k != step.i ensures IsRecorded(next.db, next.apps[k]) {
        assert next.apps[k] == s.apps[k] && IsRecorded(s.db, s.apps[k]);
        if HasClaim(s.apps[k]) {
          assert s.apps[k].delivery.id in HeldIds(s.apps);
          OthersRecordsStay(s.db, app, step.reply, s.apps[k].delivery.id);
        }
      }
    } else if step.Deliver? {
      forall k | 0 <= k < |Next(s, step).apps| ensures IsRecorded(s.db, Next(s, step).apps[k]) {
        if k < |s.apps| {
          assert Next(s, step).apps[k] == s.apps[k];
        }
      }
    }
  }

  lemma {:induction false} EveryRunKeepsRecords(start: Db, steps: seq<Step>)
    ensures RecordsInv(Run(Start(start), steps))
  {
    if steps != [] {
      var before := steps[..|steps| - 1];
      EveryRunKeepsRecords(start, before);
      EveryRunKeepsClaims(start, before);
      EveryRunKeepsAppsInv(start, before);
      StepKeepsRecords(start.claims.Keys + Orphaned(start, before), Run(Start(start), before), steps[|steps| - 1]);
    }
  }

  /** In every run the dedupe table says of an event what its delivery was answered. */
  lemma TheTableSaysWhatWasAnswered(start: Db, steps: seq<Step>, i: nat)
    requires var s := Run(Start(start), steps);
      i < |s.apps| && s.apps[i].phase.Finished? && s.apps[i].phase.outcome != Duplicate
    ensures var s := Run(Start(start), steps);
      s.apps[i].delivery.id in s.db.claims && s.db.claims[s.apps[i].delivery.id] == s.apps[i].phase.outcome
  {
    EveryRunKeepsRecords(start, steps);
    assert IsRecorded(Run(Start(start), steps).db, Run(Start(start), steps).apps[i]);
  }
}
