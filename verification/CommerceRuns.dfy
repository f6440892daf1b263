/** Properties of every run of the commerce tables. */
module CommerceRuns {
  import opened Common
  import opened CommerceTables
  import opened CommerceSteps
  import opened CommerceEffects
  import opened CommerceInvariants

  // ----- Access -----

  /** In every reachable state, access that rests on an entitlement rests on an active one of that learner and course. */
  lemma ActiveAccessIsEntitled(t: Tables, learner: nat, course: nat)
    requires Reachable(t) && HasAccess(t, (learner, course)) && t.access[(learner, course)].entitlement.Some?
    ensures
      var e := t.access[(learner, course)].entitlement.value;
      && e < |t.entitlements|
      && t.entitlements[e].status == GrantStatus.Active
      && t.entitlements[e].learner == learner && t.entitlements[e].course == course
  {
    ReachableInv(t);
  }

  ghost predicate HasAccess(t: Tables, key: (nat, nat)) {
    key in t.access && t.access[key].status == GrantStatus.Active
  }

  /** `e` is an entitlement of this learner and course that the step from `t` to `t'` ends. */
  ghost predicate Ends(t: Tables, t': Tables, e: nat, key: (nat, nat)) {
    && e < |t.entitlements| && e < |t'.entitlements|
    && t.entitlements[e].status == GrantStatus.Active && t'.entitlements[e].status != GrantStatus.Active
    && (t.entitlements[e].learner, t.entitlements[e].course) == key
  }

  /** Access is lost only when a refund, a lost dispute or an expiry ends an entitlement of that learner and course. */
  lemma AccessLost(t: Tables, s: Step, key: (nat, nat)) returns (e: nat)
    requires HasAccess(t, key) && !HasAccess(After(t, s), key)
    ensures TakesAccess(s) && Ends(t, After(t, s), e, key)
  {
    var g, h := Effects(t, s);
    e := g.e;
  }

  lemma {:induction false} AccessLostInRun(t: Tables, steps: seq<Step>, key: (nat, nat)) returns (i: nat, e: nat)
    requires HasAccess(t, key) && !HasAccess(Run(t, steps), key)
    ensures i < |steps| && TakesAccess(steps[i])
    ensures Ends(Run(t, steps[..i]), After(Run(t, steps[..i]), steps[i]), e, key)
  {
    var last := |steps| - 1;
    if HasAccess(Run(t, steps[..last]), key) {
      i := last;
      e := AccessLost(Run(t, steps[..last]), steps[last], key);
    } else {
      i, e := AccessLostInRun(t, steps[..last], key);
      assert steps[..last][..i] == steps[..i];
    }
  }

  /** Everything else a worker does leaves entitlements, access and audit events alone. */
  lemma GrantsUntouched(t: Tables, s: Step)
    requires s.Abandon? || (s.Webhook? && !s.ev.PaymentCaptured? && !TakesAccess(s))
    ensures After(t, s).entitlements == t.entitlements
    ensures After(t, s).access == t.access
    ensures After(t, s).audit == t.audit
  {
    var g, h := Effects(t, s);
  }

  // ----- Orders and payments -----

  ghost predicate HasPayment(t: Tables, o: nat, status: PaymentStatus) {
    exists p :: 0 <= p < |t.payments| && t.payments[p].order == o && t.payments[p].status == status
  }

  /** An order has at most one payment row, and that row says whether the order succeeded or failed. */
  lemma PaymentRowDecides(t: Tables, o: nat)
    requires Reachable(t) && o < |t.orders|
    ensures forall p, q | 0 <= p < |t.payments| && 0 <= q < |t.payments| ::
              t.payments[p].order == o && t.payments[q].order == o ==> p == q
    ensures t.orders[o].providerOrder.Some? ==>
            && (t.orders[o].status == OrderStatus.Succeeded <==> HasPayment(t, o, PaymentStatus.Succeeded))
            && (t.orders[o].status == OrderStatus.Failed <==> HasPayment(t, o, PaymentStatus.Failed))
    ensures IsOpen(t.orders[o].status) || t.orders[o].status == Abandoned || t.orders[o].providerOrder.None? ==>
              forall p | 0 <= p < |t.payments| :: t.payments[p].order != o
  {
    ReachableInv(t);
    SettledMeans(t, o);
  }

  lemma SettledMeans(t: Tables, o: nat)
    requires WellFormed(t) && Settled(t) && o < |t.orders|
    ensures forall p, q | 0 <= p < |t.payments| && 0 <= q < |t.payments| ::
              t.payments[p].order == o && t.payments[q].order == o ==> p == q
    ensures t.orders[o].providerOrder.Some? ==>
            && (t.orders[o].status == OrderStatus.Succeeded <==> HasPayment(t, o, PaymentStatus.Succeeded))
            && (t.orders[o].status == OrderStatus.Failed <==> HasPayment(t, o, PaymentStatus.Failed))
    ensures IsOpen(t.orders[o].status) || t.orders[o].status == Abandoned || t.orders[o].providerOrder.None? ==>
              forall p | 0 <= p < |t.payments| :: t.payments[p].order != o
  {
    assert OrderSettled(t, o);
    var row := Latest(t.payments, OfOrder(o));
    if row.Some? {
      assert OfOrder(o)(t.payments[row.value]);
    } else {
      assert forall p | 0 <= p < |t.payments| :: !OfOrder(o)(t.payments[p]);
    }
  }

  /**
   * The moves an order's status can make. Nothing is absorbing but in one respect:
   * no order is ever open again, and only an open one is abandoned.
   */
  lemma OrderMoves(t: Tables, s: Step, o: nat)
    requires o < |t.orders|
    ensures o < |After(t, s).orders|
    ensures var was, now := t.orders[o], After(t, s).orders[o];
      && now == was.(status := now.status)
      && (now.status != was.status ==>
            || (now.status == OrderStatus.Succeeded && s.Webhook? && s.ev.PaymentCaptured? && was.providerOrder.Some?)
            || (now.status == OrderStatus.Failed && s.Webhook? && s.ev.PaymentFailed? && was.providerOrder.Some?)
            || (now.status == Abandoned && s == Abandon(o) && IsOpen(was.status)))
  {
    var g, h := Effects(t, s);
  }

  /**
   * Reads an order's history off the payment audit trail: each row must start
   * from the status the previous one left.
   */
  function Replay(start: OrderStatus, ledger: seq<LedgerRow>, o: nat): Option<OrderStatus> {
    if ledger == [] then Some(start)
    else
      var sofar := Replay(start, ledger[..|ledger| - 1], o);
      var row := ledger[|ledger| - 1];
      if row.order != Some(o) || !IsLifecycle(row) then sofar
      else if sofar.Some? && row.before == Some(OrderState(sofar.value)) && row.after.OrderState?
        then Some(row.after.order)
      else None
  }

  lemma ReplayAppend(start: OrderStatus, ledger: seq<LedgerRow>, row: LedgerRow, o: nat)
    ensures row.order != Some(o) || !IsLifecycle(row) ==> Replay(start, ledger + [row], o) == Replay(start, ledger, o)
    ensures row.order == Some(o) && IsLifecycle(row) && row.after.OrderState?
            && Replay(start, ledger, o).Some? && row.before == Some(OrderState(Replay(start, ledger, o).value)) ==>
              Replay(start, ledger + [row], o) == Some(row.after.order)
  {
    assert (ledger + [row])[..|ledger|] == ledger;
  }

  lemma {:induction false} ReplayNothing(start: OrderStatus, ledger: seq<LedgerRow>, o: nat)
    requires forall i | 0 <= i < |ledger| :: ledger[i].order != Some(o)
    ensures Replay(start, ledger, o) == Some(start)
  {
    if ledger == [] {
    } else {
      ReplayNothing(start, ledger[..|ledger| - 1], o);
    }
  }

  lemma ReplayKept(t: Tables, t': Tables, h: OrderEffect, start: OrderStatus, o: nat)
    requires OrderEffected(t, t', h) && o < |t.orders|
    requires Replay(start, t.ledger, o) == Some(t.orders[o].status)
    ensures o < |t'.orders| && Replay(start, t'.ledger, o) == Some(t'.orders[o].status)
  {
    if |t'.ledger| == |t.ledger| {
      assert t'.ledger == t.ledger;
    } else {
      var row := t'.ledger[|t.ledger|];
      assert t'.ledger == t.ledger + [row];
      ReplayAppend(start, t.ledger, row, o);
    }
  }

  /** `born` is the length of the run just after which order `o` exists. */
  ghost predicate Born(steps: seq<Step>, born: nat, o: nat) {
    && 0 < born <= |steps|
    && |Run(EMPTY, steps[..born - 1]).orders| == o
    && |Run(EMPTY, steps[..born]).orders| == o + 1
  }

  /** Replaying an order's rows from the status checkout gave it yields the status it has now. */
  lemma {:induction false} ReplayGivesStatus(steps: seq<Step>, o: nat) returns (born: nat)
    requires o < |Run(EMPTY, steps).orders|
    ensures Born(steps, born, o)
    ensures Replay(Run(EMPTY, steps[..born]).orders[o].status, Run(EMPTY, steps).ledger, o)
         == Some(Run(EMPTY, steps).orders[o].status)
  {
    var last := |steps| - 1;
    var t := Run(EMPTY, steps[..last]);
    InvHolds(steps[..last]);
    var g, h := Effects(t, steps[last]);
    if o < |t.orders| {
      born := ReplayGivesStatus(steps[..last], o);
      assert steps[..last][..born] == steps[..born] && steps[..last][..born - 1] == steps[..born - 1];
      ReplayKept(t, Run(EMPTY, steps), h, Run(EMPTY, steps[..born]).orders[o].status, o);
    } else {
      born := |steps|;
      assert steps[..born] == steps;
      ReplayNothing(Run(EMPTY, steps).orders[o].status, t.ledger, o);
    }
  }

  // ----- Conservation -----

  /** Active entitlements are grants less revocations less expiries, counted over the whole history. */
  lemma EntitlementsConserved(t: Tables)
    requires Reachable(t)
    ensures
      Count(t.entitlements, ActiveRows())
      == Count(t.audit, ActionRows(Granted)) + Count(t.audit, ActionRows(AdminGrant)) + Count(t.orders, FreeOrders())
         - Count(t.audit, ActionRows(AuditAction.Revoked)) - Count(t.audit, ActionRows(AuditAction.Expired))
  {
    ReachableInv(t);
  }

  /** The provider's orders have exactly one entitlement per payment.captured row. */
  lemma OneEntitlementPerCapture(t: Tables, o: nat)
    requires Reachable(t) && o < |t.orders| && t.orders[o].providerOrder.Some?
    ensures Count(t.entitlements, GrantedForOrder(o)) == Count(t.ledger, CaptureRows(o))
  {
    ReachableInv(t);
    assert OrderMatched(t, o);
  }

  /** An entitlement keeps whose it is, and once it is not active it stays as it is. */
  lemma EntitlementFixed(t: Tables, s: Step, e: nat)
    requires e < |t.entitlements|
    ensures e < |After(t, s).entitlements|
    ensures var was, now := t.entitlements[e], After(t, s).entitlements[e];
      && now == was.(status := now.status)
      && (was.status != GrantStatus.Active ==> now == was)
  {
    var g, h := Effects(t, s);
  }

  lemma {:induction false} EntitlementEndsForGood(t: Tables, steps: seq<Step>, e: nat)
    requires e < |t.entitlements|
    ensures e < |Run(t, steps).entitlements|
    ensures var was, now := t.entitlements[e], Run(t, steps).entitlements[e];
      && now == was.(status := now.status)
      && (was.status != GrantStatus.Active ==> now == was)
  {
    if steps == [] {
    } else {
      EntitlementEndsForGood(t, steps[..|steps| - 1], e);
      EntitlementFixed(Run(t, steps[..|steps| - 1]), steps[|steps| - 1], e);
    }
  }

  /** The audit log holds at most one end of each entitlement, and exactly one when it is not active. */
  lemma EntitlementLeavesActiveOnce(t: Tables, e: nat)
    requires Reachable(t) && e < |t.entitlements|
    ensures Count(t.audit, EndRows(e, AuditAction.Revoked)) + Count(t.audit, EndRows(e, AuditAction.Expired))
         == Unit(t.entitlements[e].status != GrantStatus.Active)
  {
    ReachableInv(t);
    assert EndLogged(t, e);
  }
}
