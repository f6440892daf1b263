/**
 * When an order can be granted access twice. payment.failed moves an order that
 * already succeeded to failed, after which payment.captured is no longer a
 * repetition.
 */
module CommerceSecondGrant {
  import opened Common
  import opened CommerceTables
  import opened CommerceHandlers
  import opened CommerceSteps
  import opened CommerceEffects
  import opened CommerceInvariants
  import opened CommerceRuns

  /** The step is a payment.failed that finds order `o` already succeeded. */
  predicate FailsPaidOrder(t: Tables, s: Step, o: nat) {
    && s.Webhook? && s.ev.PaymentFailed?
    && Pick(t.orders, WithProviderOrder(s.ev.orderRef), s.plan.order) == Some(o)
    && t.orders[o].status == OrderStatus.Succeeded
  }

  ghost predicate QuietRun(t: Tables, steps: seq<Step>, o: nat) {
    forall i | 0 <= i < |steps| :: !FailsPaidOrder(Run(t, steps[..i]), steps[i], o)
  }

  /** Order `o` has no entitlement, or it has succeeded and has one. */
  ghost predicate GrantedOnce(t: Tables, o: nat) {
    var n := Count(t.entitlements, GrantedForOrder(o));
    n == 0 || (n == 1 && o < |t.orders| && t.orders[o].status == OrderStatus.Succeeded)
  }

  lemma GrantedOnceKept(t: Tables, s: Step, o: nat)
    requires Inv(t) && GrantedOnce(t, o) && !FailsPaidOrder(t, s, o)
    ensures GrantedOnce(After(t, s), o)
  {
    var t' := After(t, s);
    var g, h := Effects(t, s);
    GrantsCounted(t, t', g, o);
  }

  lemma {:induction false} QuietPrefix(t: Tables, steps: seq<Step>, o: nat)
    requires steps != [] && QuietRun(t, steps, o)
    ensures QuietRun(t, steps[..|steps| - 1], o)
    ensures !FailsPaidOrder(Run(t, steps[..|steps| - 1]), steps[|steps| - 1], o)
  {
    var init := steps[..|steps| - 1];
    forall i | 0 <= i < |init| ensures !FailsPaidOrder(Run(t, init[..i]), init[i], o) {
      assert init[..i] == steps[..i];
    }
  }

  lemma {:induction false} GrantedOnceHolds(t: Tables, steps: seq<Step>, o: nat)
    requires Inv(t) && GrantedOnce(t, o) && QuietRun(t, steps, o)
    ensures Inv(Run(t, steps)) && GrantedOnce(Run(t, steps), o)
  {
    if steps == [] {
    } else {
      QuietPrefix(t, steps, o);
      GrantedOnceHolds(t, steps[..|steps| - 1], o);
      InvKept(Run(t, steps[..|steps| - 1]), steps[|steps| - 1]);
      GrantedOnceKept(Run(t, steps[..|steps| - 1]), steps[|steps| - 1], o);
    }
  }

  /** Unless payment.failed arrives for the order after it succeeded, it never has two entitlements. */
  lemma AtMostOneEntitlement(steps: seq<Step>, t: Tables, o: nat)
    requires t == Run(EMPTY, steps) && QuietRun(EMPTY, steps, o)
    ensures Count(t.entitlements, GrantedForOrder(o)) <= 1
  {
    GrantedOnceHolds(EMPTY, steps, o);
  }

  lemma {:induction false} TwoCounted(rows: seq<Entitlement>, o: nat, a: nat, b: nat)
    requires a < b < |rows| && rows[a].order == Some(o) && rows[b].order == Some(o)
    ensures Count(rows, GrantedForOrder(o)) >= 2
  {
    var init := rows[..|rows| - 1];
    assert init[a] == rows[a];
    if b == |init| {
      CountPositive(init, GrantedForOrder(o));
    } else {
      assert init[b] == rows[b];
      TwoCounted(init, o, a, b);
    }
  }

  lemma OnlyOne(rows: seq<Entitlement>, o: nat, a: nat, b: nat)
    requires a < |rows| && b < |rows| && rows[a].order == Some(o) && rows[b].order == Some(o)
    requires Count(rows, GrantedForOrder(o)) <= 1
    ensures a == b
  {
    if a < b {
      TwoCounted(rows, o, a, b);
    } else if b < a {
      TwoCounted(rows, o, b, a);
    }
  }

  /**
   * In such runs, once the order's entitlement is revoked or expired nothing
   * makes any entitlement of that order active again.
   */
  lemma NoReturnOfAccess(steps: seq<Step>, more: seq<Step>, o: nat, e: nat, f: nat)
    requires QuietRun(EMPTY, steps + more, o)
    requires var t := Run(EMPTY, steps);
      e < |t.entitlements| && t.entitlements[e].order == Some(o) && t.entitlements[e].status != GrantStatus.Active
    requires var t' := Run(EMPTY, steps + more); f < |t'.entitlements| && t'.entitlements[f].order == Some(o)
    ensures Run(EMPTY, steps + more).entitlements[f].status != GrantStatus.Active
  {
    RunConcat(EMPTY, steps, more);
    EntitlementEndsForGood(Run(EMPTY, steps), more, e);
    AtMostOneEntitlement(steps + more, Run(EMPTY, steps + more), o);
    OnlyOne(Run(EMPTY, steps + more).entitlements, o, e, f);
  }

  /**
   * The exact condition, from any tables: a captured event grants the
   * order an entitlement, whether or not it has one already, if and only if the
   * order is not succeeded and its offer and course are still there.
   */
  lemma CaptureGrantsIff(t: Tables, ev: Event, plan: Plan, now: int, o: nat)
    requires ev.PaymentCaptured? && Pick(t.orders, WithProviderOrder(ev.orderRef), plan.order) == Some(o)
    ensures
      var grants := && t.orders[o].status != OrderStatus.Succeeded && t.orders[o].offer in t.offers
                    && t.offers[t.orders[o].offer].course in t.courses;
      Count(After(t, Webhook(ev, plan, now)).entitlements, GrantedForOrder(o))
      == Count(t.entitlements, GrantedForOrder(o)) + Unit(grants)
  {
    var g, h := Effects(t, Webhook(ev, plan, now));
    GrantsCounted(t, After(t, Webhook(ev, plan, now)), g, o);
  }

  function Grants(t: Tables, o: nat): nat {
    Count(t.entitlements, GrantedForOrder(o))
  }

  /** A step adds an entitlement for the order when it captures it, or is the free checkout that creates it. */
  lemma GrantsAdded(t: Tables, s: Step, o: nat)
    requires Inv(t)
    ensures Grants(t, o) <= Grants(After(t, s), o) <= Grants(t, o) + 1
    ensures CapturedOrder(t, s) == Some(o) ==> Grants(After(t, s), o) == Grants(t, o) + 1
    ensures Grants(After(t, s), o) > Grants(t, o) && CapturedOrder(t, s) != Some(o) ==> Grants(t, o) == 0
  {
    var g, h := Effects(t, s);
    GrantsCounted(t, After(t, s), g, o);
    if o >= |t.orders| {
      CountNone(t.entitlements, GrantedForOrder(o));
    }
  }

  lemma PaidHasGrantKept(t: Tables, s: Step, o: nat)
    requires Inv(t) && HasGrantWhenPaid(t, o)
    ensures HasGrantWhenPaid(After(t, s), o)
  {
    var g, h := Effects(t, s);
    PaidMeansGiven(t, After(t, s), g, h, o);
  }

  lemma PaidMeansGiven(t: Tables, t': Tables, g: GrantEffect, h: OrderEffect, o: nat)
    requires Changed(t, t', g, h) && HasGrantWhenPaid(t, o)
    ensures HasGrantWhenPaid(t', o)
  {
    GrantsCounted(t, t', g, o);
    if o < |t'.orders| && t'.orders[o].status == OrderStatus.Succeeded && Grants(t, o) == 0 {
      assert PaidFor(t, h) == Some(o);
    }
  }

  ghost predicate HasGrantWhenPaid(t: Tables, o: nat) {
    o < |t.orders| && t.orders[o].status == OrderStatus.Succeeded ==> Grants(t, o) >= 1
  }

  lemma {:induction false} PaidHasGrant(steps: seq<Step>, o: nat)
    ensures HasGrantWhenPaid(Run(EMPTY, steps), o)
  {
    if steps == [] {
    } else {
      PaidHasGrant(steps[..|steps| - 1], o);
      InvHolds(steps[..|steps| - 1]);
      PaidHasGrantKept(Run(EMPTY, steps[..|steps| - 1]), steps[|steps| - 1], o);
    }
  }

  lemma {:induction false} GrantsGrow(steps: seq<Step>, k: nat, o: nat)
    requires k <= |steps|
    ensures Grants(Run(EMPTY, steps[..k]), o) <= Grants(Run(EMPTY, steps), o)
  {
    if k < |steps| {
      var init := steps[..|steps| - 1];
      GrantsGrow(init, k, o);
      assert init[..k] == steps[..k];
      InvHolds(init);
      GrantsAdded(Run(EMPTY, init), steps[|steps| - 1], o);
    } else {
      assert steps[..k] == steps;
    }
  }

  /** At step `i` payment.failed finds the order succeeded, and step `j`, a later one, captures it. */
  ghost predicate FailedThenCaptured(steps: seq<Step>, i: nat, j: nat, o: nat) {
    && i < j < |steps|
    && FailsPaidOrder(Run(EMPTY, steps[..i]), steps[i], o)
    && CapturedOrder(Run(EMPTY, steps[..j]), steps[j]) == Some(o)
  }

  lemma NextState(steps: seq<Step>, j: nat)
    requires j < |steps|
    ensures Run(EMPTY, steps[..j + 1]) == After(Run(EMPTY, steps[..j]), steps[j])
  {
    assert steps[..j + 1][..j] == steps[..j];
  }

  lemma GrantsAfterCapture(steps: seq<Step>, t: Tables, j: nat, o: nat)
    requires j < |steps| && t == Run(EMPTY, steps[..j]) && CapturedOrder(t, steps[j]) == Some(o)
    ensures Grants(Run(EMPTY, steps), o) > Grants(t, o)
  {
    InvHolds(steps[..j]);
    GrantsAdded(t, steps[j], o);
    NextState(steps, j);
    GrantsGrow(steps, j + 1, o);
  }

  /** The step that grants a second time captures an order that had succeeded before and has not now. */
  lemma SecondGrantStep(t: Tables, s: Step, o: nat)
    requires Inv(t) && Grants(t, o) <= 1 && Grants(After(t, s), o) > 1
    ensures CapturedOrder(t, s) == Some(o) && !GrantedOnce(t, o)
  {
    GrantsAdded(t, s, o);
  }

  lemma FailedEarlier(steps: seq<Step>, init: seq<Step>, i: nat, j: nat, o: nat)
    requires init <= steps && FailedThenCaptured(init, i, j, o)
    ensures FailedThenCaptured(steps, i, j, o)
  {
    assert steps[..i] == init[..i] && steps[..j] == init[..j];
  }

  lemma FailedBefore(steps: seq<Step>, init: seq<Step>, t0: Tables, o: nat) returns (i: nat)
    requires |steps| == |init| + 1 && init <= steps && t0 == Run(EMPTY, init)
    requires Grants(t0, o) <= 1 && Grants(After(t0, steps[|init|]), o) > 1
    ensures FailedThenCaptured(steps, i, |init|, o)
  {
    InvHolds(init);
    SecondGrantStep(t0, steps[|init|], o);
    i := NotQuiet(init, t0, o);
    assert steps[..i] == init[..i] && steps[..|init|] == init;
  }

  lemma NoGrantsAtFirst(o: nat)
    ensures Grants(EMPTY, o) == 0
  {
  }

  lemma {:induction false} SecondGrantNeedsFailure(steps: seq<Step>, t: Tables, o: nat) returns (i: nat, j: nat)
    requires t == Run(EMPTY, steps) && Grants(t, o) > 1
    ensures FailedThenCaptured(steps, i, j, o)
  {
    if steps == [] {
      NoGrantsAtFirst(o);
      assert false;
    }
    var init := steps[..|steps| - 1];
    var t0 := Run(EMPTY, init);
    if Grants(t0, o) > 1 {
      i, j := SecondGrantNeedsFailure(init, t0, o);
      FailedEarlier(steps, init, i, j, o);
    } else {
      j := |init|;
      i := FailedBefore(steps, init, t0, o);
    }
  }

  lemma NotQuiet(steps: seq<Step>, t: Tables, o: nat) returns (i: nat)
    requires t == Run(EMPTY, steps) && !GrantedOnce(t, o)
    ensures i < |steps| && FailsPaidOrder(Run(EMPTY, steps[..i]), steps[i], o)
  {
    if QuietRun(EMPTY, steps, o) {
      GrantedOnceHolds(EMPTY, steps, o);
      assert false;
    }
    i :| 0 <= i < |steps| && FailsPaidOrder(Run(EMPTY, steps[..i]), steps[i], o);
  }

  lemma FailureThenCaptureGrants(steps: seq<Step>, i: nat, j: nat, o: nat)
    requires FailedThenCaptured(steps, i, j, o)
    ensures Grants(Run(EMPTY, steps), o) > 1
  {
    var paid, t := Run(EMPTY, steps[..i]), Run(EMPTY, steps[..j]);
    PaidHasGrant(steps[..i], o);
    assert Grants(paid, o) >= 1;
    assert steps[..j][..i] == steps[..i];
    GrantsGrow(steps[..j], i, o);
    GrantsAfterCapture(steps, t, j, o);
  }

  /**
   * So an order comes to have more than one entitlement in exactly the runs in
   * which payment.failed finds it succeeded and a later event captures it.
   */
  lemma SecondGrantIff(steps: seq<Step>, t: Tables, o: nat)
    requires t == Run(EMPTY, steps)
    ensures Grants(t, o) > 1 <==> exists i: nat, j: nat :: FailedThenCaptured(steps, i, j, o)
  {
    if Grants(t, o) > 1 {
      var i, j := SecondGrantNeedsFailure(steps, t, o);
    }
    forall i: nat, j: nat | FailedThenCaptured(steps, i, j, o) ensures Grants(t, o) > 1 {
      FailureThenCaptureGrants(steps, i, j, o);
    }
  }

  /** Whenever an order has succeeded, a late payment.failed and another capture grant it once more. */
  lemma FailThenCaptureGrantsAgain(t: Tables, o: nat, orderRef: string, paymentRef: string, plan: Plan, now: int)
    requires Inv(t) && o < |t.orders| && t.orders[o].providerOrder == Some(orderRef) && plan.order == o
    requires t.orders[o].status == OrderStatus.Succeeded
    requires t.orders[o].offer in t.offers && t.offers[t.orders[o].offer].course in t.courses
    ensures var failed := After(t, Webhook(PaymentFailed(orderRef, paymentRef), plan, now));
      var again := After(failed, Webhook(PaymentCaptured(orderRef, paymentRef), plan, now));
      && FailsPaidOrder(t, Webhook(PaymentFailed(orderRef, paymentRef), plan, now), o)
      && Count(again.entitlements, GrantedForOrder(o)) == Count(t.entitlements, GrantedForOrder(o)) + 1
  {
    var failed := After(t, Webhook(PaymentFailed(orderRef, paymentRef), plan, now));
    var captured := Webhook(PaymentCaptured(orderRef, paymentRef), plan, now);
    assert failed == Fail(t, o, paymentRef);
    assert WithProviderOrder(orderRef)(failed.orders[o]);
    var g, h := Effects(failed, captured);
    GrantsCounted(failed, After(failed, captured), g, o);
  }

  /** Such orders are reachable: three steps put one into the tables. */
  lemma PaidOrderReachable(orderRef: string, paymentRef: string, plan: Plan) returns (steps: seq<Step>)
    requires plan.order == 0
    ensures var t := Run(EMPTY, steps);
      && Inv(t) && |t.orders| == 1 && t.orders[0] == Order(0, 0, OrderStatus.Succeeded, Some(orderRef), None, 0)
      && t.offers == map[0 := Offer(0, Paid, None)] && 0 in t.courses
      && Count(t.entitlements, GrantedForOrder(0)) == 1
      && t.payments == [Payment(0, Some(paymentRef), PaymentStatus.Succeeded)] && t.refunds == []
  {
    var catalogue := EditCatalogue(map[0 := Offer(0, Paid, None)], map[0 := "course"], map[]);
    var checkout := Checkout(0, 0, None, 0, Some(orderRef), PaymentInitiated);
    var captured := Webhook(PaymentCaptured(orderRef, paymentRef), plan, 0);
    steps := [catalogue, checkout, captured];
    var t2 := After(After(EMPTY, catalogue), checkout);
    assert steps[..2] == [catalogue, checkout] && [catalogue, checkout][..1] == [catalogue] && [catalogue][..0] == [];
    assert Run(EMPTY, [catalogue]) == After(EMPTY, catalogue);
    assert Run(EMPTY, [catalogue, checkout]) == t2;
    assert t2.orders == [Order(0, 0, PaymentInitiated, Some(orderRef), None, 0)];
    assert WithProviderOrder(orderRef)(t2.orders[0]);
    InvHolds(steps);
    assert GrantedForOrder(0)(Run(EMPTY, steps).entitlements[0]);
    assert Run(EMPTY, steps).entitlements[..0] == [];
  }
}
