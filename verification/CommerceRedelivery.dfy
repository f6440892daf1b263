/**
 * Handling an event a second time right after its transaction committed, which
 * is what happens when the worker stops before marking the event processed.
 */
module CommerceRedelivery {
  import opened Common
  import opened CommerceTables
  import opened CommerceHandlers
  import opened CommerceSteps
  import opened CommerceEffects
  import opened CommerceInvariants
  import opened CommerceSecondGrant

  /** The second handling commits, changes no table and owes no receipt. */
  predicate Harmless(t: Tables, ev: Event, first: Plan, now: int, second: Plan, later: int) {
    var r := Handle(t, ev, first, now);
    r.Committed? ==> Handle(r.tables, ev, second, later) == Committed(r.tables, None)
  }

  /** A row that matched still matches after it, or rows after it, changed; so the same plan picks it again. */
  lemma {:induction false} FirstAgain<T>(rows: seq<T>, after: seq<T>, wanted: T -> bool, i: nat)
    requires First(rows, wanted) == Some(i)
    requires |rows| <= |after| && (forall j | 0 <= j < i :: wanted(after[j]) == wanted(rows[j])) && wanted(after[i])
    ensures First(after, wanted) == Some(i)
  {
    if |after| - 1 > i {
      if |rows| == |after| {
        FirstAgain(rows[..|rows| - 1], after[..|after| - 1], wanted, i);
      } else {
        FirstAgain(rows, after[..|after| - 1], wanted, i);
      }
    }
  }

  lemma PickAgain<T>(rows: seq<T>, after: seq<T>, wanted: T -> bool, plan: nat)
    requires |rows| <= |after| <= |rows| + 1
    requires forall j | 0 <= j < |rows| :: wanted(after[j]) == wanted(rows[j])
    requires |after| == |rows| + 1 ==> wanted(after[|rows|])
    ensures Pick(rows, wanted, plan).Some? && plan != |rows| ==> Pick(after, wanted, plan) == Pick(rows, wanted, plan)
    ensures |after| == |rows| + 1 && Pick(rows, wanted, plan).None? ==> Pick(after, wanted, plan) == Some(|rows|)
  {
    if First(rows, wanted).Some? {
      FirstAgain(rows, after, wanted, First(rows, wanted).value);
    }
  }

  lemma LatestAfterAppend(rows: seq<Chargeback>, row: Chargeback, p: nat)
    requires row.payment == p
    ensures Latest(rows + [row], AgainstPayment(p)) == Some(|rows|)
  {
    LatestAppend(rows, row, AgainstPayment(p));
  }

  lemma LatestAfterUpdate(rows: seq<Chargeback>, c: nat, status: ChargebackStatus, p: nat)
    requires Latest(rows, AgainstPayment(p)) == Some(c)
    ensures Latest(rows[c := rows[c].(status := status)], AgainstPayment(p)) == Some(c)
  {
    LatestUpdate(rows, c, rows[c].(status := status), AgainstPayment(p));
  }

  /** The order that was handled is found again, in the state the event brings. */
  lemma CapturedHarmless(t: Tables, ev: Event, plan: Plan, now: int, later: int)
    requires ev.PaymentCaptured?
    ensures Harmless(t, ev, plan, now, plan, later)
  {
    var r := Captured(t, ev.orderRef, ev.paymentRef, plan, now);
    if r.Committed? {
      PickAgain(t.orders, r.tables.orders, WithProviderOrder(ev.orderRef), plan.order);
    }
  }

  lemma FailedHarmless(t: Tables, ev: Event, plan: Plan, now: int, later: int)
    requires ev.PaymentFailed?
    ensures Harmless(t, ev, plan, now, plan, later)
  {
    var r := FailedPayment(t, ev.orderRef, ev.paymentRef, plan);
    if r.Committed? {
      PickAgain(t.orders, r.tables.orders, WithProviderOrder(ev.orderRef), plan.order);
    }
  }

  lemma RevokeKeeps(t: Tables, payment: Payment, cause: LedgerEvent, plan: Plan)
    ensures var t' := RevokeFor(t, payment, cause, plan);
      t'.payments == t.payments && t'.refunds == t.refunds && t'.chargebacks == t.chargebacks
  {
  }

  lemma RefundProcessedHarmless(t: Tables, ev: Event, plan: Plan, now: int, later: int)
    requires ev.RefundProcessed?
    ensures Harmless(t, ev, plan, now, plan, later)
  {
    var r := Handle(t, ev, plan, now);
    if r.Committed? {
      RefundedTables(t, ev, plan, now);
      PickAgain(t.refunds, r.tables.refunds, WithProviderRefund(ev.refundRef), plan.refund);
    }
  }

  lemma RefundFailedHarmless(t: Tables, ev: Event, plan: Plan, now: int, later: int)
    requires ev.RefundFailed?
    ensures Harmless(t, ev, plan, now, plan, later)
  {
    PickAgain(t.refunds, Handle(t, ev, plan, now).tables.refunds, WithProviderRefund(ev.refundRef), plan.refund);
  }

  lemma DisputeCreatedHarmless(t: Tables, ev: Event, first: Plan, second: Plan, now: int, later: int)
    requires ev.DisputeCreated?
    requires Pick(t.payments, WithProviderPayment(ev.paymentRef), first.payment)
          == Pick(t.payments, WithProviderPayment(ev.paymentRef), second.payment)
    ensures Harmless(t, ev, first, now, second, later)
  {
    var found := Pick(t.payments, WithProviderPayment(ev.paymentRef), first.payment);
    if found.Some? {
      LatestAfterAppend(t.chargebacks, Chargeback(found.value, ChargebackStatus.Pending, MinorToMajor(ev.amount),
                                                  Some(ev.reason)), found.value);
    }
  }

  lemma DisputeResolvedTables(t: Tables, ref: string, amount: int, reason: string, final: ChargebackStatus, plan: Plan)
    requires ResolvedDispute(t, ref, amount, reason, final, plan).Committed?
    ensures
      var found, t' := Pick(t.payments, WithProviderPayment(ref), plan.payment),
                       ResolvedDispute(t, ref, amount, reason, final, plan).tables;
      found.Some? && t'.payments == t.payments && DisputeStatus(t'.chargebacks, found.value) == final
  {
    var p := Pick(t.payments, WithProviderPayment(ref), plan.payment).value;
    RevokeKeeps(t, t.payments[p], DisputeLostEvent, plan);
    ResolvedStatus(t.chargebacks, p, amount, reason, final);
  }

  lemma DisputeResolvedHarmless(t: Tables, ev: Event, first: Plan, second: Plan, now: int, later: int)
    requires ev.DisputeWon? || ev.DisputeLost?
    requires Pick(t.payments, WithProviderPayment(ev.paymentRef), first.payment)
          == Pick(t.payments, WithProviderPayment(ev.paymentRef), second.payment)
    ensures Harmless(t, ev, first, now, second, later)
  {
    if Handle(t, ev, first, now).Committed? {
      DisputeResolvedTables(t, ev.paymentRef, ev.amount, ev.reason, if ev.DisputeLost? then Lost else Won, first);
    }
  }

  lemma DisputeHarmless(t: Tables, ev: Event, first: Plan, second: Plan, now: int, later: int)
    requires ev.DisputeCreated? || ev.DisputeWon? || ev.DisputeLost?
    requires Pick(t.payments, WithProviderPayment(ev.paymentRef), first.payment)
          == Pick(t.payments, WithProviderPayment(ev.paymentRef), second.payment)
    ensures Harmless(t, ev, first, now, second, later)
  {
    if ev.DisputeCreated? {
      DisputeCreatedHarmless(t, ev, first, second, now, later);
    } else {
      DisputeResolvedHarmless(t, ev, first, second, now, later);
    }
  }

  lemma ResolvedStatus(rows: seq<Chargeback>, p: nat, amount: int, reason: string, final: ChargebackStatus)
    ensures DisputeStatus(ResolveChargeback(rows, p, amount, reason, final), p) == final
  {
    match Latest(rows, AgainstPayment(p)) {
      case None => LatestAfterAppend(rows, Chargeback(p, final, MinorToMajor(amount), Some(reason)), p);
      case Some(c) => LatestAfterUpdate(rows, c, final, p);
    }
  }

  /** From any tables at all, as long as the lookups return the same rows the second time. */
  lemma RedeliveryHarmless(t: Tables, ev: Event, plan: Plan, now: int, later: int)
    ensures Harmless(t, ev, plan, now, plan, later)
  {
    match ev {
      case PaymentCaptured(_, _) => CapturedHarmless(t, ev, plan, now, later);
      case PaymentFailed(_, _) => FailedHarmless(t, ev, plan, now, later);
      case RefundProcessed(_, _, _) => RefundProcessedHarmless(t, ev, plan, now, later);
      case RefundFailed(_) => RefundFailedHarmless(t, ev, plan, now, later);
      case DisputeCreated(_, _, _) => DisputeHarmless(t, ev, plan, plan, now, later);
      case DisputeWon(_, _, _) => DisputeHarmless(t, ev, plan, plan, now, later);
      case DisputeLost(_, _, _) => DisputeHarmless(t, ev, plan, plan, now, later);
      case EntityMissing =>
      case Unrecognized =>
    }
  }

  // ----- Whichever rows the second lookups return -----

  ghost predicate AtMostOne<T>(rows: seq<T>, wanted: T -> bool) {
    forall i, j | 0 <= i < |rows| && 0 <= j < |rows| :: wanted(rows[i]) && wanted(rows[j]) ==> i == j
  }

  lemma PickOnly<T>(rows: seq<T>, wanted: T -> bool, first: nat, second: nat)
    requires AtMostOne(rows, wanted)
    ensures Pick(rows, wanted, first) == Pick(rows, wanted, second)
  {
  }

  /** With `second` in place of `first` the same rows come back, so the repetition is the same-plan one. */
  lemma SamePick(t: Tables, ev: Event, first: Plan, second: Plan, now: int, later: int)
    requires ev.PaymentCaptured? || ev.PaymentFailed? || ev.RefundFailed?
    requires ev.RefundFailed? ==>
               Pick(t.refunds, WithProviderRefund(ev.refundRef), first.refund)
               == Pick(t.refunds, WithProviderRefund(ev.refundRef), second.refund)
    requires !ev.RefundFailed? ==>
               Pick(t.orders, WithProviderOrder(ev.orderRef), first.order)
               == Pick(t.orders, WithProviderOrder(ev.orderRef), second.order)
    ensures Harmless(t, ev, first, now, second, later)
  {
    assert Handle(t, ev, first, now) == Handle(t, ev, second, now);
    RedeliveryHarmless(t, ev, second, now, later);
  }

  /** Another refund row than the one handled carries the same provider id and has not succeeded. */
  ghost predicate RefundTwinLeft(t: Tables, refundRef: string, plan: Plan) {
    exists i :: 0 <= i < |t.refunds| && WithProviderRefund(refundRef)(t.refunds[i])
      && Pick(t.refunds, WithProviderRefund(refundRef), plan.refund) != Some(i)
      && t.refunds[i].status != RefundStatus.Succeeded
  }

  /** How a second refund.processed behaves on the tables the first one left. */
  lemma RefundAgain(t: Tables, ev: Event, first: Plan, now: int, second: Plan, later: int)
    requires ev.RefundProcessed? && Handle(t, ev, first, now).Committed?
    ensures var t' := Handle(t, ev, first, now).tables;
      && t'.payments == t.payments && |t'.ledger| >= |t.ledger|
      && var r := Pick(t'.refunds, WithProviderRefund(ev.refundRef), second.refund);
         && r.Some?
         && (t'.refunds[r.value].status == RefundStatus.Succeeded <==>
               Handle(t', ev, second, later) == Committed(t', None))
  {
    var t' := Handle(t, ev, first, now).tables;
    var p := Pick(t.payments, WithProviderPayment(ev.paymentRef), first.payment).value;
    RevokeKeeps(t, t.payments[p], RefundProcessedEvent, first);
    RefundedTables(t, ev, first, now);
    var q := Pick(t'.payments, WithProviderPayment(ev.paymentRef), second.payment).value;
    var r := Pick(t'.refunds, WithProviderRefund(ev.refundRef), second.refund);
    var r0 := Pick(t.refunds, WithProviderRefund(ev.refundRef), first.refund);
    assert WithProviderRefund(ev.refundRef)(t'.refunds[if r0.Some? then r0.value else |t.refunds|]);
    if t'.refunds[r.value].status != RefundStatus.Succeeded {
      assert |Handle(t', ev, second, later).tables.ledger| == |t'.ledger| + 1;
    }
  }

  lemma RefundedTables(t: Tables, ev: Event, first: Plan, now: int)
    requires ev.RefundProcessed? && Handle(t, ev, first, now).Committed?
    ensures var t' := Handle(t, ev, first, now).tables;
      var r := Pick(t.refunds, WithProviderRefund(ev.refundRef), first.refund);
      && t'.payments == t.payments && |t'.ledger| >= |t.ledger|
      && (r.Some? ==> t'.refunds == t.refunds[r.value := t.refunds[r.value].(status := RefundStatus.Succeeded)])
      && (r.None? ==> |t'.refunds| == |t.refunds| + 1 && t'.refunds[..|t.refunds|] == t.refunds
                      && t'.refunds[|t.refunds|].providerRefund == Some(ev.refundRef)
                      && t'.refunds[|t.refunds|].status == RefundStatus.Succeeded)
  {
    var p := Pick(t.payments, WithProviderPayment(ev.paymentRef), first.payment).value;
    RevokeKeeps(t, t.payments[p], RefundProcessedEvent, first);
    var r := Pick(t.refunds, WithProviderRefund(ev.refundRef), first.refund);
    if r.Some? && t.refunds[r.value].status == RefundStatus.Succeeded {
      assert t.refunds[r.value := t.refunds[r.value].(status := RefundStatus.Succeeded)] == t.refunds;
    }
  }

  /**
   * The in-app refund action inserts its row after the provider has issued the
   * refund id, so refund.processed may have inserted a row of its own first.
   * Repeating refund.processed is harmless, whichever rows the lookups return,
   * if and only if no such twin is left that has not succeeded.
   */
  lemma RefundRedeliveryIff(t: Tables, ev: Event, first: Plan, now: int)
    requires ev.RefundProcessed?
    ensures (forall second: Plan, later: int :: Harmless(t, ev, first, now, second, later))
       <==> (Handle(t, ev, first, now).Committed? ==> !RefundTwinLeft(t, ev.refundRef, first))
  {
    if Handle(t, ev, first, now).Committed? {
      RefundedTables(t, ev, first, now);
      var t' := Handle(t, ev, first, now).tables;
      if RefundTwinLeft(t, ev.refundRef, first) {
        var i :| 0 <= i < |t.refunds| && WithProviderRefund(ev.refundRef)(t.refunds[i])
          && Pick(t.refunds, WithProviderRefund(ev.refundRef), first.refund) != Some(i)
          && t.refunds[i].status != RefundStatus.Succeeded;
        assert t'.refunds[i] == t.refunds[i];
        RefundAgain(t, ev, first, now, Plan(0, 0, i, 0), now);
        assert !Harmless(t, ev, first, now, Plan(0, 0, i, 0), now);
      } else {
        forall second: Plan, later: int ensures Harmless(t, ev, first, now, second, later) {
          RefundAgain(t, ev, first, now, second, later);
        }
      }
    }
  }

  /** Another refund row than the one handled carries the same provider id and has not failed. */
  ghost predicate UnfailedTwinLeft(t: Tables, refundRef: string, plan: Plan) {
    exists i :: 0 <= i < |t.refunds| && WithProviderRefund(refundRef)(t.refunds[i])
      && Pick(t.refunds, WithProviderRefund(refundRef), plan.refund) != Some(i)
      && t.refunds[i].status != RefundStatus.Failed
  }

  lemma RefundFailedTables(t: Tables, ev: Event, first: Plan, now: int)
    requires ev.RefundFailed?
    ensures
      var r, again := Pick(t.refunds, WithProviderRefund(ev.refundRef), first.refund), Handle(t, ev, first, now);
      && again.Committed? && again.receipt.None?
      && (r.None? ==> again.tables == t)
      && (r.Some? ==> again.tables.refunds == t.refunds[r.value := t.refunds[r.value].(status := RefundStatus.Failed)])
  {
    var r := Pick(t.refunds, WithProviderRefund(ev.refundRef), first.refund);
    if r.Some? && t.refunds[r.value].status == RefundStatus.Failed {
      assert t.refunds[r.value := t.refunds[r.value].(status := RefundStatus.Failed)] == t.refunds;
    }
  }

  /** A refund.failed does nothing exactly when the row it finds has failed, or it finds none. */
  lemma RefundFailedNothing(t: Tables, ev: Event, plan: Plan, now: int)
    requires ev.RefundFailed?
    ensures
      var r := Pick(t.refunds, WithProviderRefund(ev.refundRef), plan.refund);
      Handle(t, ev, plan, now) == Committed(t, None) <==> r.None? || t.refunds[r.value].status == RefundStatus.Failed
  {
    var r := Pick(t.refunds, WithProviderRefund(ev.refundRef), plan.refund);
    if r.Some? && t.refunds[r.value].status != RefundStatus.Failed {
      assert |Handle(t, ev, plan, now).tables.ledger| == |t.ledger| + 1;
    }
  }

  /** The same for refund.failed: exactly when no twin is left that has not failed. */
  lemma RefundFailedRedeliveryIff(t: Tables, ev: Event, first: Plan, now: int)
    requires ev.RefundFailed?
    ensures (forall second: Plan, later: int :: Harmless(t, ev, first, now, second, later))
       <==> !UnfailedTwinLeft(t, ev.refundRef, first)
  {
    RefundFailedTables(t, ev, first, now);
    var t' := Handle(t, ev, first, now).tables;
    if UnfailedTwinLeft(t, ev.refundRef, first) {
      var i :| 0 <= i < |t.refunds| && WithProviderRefund(ev.refundRef)(t.refunds[i])
        && Pick(t.refunds, WithProviderRefund(ev.refundRef), first.refund) != Some(i)
        && t.refunds[i].status != RefundStatus.Failed;
      RefundFailedNothing(t', ev, Plan(0, 0, i, 0), now);
      assert !Harmless(t, ev, first, now, Plan(0, 0, i, 0), now);
    } else {
      forall second: Plan, later: int ensures Harmless(t, ev, first, now, second, later) {
        RefundFailedNothing(t', ev, second, later);
      }
    }
  }

  // ----- Every event, in every run -----

  /** What the provider guarantees: a payment id belongs to one order id. */
  ghost predicate PaymentsConsistent(s: Step, owner: string -> string) {
    s.Webhook? && (s.ev.PaymentCaptured? || s.ev.PaymentFailed?) ==> owner(s.ev.paymentRef) == s.ev.orderRef
  }

  ghost predicate ConsistentRun(steps: seq<Step>, owner: string -> string) {
    forall i | 0 <= i < |steps| :: PaymentsConsistent(steps[i], owner)
  }

  ghost predicate Owned(t: Tables, owner: string -> string) {
    && (forall i, j | 0 <= i < j < |t.orders| ::
          t.orders[i].providerOrder.Some? ==> t.orders[i].providerOrder != t.orders[j].providerOrder)
    && (forall p | 0 <= p < |t.payments| :: PaymentOwned(t, t.payments[p], owner))
  }

  /** So no two orders and no two payments carry one provider id. */
  lemma OwnedDistinct(t: Tables, owner: string -> string)
    requires Settled(t) && Owned(t, owner)
    ensures PaidRefsDistinct(t)
  {
    forall ref: string ensures AtMostOne(t.payments, WithProviderPayment(ref)) {
      forall p, q | 0 <= p < |t.payments| && 0 <= q < |t.payments|
                    && WithProviderPayment(ref)(t.payments[p]) && WithProviderPayment(ref)(t.payments[q])
        ensures p == q
      {
        assert PaymentOwned(t, t.payments[p], owner) && PaymentOwned(t, t.payments[q], owner);
      }
    }
  }

  lemma OrdersOwnedKept(t: Tables, t': Tables, h: OrderEffect)
    requires OrderEffected(t, t', h)
    requires forall i, j | 0 <= i < j < |t.orders| ::
               t.orders[i].providerOrder.Some? ==> t.orders[i].providerOrder != t.orders[j].providerOrder
    ensures forall i, j | 0 <= i < j < |t'.orders| ::
              t'.orders[i].providerOrder.Some? ==> t'.orders[i].providerOrder != t'.orders[j].providerOrder
    ensures forall i | 0 <= i < |t.orders| :: i < |t'.orders| && t'.orders[i].providerOrder == t.orders[i].providerOrder
  {
  }

  ghost predicate PaymentOwned(t: Tables, payment: Payment, owner: string -> string) {
    payment.providerPayment.Some? ==>
      && payment.order < |t.orders|
      && t.orders[payment.order].providerOrder == Some(owner(payment.providerPayment.value))
  }

  lemma PaymentsOwnedKept(t: Tables, t': Tables, h: OrderEffect, owner: string -> string)
    requires OrderEffected(t, t', h) && (forall p | 0 <= p < |t.payments| :: PaymentOwned(t, t.payments[p], owner))
    requires h.Settles? ==> h.o < |t.orders| && t.orders[h.o].providerOrder == Some(owner(h.paymentRef))
    ensures forall p | 0 <= p < |t'.payments| :: PaymentOwned(t', t'.payments[p], owner)
  {
    forall p | 0 <= p < |t'.payments| ensures PaymentOwned(t', t'.payments[p], owner) {
      if p < |t.payments| {
        assert PaymentOwned(t, t.payments[p], owner);
      }
    }
  }

  lemma OwnedKept(t: Tables, s: Step, owner: string -> string)
    requires WellFormed(t) && Owned(t, owner) && PaymentsConsistent(s, owner)
    ensures Owned(After(t, s), owner)
  {
    var g, h := Effects(t, s);
    OrdersOwnedKept(t, After(t, s), h);
    PaymentsOwnedKept(t, After(t, s), h, owner);
  }

  lemma {:induction false} OwnedHolds(steps: seq<Step>, owner: string -> string)
    requires ConsistentRun(steps, owner)
    ensures Owned(Run(EMPTY, steps), owner)
  {
    if steps == [] {
    } else {
      var init := steps[..|steps| - 1];
      OwnedHolds(init, owner);
      InvHolds(init);
      OwnedKept(Run(EMPTY, init), steps[|steps| - 1], owner);
    }
  }

  /** Handling the event again, right after and whichever rows the lookups return then, does nothing. */
  ghost predicate RepeatsSafely(t: Tables, ev: Event, first: Plan, now: int) {
    forall second: Plan, later: int :: Harmless(t, ev, first, now, second, later)
  }

  /** A refund event leaves another row of its refund id that is not in the state it brings. */
  ghost predicate TwinLeft(t: Tables, ev: Event, first: Plan, now: int) {
    || (ev.RefundProcessed? && Handle(t, ev, first, now).Committed? && RefundTwinLeft(t, ev.refundRef, first))
    || (ev.RefundFailed? && UnfailedTwinLeft(t, ev.refundRef, first))
  }

  lemma OrderEventRepeats(t: Tables, ev: Event, first: Plan, now: int)
    requires (ev.PaymentCaptured? || ev.PaymentFailed?) && AtMostOne(t.orders, WithProviderOrder(ev.orderRef))
    ensures RepeatsSafely(t, ev, first, now)
  {
    forall second: Plan, later: int ensures Harmless(t, ev, first, now, second, later) {
      PickOnly(t.orders, WithProviderOrder(ev.orderRef), first.order, second.order);
      SamePick(t, ev, first, second, now, later);
    }
  }

  lemma DisputeRepeats(t: Tables, ev: Event, first: Plan, now: int)
    requires ev.DisputeCreated? || ev.DisputeWon? || ev.DisputeLost?
    requires AtMostOne(t.payments, WithProviderPayment(ev.paymentRef))
    ensures RepeatsSafely(t, ev, first, now)
  {
    forall second: Plan, later: int ensures Harmless(t, ev, first, now, second, later) {
      PickOnly(t.payments, WithProviderPayment(ev.paymentRef), first.payment, second.payment);
      DisputeHarmless(t, ev, first, second, now, later);
    }
  }

  /** No two orders and no two payments carry the same provider id. */
  ghost predicate PaidRefsDistinct(t: Tables) {
    forall ref: string :: AtMostOne(t.orders, WithProviderOrder(ref)) && AtMostOne(t.payments, WithProviderPayment(ref))
  }

  /** Then repeating an event is safe if and only if it is not a refund event that leaves a twin. */
  lemma RepeatsIff(t: Tables, ev: Event, first: Plan, now: int)
    requires PaidRefsDistinct(t)
    ensures RepeatsSafely(t, ev, first, now) <==> !TwinLeft(t, ev, first, now)
  {
    match ev {
      case PaymentCaptured(_, _) => OrderEventRepeats(t, ev, first, now);
      case PaymentFailed(_, _) => OrderEventRepeats(t, ev, first, now);
      case RefundProcessed(_, _, _) => RefundRedeliveryIff(t, ev, first, now);
      case RefundFailed(_) => RefundFailedRedeliveryIff(t, ev, first, now);
      case DisputeCreated(_, _, _) => DisputeRepeats(t, ev, first, now);
      case DisputeWon(_, _, _) => DisputeRepeats(t, ev, first, now);
      case DisputeLost(_, _, _) => DisputeRepeats(t, ev, first, now);
      case EntityMissing =>
      case Unrecognized =>
    }
  }

  /** So in every state of a run whose payment ids are consistent, whatever the order of refund rows. */
  lemma RepeatsSafelyIff(steps: seq<Step>, t: Tables, owner: string -> string, ev: Event, first: Plan, now: int)
    requires t == Run(EMPTY, steps) && ConsistentRun(steps, owner)
    ensures RepeatsSafely(t, ev, first, now) <==> !TwinLeft(t, ev, first, now)
  {
    InvHolds(steps);
    OwnedHolds(steps, owner);
    OwnedDistinct(t, owner);
    RepeatsIff(t, ev, first, now);
  }

  /** No two orders, payments or refunds carry the same provider id. */
  ghost predicate DistinctRefs(t: Tables) {
    PaidRefsDistinct(t) && forall ref: string :: AtMostOne(t.refunds, WithProviderRefund(ref))
  }

  /** With distinct provider ids the outcome of an event does not depend on the plan, but for the entitlement. */
  lemma RedeliveryHarmlessAnyPlan(t: Tables, ev: Event, first: Plan, now: int, second: Plan, later: int)
    requires DistinctRefs(t)
    ensures Harmless(t, ev, first, now, second, later)
  {
    RepeatsIff(t, ev, first, now);
    if ev.RefundProcessed? || ev.RefundFailed? {
      assert AtMostOne(t.refunds, WithProviderRefund(ev.refundRef));
    }
  }

  // ----- When twins come about -----

  ghost predicate RefundsDistinct(rows: seq<Refund>) {
    forall i, j | 0 <= i < j < |rows| :: rows[i].providerRefund.Some? ==> rows[i].providerRefund != rows[j].providerRefund
  }

  /** The in-app action inserts its row before any other has the refund id. */
  ghost predicate RequestIsFirst(t: Tables, s: Step) {
    s.RequestRefund? ==> forall i | 0 <= i < |t.refunds| :: t.refunds[i].providerRefund != Some(s.refundRef)
  }

  /** Only refund events and the in-app action write refunds. */
  lemma RefundsUntouched(t: Tables, s: Step)
    requires !s.RequestRefund? && (s.Webhook? ==> !s.ev.RefundProcessed? && !s.ev.RefundFailed?)
    ensures After(t, s).refunds == t.refunds
  {
    if s.Webhook? && s.ev.DisputeLost? {
      var p := Pick(t.payments, WithProviderPayment(s.ev.paymentRef), s.plan.payment);
      if p.Some? {
        RevokeKeeps(t, t.payments[p.value], DisputeLostEvent, s.plan);
      }
    }
  }

  lemma RefundsKept(t: Tables, s: Step)
    requires RefundsDistinct(t.refunds) && RequestIsFirst(t, s)
    ensures RefundsDistinct(After(t, s).refunds)
  {
    if s.Webhook? && s.ev.RefundProcessed? {
      if Handle(t, s.ev, s.plan, s.now).Committed? {
        RefundedTables(t, s.ev, s.plan, s.now);
      }
    } else if s.Webhook? && s.ev.RefundFailed? {
      RefundFailedTables(t, s.ev, s.plan, s.now);
    } else if !s.RequestRefund? {
      RefundsUntouched(t, s);
    }
  }

  ghost predicate RequestsAreFirst(steps: seq<Step>) {
    forall i | 0 <= i < |steps| :: RequestIsFirst(Run(EMPTY, steps[..i]), steps[i])
  }

  lemma RequestsPrefix(steps: seq<Step>)
    requires steps != [] && RequestsAreFirst(steps)
    ensures RequestsAreFirst(steps[..|steps| - 1])
    ensures RequestIsFirst(Run(EMPTY, steps[..|steps| - 1]), steps[|steps| - 1])
  {
    var init := steps[..|steps| - 1];
    forall i | 0 <= i < |init| ensures RequestIsFirst(Run(EMPTY, init[..i]), init[i]) {
      assert init[..i] == steps[..i];
    }
  }

  lemma {:induction false} RefundsStayDistinct(steps: seq<Step>)
    requires RequestsAreFirst(steps)
    ensures RefundsDistinct(Run(EMPTY, steps).refunds)
  {
    if steps == [] {
    } else {
      RequestsPrefix(steps);
      RefundsStayDistinct(steps[..|steps| - 1]);
      RefundsKept(Run(EMPTY, steps[..|steps| - 1]), steps[|steps| - 1]);
    }
  }

  lemma NoTwin(t: Tables, ev: Event, first: Plan, now: int)
    requires RefundsDistinct(t.refunds)
    ensures !TwinLeft(t, ev, first, now)
  {
  }

  /** So where the in-app action always comes first, no event leaves a twin and every repetition is safe. */
  lemma RepetitionDoesNothing(steps: seq<Step>, t: Tables, owner: string -> string, ev: Event, first: Plan, now: int)
    requires t == Run(EMPTY, steps) && ConsistentRun(steps, owner) && RequestsAreFirst(steps)
    ensures RepeatsSafely(t, ev, first, now)
  {
    RefundsStayDistinct(steps);
    NoTwin(t, ev, first, now);
    RepeatsSafelyIff(steps, t, owner, ev, first, now);
  }

  lemma RunTwo(steps: seq<Step>, a: Step, b: Step)
    ensures Run(EMPTY, steps + [a] + [b]) == After(After(Run(EMPTY, steps), a), b)
  {
    assert (steps + [a] + [b])[..|steps| + 1] == steps + [a];
    assert (steps + [a])[..|steps|] == steps;
  }

  /** A refund of an unknown id gives one succeeded row; the in-app action then adds its pending twin. */
  lemma TwinState(t: Tables, paymentRef: string, refundRef: string, amount: int, now: int, plan: Plan) returns (t': Tables)
    requires t.payments == [Payment(0, Some(paymentRef), PaymentStatus.Succeeded)] && t.refunds == [] && plan.payment == 0
    ensures t' == After(After(t, Webhook(RefundProcessed(refundRef, paymentRef, amount), plan, now)),
                        RequestRefund(0, refundRef, MinorToMajor(amount)))
    ensures t'.payments == t.payments
    ensures t'.refunds == [Refund(0, Some(refundRef), RefundStatus.Succeeded, MinorToMajor(amount)),
                           Refund(0, Some(refundRef), RefundStatus.Pending, MinorToMajor(amount))]
  {
    assert WithProviderPayment(paymentRef)(t.payments[0]);
    RevokeKeeps(t, t.payments[0], RefundProcessedEvent, plan);
    var refunded := After(t, Webhook(RefundProcessed(refundRef, paymentRef, amount), plan, now));
    assert refunded.refunds == [Refund(0, Some(refundRef), RefundStatus.Succeeded, MinorToMajor(amount))];
    t' := After(refunded, RequestRefund(0, refundRef, MinorToMajor(amount)));
  }

  lemma TwinChanges(t: Tables, ev: Event, first: Plan, second: Plan, now: int)
    requires ev.RefundProcessed? && first.refund == 0 && second.refund == 1 && |t.refunds| == 2
    requires t.refunds[0].providerRefund == Some(ev.refundRef) && t.refunds[1].providerRefund == Some(ev.refundRef)
    requires t.refunds[0].status == RefundStatus.Succeeded && t.refunds[1].status == RefundStatus.Pending
    requires Pick(t.payments, WithProviderPayment(ev.paymentRef), first.payment).Some?
    ensures TwinLeft(t, ev, first, now) && !Harmless(t, ev, first, now, second, now)
  {
    assert WithProviderRefund(ev.refundRef)(t.refunds[0]) && WithProviderRefund(ev.refundRef)(t.refunds[1]);
    assert Handle(t, ev, first, now) == Committed(t, None);
    RefundAgain(t, ev, first, now, second, now);
  }

  /**
   * The other order happens: a paid order, refund.processed for a refund id that
   * no row carries, then the row of the in-app action that asked the provider
   * for that refund. Repeating the event then takes the twin and changes it.
   */
  lemma TwinReached(orderRef: string, paymentRef: string, refundRef: string, amount: int, now: int)
    returns (steps: seq<Step>, t: Tables, first: Plan, second: Plan)
    ensures t == Run(EMPTY, steps)
    ensures
      var ev := RefundProcessed(refundRef, paymentRef, amount);
      TwinLeft(t, ev, first, now) && !Harmless(t, ev, first, now, second, now)
  {
    first, second := Plan(0, 0, 0, 0), Plan(0, 0, 1, 0);
    var ev := RefundProcessed(refundRef, paymentRef, amount);
    var paid := PaidOrderReachable(orderRef, paymentRef, first);
    t := TwinState(Run(EMPTY, paid), paymentRef, refundRef, amount, now, first);
    var a, b := Webhook(ev, first, now), RequestRefund(0, refundRef, MinorToMajor(amount));
    steps := paid + [a] + [b];
    RunTwo(paid, a, b);
    assert WithProviderPayment(paymentRef)(t.payments[0]);
    TwinChanges(t, ev, first, second, now);
  }
}
