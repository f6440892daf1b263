/**
 * The worker itself: each handler opens a transaction, changes its rows one
 * statement at a time and commits, or returns an error and leaves the rollback
 * to drop the transaction. Every method is proved to have the effect that
 * module CommerceHandlers states as one update.
 */
module CommerceWorker {
  import opened Common
  import opened CommerceTables
  import opened CommerceHandlers
  import opened CommerceOutcomes

  /** A database transaction: its own view of the tables, and the repositories' statements on it. */
  class Transaction {
    var rows: Tables

    constructor (committed: Tables)
      ensures rows == committed
    {
      rows := committed;
    }

    method UpdateOrderStatus(o: nat, status: OrderStatus)
      requires o < |rows.orders|
      modifies this
      ensures rows == old(rows).(orders := old(rows).orders[o := old(rows).orders[o].(status := status)])
    {
      rows := rows.(orders := rows.orders[o := rows.orders[o].(status := status)]);
    }

    method CreatePayment(payment: Payment) returns (id: nat)
      modifies this
      ensures id == |old(rows).payments| && rows == old(rows).(payments := old(rows).payments + [payment])
    {
      id := |rows.payments|;
      rows := rows.(payments := rows.payments + [payment]);
    }

    method UpdatePaymentStatus(p: nat, status: PaymentStatus, ref: Option<string>)
      requires p < |rows.payments|
      modifies this
      ensures var was := old(rows).payments[p];
        var ref' := if ref.Some? then ref else was.providerPayment;
        rows == old(rows).(payments := old(rows).payments[p := Payment(was.order, ref', status)])
    {
      var was := rows.payments[p];
      // COALESCE: a missing reference leaves the stored one.
      var kept := if ref.Some? then ref else was.providerPayment;
      rows := rows.(payments := rows.payments[p := was.(status := status, providerPayment := kept)]);
    }

    method CreateEntitlement(e: Entitlement) returns (id: nat)
      modifies this
      ensures id == |old(rows).entitlements| && rows == old(rows).(entitlements := old(rows).entitlements + [e])
    {
      id := |rows.entitlements|;
      rows := rows.(entitlements := rows.entitlements + [e]);
    }

    method SetEntitlementStatus(e: nat, status: GrantStatus)
      requires e < |rows.entitlements|
      modifies this
      ensures rows == old(rows).(entitlements :=
                        old(rows).entitlements[e := old(rows).entitlements[e].(status := status)])
    {
      rows := rows.(entitlements := rows.entitlements[e := rows.entitlements[e].(status := status)]);
    }

    method CreateAccess(learner: nat, course: nat, entitlement: Option<nat>)
      requires (learner, course) !in rows.access
      modifies this
      ensures rows == old(rows).(access := old(rows).access[(learner, course) := Access(entitlement, GrantStatus.Active)])
    {
      rows := rows.(access := rows.access[(learner, course) := Access(entitlement, GrantStatus.Active)]);
    }

    method SetAccessStatus(key: (nat, nat), status: GrantStatus)
      requires key in rows.access
      modifies this
      ensures rows == old(rows).(access := old(rows).access[key := old(rows).access[key].(status := status)])
    {
      rows := rows.(access := rows.access[key := rows.access[key].(status := status)]);
    }

    method SetAccessEntitlementAndStatus(key: (nat, nat), entitlement: Option<nat>, status: GrantStatus)
      requires key in rows.access
      modifies this
      ensures rows == old(rows).(access := old(rows).access[key := Access(entitlement, status)])
    {
      rows := rows.(access := rows.access[key := rows.access[key].(entitlement := entitlement, status := status)]);
    }

    /** Counts a redemption unless the cap is reached; `ok` is false when no row qualifies. */
    method IncrementRedemption(code: nat) returns (ok: bool)
      modifies this
      ensures ok == Redeemable(old(rows).discounts, Some(code))
      ensures rows == old(rows).(discounts := Redeem(old(rows).discounts, Some(code)))
      ensures ok ==> rows.discounts[code].redemptions == old(rows).discounts[code].redemptions + 1
      ensures ok && rows.discounts[code].maxRedemptions.Some? ==>
                rows.discounts[code].redemptions <= rows.discounts[code].maxRedemptions.value
    {
      ok := false;
      if code in rows.discounts {
        var d := rows.discounts[code];
        if d.maxRedemptions.None? || d.redemptions < d.maxRedemptions.value {
          rows := rows.(discounts := rows.discounts[code := d.(redemptions := d.redemptions + 1)]);
          ok := true;
        }
      }
    }

    /** Redeems an order's code, if it has one; an exhausted code does not undo a payment that was captured. */
    method RedeemCode(code: Option<nat>) returns (redeemed: bool)
      modifies this
      ensures redeemed == Redeemable(old(rows).discounts, code)
      ensures rows == old(rows).(discounts := Redeem(old(rows).discounts, code))
    {
      redeemed := false;
      if code.Some? {
        redeemed := IncrementRedemption(code.value);
      }
    }

    method CreateRefund(payment: nat, ref: string, amount: real) returns (id: nat)
      modifies this
      ensures id == |old(rows).refunds|
      ensures rows == old(rows).(refunds := old(rows).refunds + [Refund(payment, Some(ref), RefundStatus.Pending, amount)])
    {
      id := |rows.refunds|;
      rows := rows.(refunds := rows.refunds + [Refund(payment, Some(ref), RefundStatus.Pending, amount)]);
    }

    method UpdateRefundStatus(r: nat, status: RefundStatus, ref: string)
      requires r < |rows.refunds|
      modifies this
      ensures rows == old(rows).(refunds :=
                        old(rows).refunds[r := old(rows).refunds[r].(status := status, providerRefund := Some(ref))])
    {
      rows := rows.(refunds := rows.refunds[r := rows.refunds[r].(status := status, providerRefund := Some(ref))]);
    }

    method CreateChargeback(payment: nat, amount: real, reason: string) returns (id: nat)
      modifies this
      ensures id == |old(rows).chargebacks|
      ensures rows == old(rows).(chargebacks := old(rows).chargebacks
                                 + [Chargeback(payment, ChargebackStatus.Pending, amount, Some(reason))])
    {
      id := |rows.chargebacks|;
      rows := rows.(chargebacks := rows.chargebacks
                                   + [Chargeback(payment, ChargebackStatus.Pending, amount, Some(reason))]);
    }

    method UpdateChargebackStatus(c: nat, status: ChargebackStatus)
      requires c < |rows.chargebacks|
      modifies this
      ensures rows == old(rows).(chargebacks := old(rows).chargebacks[c := old(rows).chargebacks[c].(status := status)])
    {
      rows := rows.(chargebacks := rows.chargebacks[c := rows.chargebacks[c].(status := status)]);
    }

    method RecordPaymentAudit(row: LedgerRow)
      modifies this
      ensures rows == old(rows).(ledger := old(rows).ledger + [row])
    {
      rows := rows.(ledger := rows.ledger + [row]);
    }

    method RecordAudit(row: AuditRow)
      modifies this
      ensures rows == old(rows).(audit := old(rows).audit + [row])
    {
      rows := rows.(audit := rows.audit + [row]);
    }

    /** Creates the order's payment row, or updates the one it has. */
    method SettlePayment(o: nat, ref: string, status: PaymentStatus) returns (p: nat)
      modifies this
      ensures p == PaymentRow(old(rows), o)
      ensures rows == old(rows).(payments := RecordPayment(old(rows).payments, o, ref, status))
    {
      var existing := Latest(rows.payments, OfOrder(o));
      if existing.None? {
        p := CreatePayment(Payment(o, Some(ref), status));
      } else {
        p := existing.value;
        UpdatePaymentStatus(p, status, Some(ref));
      }
    }

    /** Creates an entitlement and creates or repoints the learner's access row for its course. */
    method GrantEntitlement(e: Entitlement) returns (id: nat)
      modifies this
      ensures id == |old(rows).entitlements|
      ensures rows == Grant(old(rows), e)
    {
      id := CreateEntitlement(e);
      if (e.learner, e.course) in rows.access {
        SetAccessEntitlementAndStatus((e.learner, e.course), Some(id), GrantStatus.Active);
      } else {
        CreateAccess(e.learner, e.course, Some(id));
      }
    }

    /** Finds or creates the refund and marks it succeeded, unless it is already; `settled` says it was. */
    method SettleRefund(p: nat, ref: string, amount: real, plan: nat) returns (settled: bool)
      modifies this
      ensures match Pick(old(rows).refunds, WithProviderRefund(ref), plan)
        case Some(r) =>
          && settled == (old(rows).refunds[r].status == RefundStatus.Succeeded)
          && rows == (if settled then old(rows) else old(rows).(refunds :=
                       old(rows).refunds[r := old(rows).refunds[r].(status := RefundStatus.Succeeded)]))
        case None =>
          && !settled
          && rows == old(rows).(refunds := old(rows).refunds + [Refund(p, Some(ref), RefundStatus.Succeeded, amount)])
    {
      var existing := Pick(rows.refunds, WithProviderRefund(ref), plan);
      var r: nat;
      if existing.None? {
        r := CreateRefund(p, ref, amount);
      } else {
        r := existing.value;
      }
      settled := rows.refunds[r].status == RefundStatus.Succeeded;
      if !settled {
        UpdateRefundStatus(r, RefundStatus.Succeeded, ref);
      }
    }

    /** Finds or creates the payment's chargeback and gives it its final status, unless it has it already. */
    method SettleChargeback(p: nat, amount: int, reason: string, final: ChargebackStatus)
      returns (before: ChargebackStatus)
      requires final == Won || final == Lost
      modifies this
      ensures before == DisputeStatus(old(rows).chargebacks, p)
      ensures rows == if before == final then old(rows)
                      else old(rows).(chargebacks := ResolveChargeback(old(rows).chargebacks, p, amount, reason, final))
    {
      var existing := Latest(rows.chargebacks, AgainstPayment(p));
      var c: nat;
      if existing.None? {
        c := CreateChargeback(p, MinorToMajor(amount), reason);
      } else {
        c := existing.value;
      }
      before := rows.chargebacks[c].status;
      if before != final {
        UpdateChargebackStatus(c, final);
      }
    }
  }

  class Worker {
    /** The committed tables. */
    var db: Tables
    /** The receipt emails queued so far. */
    var receipts: seq<Receipt>

    constructor (tables: Tables)
      ensures db == tables && receipts == []
    {
      db := tables;
      receipts := [];
    }

    /** What a handler leaves behind: nothing at all on an error, else the tables and the receipt it owes. */
    twostate predicate Did(outcome: Outcome, failed: bool)
      reads this
    {
      && failed == outcome.Rejected?
      && (failed ==> db == old(db) && receipts == old(receipts))
      && (!failed ==>
            && db == outcome.tables
            && receipts == old(receipts) + if outcome.receipt.Some? then [outcome.receipt.value] else [])
    }

    method HandlePaymentCaptured(orderRef: string, paymentRef: string, plan: Plan, now: int) returns (failed: bool)
      modifies this
      ensures Did(Captured(old(db), orderRef, paymentRef, plan, now), failed)
    {
      var tx := new Transaction(db);
      var found := Pick(tx.rows.orders, WithProviderOrder(orderRef), plan.order);
      if found.None? { return true; }
      var o := found.value;
      var order := tx.rows.orders[o];
      if order.status == OrderStatus.Succeeded {
        db := tx.rows;
        return false;
      }

      var p := tx.SettlePayment(o, paymentRef, PaymentStatus.Succeeded);
      tx.UpdateOrderStatus(o, OrderStatus.Succeeded);

      if order.offer !in tx.rows.offers { return true; }
      var offer := tx.rows.offers[order.offer];
      var expiresAt := ExpiryFor(offer, now);
      var e := tx.GrantEntitlement(Entitlement(Some(o), order.learner, offer.course, GrantStatus.Active, expiresAt, None));

      var redeemed := tx.RedeemCode(order.discount);
      tx.RecordPaymentAudit(OrderRow(PaymentCapturedEvent, o, Some(p), order.status, OrderStatus.Succeeded,
                                     order.learner));
      tx.RecordAudit(AuditRow(Granted, e, order.learner, None));

      if offer.course !in tx.rows.courses { return true; }
      var title := tx.rows.courses[offer.course];
      db := tx.rows;
      receipts := receipts + [Receipt(o, order.learner, offer.course, title, redeemed)];
      failed := false;
    }

    method HandlePaymentFailed(orderRef: string, paymentRef: string, plan: Plan) returns (failed: bool)
      modifies this
      ensures Did(FailedPayment(old(db), orderRef, paymentRef, plan), failed)
    {
      var tx := new Transaction(db);
      var found := Pick(tx.rows.orders, WithProviderOrder(orderRef), plan.order);
      if found.None? { return true; }
      var o := found.value;
      var order := tx.rows.orders[o];
      if order.status == OrderStatus.Failed {
        db := tx.rows;
        return false;
      }
      var p := tx.SettlePayment(o, paymentRef, PaymentStatus.Failed);
      tx.UpdateOrderStatus(o, OrderStatus.Failed);
      tx.RecordPaymentAudit(OrderRow(PaymentFailedEvent, o, Some(p), order.status, OrderStatus.Failed, order.learner));
      db := tx.rows;
      failed := false;
    }

    /** Takes away what `payment` bought, inside the caller's transaction; says whether there was anything to take. */
    method RevokeEntitlementForPayment(tx: Transaction, payment: Payment, cause: LedgerEvent, plan: Plan)
      returns (revoked: bool)
      modifies tx
      ensures tx.rows == RevokeFor(old(tx.rows), payment, cause, plan)
      ensures TakesBack(old(tx.rows), tx.rows, payment.order, plan, cause)
      ensures revoked <==> tx.rows != old(tx.rows)
    {
      RevokeTakesBack(tx.rows, payment, cause, plan);
      var found := Pick(tx.rows.entitlements, GrantedForOrder(payment.order), plan.entitlement);
      if found.None? { return false; }
      var e := found.value;
      var entitlement := tx.rows.entitlements[e];
      if entitlement.status != GrantStatus.Active { return false; }
      tx.SetEntitlementStatus(e, GrantStatus.Revoked);
      var key := (entitlement.learner, entitlement.course);
      if key in tx.rows.access {
        tx.SetAccessStatus(key, GrantStatus.Revoked);
      }
      tx.RecordAudit(AuditRow(AuditAction.Revoked, e, entitlement.learner, Some(cause)));
      assert |tx.rows.audit| == |old(tx.rows).audit| + 1;
      revoked := true;
    }

    method HandleRefundProcessed(refundRef: string, paymentRef: string, amount: int, plan: Plan) returns (failed: bool)
      modifies this
      ensures Did(ProcessedRefund(old(db), refundRef, paymentRef, amount, plan), failed)
    {
      var tx := new Transaction(db);
      var found := Pick(tx.rows.payments, WithProviderPayment(paymentRef), plan.payment);
      if found.None? { return true; }
      var p := found.value;
      var payment := tx.rows.payments[p];
      var settled := tx.SettleRefund(p, refundRef, MinorToMajor(amount), plan.refund);
      if settled {
        db := tx.rows;
        return false;
      }
      RevokeFrame(db, payment, RefundProcessedEvent, plan, tx.rows.refunds, db.chargebacks, db.ledger);
      var _ := RevokeEntitlementForPayment(tx, payment, RefundProcessedEvent, plan);
      tx.RecordPaymentAudit(PaymentLedgerRow(RefundProcessedEvent, payment, p, Some(RefundState(RefundStatus.Pending)),
                                             RefundState(RefundStatus.Succeeded), None));
      db := tx.rows;
      failed := false;
    }

    method HandleRefundFailed(refundRef: string, plan: Plan) returns (failed: bool)
      modifies this
      ensures Did(FailedRefund(old(db), refundRef, plan), failed)
    {
      var tx := new Transaction(db);
      failed := false;
      var found := Pick(tx.rows.refunds, WithProviderRefund(refundRef), plan.refund);
      if found.Some? && tx.rows.refunds[found.value].status != RefundStatus.Failed {
        var refund := tx.rows.refunds[found.value];
        tx.UpdateRefundStatus(found.value, RefundStatus.Failed, refundRef);
        tx.RecordPaymentAudit(LedgerRow(RefundFailedEvent, None, Some(refund.payment),
                                        Some(RefundState(refund.status)), RefundState(RefundStatus.Failed), None, None));
      }
      db := tx.rows;
    }

    method HandleDisputeCreated(paymentRef: string, amount: int, reason: string, plan: Plan) returns (failed: bool)
      modifies this
      ensures Did(OpenedDispute(old(db), paymentRef, amount, reason, plan), failed)
    {
      var tx := new Transaction(db);
      var found := Pick(tx.rows.payments, WithProviderPayment(paymentRef), plan.payment);
      if found.None? { return true; }
      var p := found.value;
      var existing := Latest(tx.rows.chargebacks, AgainstPayment(p));
      if existing.Some? && tx.rows.chargebacks[existing.value].status == ChargebackStatus.Pending {
        db := tx.rows;
        return false;
      }
      var _ := tx.CreateChargeback(p, MinorToMajor(amount), reason);
      tx.RecordPaymentAudit(PaymentLedgerRow(DisputeCreatedEvent, tx.rows.payments[p], p, None,
                                             ChargebackState(ChargebackStatus.Pending), Some(reason)));
      db := tx.rows;
      failed := false;
    }

    method HandleDisputeResolved(paymentRef: string, amount: int, reason: string, final: ChargebackStatus, plan: Plan)
      returns (failed: bool)
      requires final == Won || final == Lost
      modifies this
      ensures Did(ResolvedDispute(old(db), paymentRef, amount, reason, final, plan), failed)
    {
      var tx := new Transaction(db);
      var found := Pick(tx.rows.payments, WithProviderPayment(paymentRef), plan.payment);
      if found.None? { return true; }
      var p := found.value;
      var payment := tx.rows.payments[p];
      var before := tx.SettleChargeback(p, amount, reason, final);
      if before == final {
        db := tx.rows;
        return false;
      }
      tx.RecordPaymentAudit(PaymentLedgerRow(if final == Lost then DisputeLostEvent else DisputeWonEvent, payment, p,
                                             Some(ChargebackState(before)), ChargebackState(final), None));
      if final == Lost {
        RevokeFrame(db, payment, DisputeLostEvent, plan, db.refunds, tx.rows.chargebacks, tx.rows.ledger);
        var _ := RevokeEntitlementForPayment(tx, payment, DisputeLostEvent, plan);
      }
      db := tx.rows;
      failed := false;
    }

    method HandleEvent(ev: Event, plan: Plan, now: int) returns (failed: bool)
      modifies this
      ensures Did(Handle(old(db), ev, plan, now), failed)
      ensures Answers(old(db), ev, plan, now, Handle(old(db), ev, plan, now))
    {
      EveryEventAnswers(db, ev, plan, now);
      match ev {
        case PaymentCaptured(orderRef, paymentRef) => failed := HandlePaymentCaptured(orderRef, paymentRef, plan, now);
        case PaymentFailed(orderRef, paymentRef) => failed := HandlePaymentFailed(orderRef, paymentRef, plan);
        case RefundProcessed(refundRef, paymentRef, amount) =>
          failed := HandleRefundProcessed(refundRef, paymentRef, amount, plan);
        case RefundFailed(refundRef) => failed := HandleRefundFailed(refundRef, plan);
        case DisputeCreated(paymentRef, amount, reason) =>
          failed := HandleDisputeCreated(paymentRef, amount, reason, plan);
        case DisputeWon(paymentRef, amount, reason) =>
          failed := HandleDisputeResolved(paymentRef, amount, reason, Won, plan);
        case DisputeLost(paymentRef, amount, reason) =>
          failed := HandleDisputeResolved(paymentRef, amount, reason, Lost, plan);
        case EntityMissing => failed := true;
        case Unrecognized => failed := false;
      }
    }
  }
}
