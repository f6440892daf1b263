/**
 * What each webhook event and each sweep item does to the tables, as one
 * update. The worker reaches these results step by step inside a database
 * transaction (module CommerceWorker).
 */
module CommerceHandlers {
  import opened Common
  import opened CommerceTables

  /** A verified provider event, parsed. Amounts are in the minor unit of the currency. */
  datatype Event =
    | PaymentCaptured(orderRef: string, paymentRef: string)
    | PaymentFailed(orderRef: string, paymentRef: string)
    | RefundProcessed(refundRef: string, paymentRef: string, amount: int)
    | RefundFailed(refundRef: string)
    | DisputeCreated(paymentRef: string, amount: int, reason: string)
    | DisputeWon(paymentRef: string, amount: int, reason: string)
    | DisputeLost(paymentRef: string, amount: int, reason: string)
    | EntityMissing
    | Unrecognized

  /** A transaction rolls back and reports an error, or commits and may owe a receipt. */
  datatype Outcome = Rejected | Committed(tables: Tables, receipt: Option<Receipt>)

  const NANOS_PER_DAY := 24 * 3600 * 1_000_000_000
  const STALE_ORDER_CUTOFF := 30 * 60 * 1_000_000_000

  /** Arithmetic on 64-bit durations wraps around. */
  function Wrap64(n: int): int {
    (n + 0x8000_0000_0000_0000) % 0x1_0000_0000_0000_0000 - 0x8000_0000_0000_0000
  }

  function MinorToMajor(amount: int): real {
    amount as real / 100.0
  }

  function ExpiryFor(offer: Offer, now: int): Option<int> {
    if offer.kind == Subscription && offer.accessDays.Some?
    then Some(now + Wrap64(offer.accessDays.value * NANOS_PER_DAY))
    else None
  }

  /** The id the payment row of `order` has once the event is recorded. */
  function PaymentRow(t: Tables, order: nat): nat {
    match Latest(t.payments, OfOrder(order))
    case None => |t.payments|
    case Some(p) => p
  }

  function RecordPayment(payments: seq<Payment>, order: nat, ref: string, status: PaymentStatus): seq<Payment> {
    match Latest(payments, OfOrder(order))
    case None => payments + [Payment(order, Some(ref), status)]
    case Some(p) => payments[p := payments[p].(providerPayment := Some(ref), status := status)]
  }

  predicate Redeemable(discounts: map<nat, DiscountCode>, code: Option<nat>) {
    && code.Some? && code.value in discounts
    && var d := discounts[code.value]; d.maxRedemptions.None? || d.redemptions < d.maxRedemptions.value
  }

  function Redeem(discounts: map<nat, DiscountCode>, code: Option<nat>): map<nat, DiscountCode> {
    if Redeemable(discounts, code)
    then discounts[code.value := discounts[code.value].(redemptions := discounts[code.value].redemptions + 1)]
    else discounts
  }

  function OrderRow(event: LedgerEvent, order: nat, payment: Option<nat>, before: OrderStatus, after: OrderStatus,
                    learner: nat): LedgerRow {
    LedgerRow(event, Some(order), payment, Some(OrderState(before)), OrderState(after), None, Some(learner))
  }

  /** Gives the learner an entitlement and points their access row for the course at it. */
  function Grant(t: Tables, e: Entitlement): Tables {
    t.(entitlements := t.entitlements + [e],
       access := t.access[(e.learner, e.course) := Access(Some(|t.entitlements|), GrantStatus.Active)])
  }

  function Capture(t: Tables, o: nat, paymentRef: string, now: int): Tables
    requires o < |t.orders| && t.orders[o].offer in t.offers
  {
    var order := t.orders[o];
    var offer := t.offers[order.offer];
    var granted := Grant(t, Entitlement(Some(o), order.learner, offer.course, GrantStatus.Active,
                                        ExpiryFor(offer, now), None));
    granted.(orders := t.orders[o := order.(status := OrderStatus.Succeeded)],
             payments := RecordPayment(t.payments, o, paymentRef, PaymentStatus.Succeeded),
             discounts := Redeem(t.discounts, order.discount),
             ledger := t.ledger + [OrderRow(PaymentCapturedEvent, o, Some(PaymentRow(t, o)), order.status,
                                            OrderStatus.Succeeded, order.learner)],
             audit := t.audit + [AuditRow(Granted, |t.entitlements|, order.learner, None)])
  }

  function Captured(t: Tables, orderRef: string, paymentRef: string, plan: Plan, now: int): Outcome {
    match Pick(t.orders, WithProviderOrder(orderRef), plan.order)
    case None => Rejected
    case Some(o) =>
      var order := t.orders[o];
      if order.status == OrderStatus.Succeeded then Committed(t, None)
      else if order.offer !in t.offers then Rejected
      else
        var course := t.offers[order.offer].course;
        if course !in t.courses then Rejected
        else Committed(Capture(t, o, paymentRef, now),
                       Some(Receipt(o, order.learner, course, t.courses[course],
                                    Redeemable(t.discounts, order.discount))))
  }

  function Fail(t: Tables, o: nat, paymentRef: string): Tables
    requires o < |t.orders|
  {
    var order := t.orders[o];
    t.(orders := t.orders[o := order.(status := OrderStatus.Failed)],
       payments := RecordPayment(t.payments, o, paymentRef, PaymentStatus.Failed),
       ledger := t.ledger + [OrderRow(PaymentFailedEvent, o, Some(PaymentRow(t, o)), order.status,
                                      OrderStatus.Failed, order.learner)])
  }

  function FailedPayment(t: Tables, orderRef: string, paymentRef: string, plan: Plan): Outcome {
    match Pick(t.orders, WithProviderOrder(orderRef), plan.order)
    case None => Rejected
    case Some(o) =>
      if t.orders[o].status == OrderStatus.Failed then Committed(t, None)
      else Committed(Fail(t, o, paymentRef), None)
  }

  /** Ends entitlement `e` and the access of its learner to its course. */
  function Withdraw(t: Tables, e: nat, status: GrantStatus, row: AuditRow): Tables
    requires e < |t.entitlements|
  {
    var key := (t.entitlements[e].learner, t.entitlements[e].course);
    t.(entitlements := t.entitlements[e := t.entitlements[e].(status := status)],
       access := if key in t.access then t.access[key := t.access[key].(status := status)] else t.access,
       audit := t.audit + [row])
  }

  /** What a refund or a lost dispute of `payment` takes away. */
  function RevokeFor(t: Tables, payment: Payment, cause: LedgerEvent, plan: Plan): Tables {
    match Pick(t.entitlements, GrantedForOrder(payment.order), plan.entitlement)
    case None => t
    case Some(e) =>
      if t.entitlements[e].status != GrantStatus.Active then t
      else Withdraw(t, e, GrantStatus.Revoked,
                    AuditRow(AuditAction.Revoked, e, t.entitlements[e].learner, Some(cause)))
  }

  /** Taking access away neither reads nor writes refunds, chargebacks and the payment audit trail. */
  lemma RevokeFrame(t: Tables, payment: Payment, cause: LedgerEvent, plan: Plan, refunds: seq<Refund>,
                    chargebacks: seq<Chargeback>, ledger: seq<LedgerRow>)
    ensures RevokeFor(t.(refunds := refunds, chargebacks := chargebacks, ledger := ledger), payment, cause, plan)
         == RevokeFor(t, payment, cause, plan).(refunds := refunds, chargebacks := chargebacks, ledger := ledger)
  {
  }

  function PaymentLedgerRow(event: LedgerEvent, payment: Payment, p: nat, before: Option<State>, after: State,
                            reason: Option<string>): LedgerRow {
    LedgerRow(event, Some(payment.order), Some(p), before, after, reason, None)
  }

  function ProcessedRefund(t: Tables, refundRef: string, paymentRef: string, amount: int, plan: Plan): Outcome {
    match Pick(t.payments, WithProviderPayment(paymentRef), plan.payment)
    case None => Rejected
    case Some(p) =>
      var found := Pick(t.refunds, WithProviderRefund(refundRef), plan.refund);
      if found.Some? && t.refunds[found.value].status == RefundStatus.Succeeded then Committed(t, None)
      else
        var refunds :=
          match found
          case None => t.refunds + [Refund(p, Some(refundRef), RefundStatus.Succeeded, MinorToMajor(amount))]
          case Some(r) => t.refunds[r := t.refunds[r].(status := RefundStatus.Succeeded)];
        var row := PaymentLedgerRow(RefundProcessedEvent, t.payments[p], p, Some(RefundState(RefundStatus.Pending)),
                                    RefundState(RefundStatus.Succeeded), None);
        Committed(RevokeFor(t, t.payments[p], RefundProcessedEvent, plan)
                  .(refunds := refunds, ledger := t.ledger + [row]), None)
  }

  function FailedRefund(t: Tables, refundRef: string, plan: Plan): Outcome {
    match Pick(t.refunds, WithProviderRefund(refundRef), plan.refund)
    case None => Committed(t, None)
    case Some(r) =>
      var refund := t.refunds[r];
      if refund.status == RefundStatus.Failed then Committed(t, None)
      else Committed(t.(refunds := t.refunds[r := refund.(status := RefundStatus.Failed)],
                        ledger := t.ledger + [LedgerRow(RefundFailedEvent, None, Some(refund.payment),
                                                        Some(RefundState(refund.status)),
                                                        RefundState(RefundStatus.Failed), None, None)]), None)
  }

  function OpenedDispute(t: Tables, paymentRef: string, amount: int, reason: string, plan: Plan): Outcome {
    match Pick(t.payments, WithProviderPayment(paymentRef), plan.payment)
    case None => Rejected
    case Some(p) =>
      var latest := Latest(t.chargebacks, AgainstPayment(p));
      if latest.Some? && t.chargebacks[latest.value].status == ChargebackStatus.Pending then Committed(t, None)
      else Committed(t.(chargebacks := t.chargebacks + [Chargeback(p, ChargebackStatus.Pending, MinorToMajor(amount),
                                                                   Some(reason))],
                        ledger := t.ledger + [PaymentLedgerRow(DisputeCreatedEvent, t.payments[p], p, None,
                                                               ChargebackState(ChargebackStatus.Pending),
                                                               Some(reason))]), None)
  }

  /** The status of the payment's latest chargeback; one that is only now created starts pending. */
  function DisputeStatus(rows: seq<Chargeback>, p: nat): ChargebackStatus {
    match Latest(rows, AgainstPayment(p))
    case None => ChargebackStatus.Pending
    case Some(c) => rows[c].status
  }

  function ResolveChargeback(rows: seq<Chargeback>, p: nat, amount: int, reason: string, final: ChargebackStatus):
    seq<Chargeback>
  {
    match Latest(rows, AgainstPayment(p))
    case None => rows + [Chargeback(p, final, MinorToMajor(amount), Some(reason))]
    case Some(c) => rows[c := rows[c].(status := final)]
  }

  /** `final` is Won or Lost. */
  function ResolvedDispute(t: Tables, paymentRef: string, amount: int, reason: string, final: ChargebackStatus,
                           plan: Plan): Outcome {
    match Pick(t.payments, WithProviderPayment(paymentRef), plan.payment)
    case None => Rejected
    case Some(p) =>
      var was := DisputeStatus(t.chargebacks, p);
      if was == final then Committed(t, None)
      else
        var event := if final == Lost then DisputeLostEvent else DisputeWonEvent;
        var row := PaymentLedgerRow(event, t.payments[p], p, Some(ChargebackState(was)), ChargebackState(final), None);
        var withdrawn := if final == Lost then RevokeFor(t, t.payments[p], DisputeLostEvent, plan) else t;
        Committed(withdrawn.(chargebacks := ResolveChargeback(t.chargebacks, p, amount, reason, final),
                             ledger := t.ledger + [row]), None)
  }

  function Handle(t: Tables, ev: Event, plan: Plan, now: int): Outcome {
    match ev
    case PaymentCaptured(orderRef, paymentRef) => Captured(t, orderRef, paymentRef, plan, now)
    case PaymentFailed(orderRef, paymentRef) => FailedPayment(t, orderRef, paymentRef, plan)
    case RefundProcessed(refundRef, paymentRef, amount) => ProcessedRefund(t, refundRef, paymentRef, amount, plan)
    case RefundFailed(refundRef) => FailedRefund(t, refundRef, plan)
    case DisputeCreated(paymentRef, amount, reason) => OpenedDispute(t, paymentRef, amount, reason, plan)
    case DisputeWon(paymentRef, amount, reason) => ResolvedDispute(t, paymentRef, amount, reason, Won, plan)
    case DisputeLost(paymentRef, amount, reason) => ResolvedDispute(t, paymentRef, amount, reason, Lost, plan)
    case EntityMissing => Rejected
    case Unrecognized => Committed(t, None)
  }

  /** One item of the abandoned-orders sweep: the status is read again inside the transaction. */
  function AbandonOne(t: Tables, o: nat): Tables {
    if o < |t.orders| && IsOpen(t.orders[o].status) then
      var order := t.orders[o];
      t.(orders := t.orders[o := order.(status := Abandoned)],
         ledger := t.ledger + [OrderRow(OrderAbandonedEvent, o, None, order.status, Abandoned, order.learner)])
    else t
  }

  predicate Lapsed(e: Entitlement, now: int) {
    e.status == GrantStatus.Active && e.expiresAt.Some? && e.expiresAt.value <= now
  }

  /** One item of the expiry sweep, likewise. */
  function ExpireOne(t: Tables, e: nat, now: int): Tables {
    if e < |t.entitlements| && Lapsed(t.entitlements[e], now)
    then Withdraw(t, e, GrantStatus.Expired, AuditRow(AuditAction.Expired, e, t.entitlements[e].learner, None))
    else t
  }
}
