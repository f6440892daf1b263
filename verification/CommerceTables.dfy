/**
 * The commerce tables as values. A table is a sequence: a row's id is its
 * position and rows are never deleted, so the order of rows is the order of
 * creation. learner_course_access is a map, because (learner_id, course_id) is
 * unique there.
 */
module CommerceTables {
  import opened Common

  datatype OrderStatus = Pending | PaymentInitiated | Succeeded | Failed | Abandoned
  datatype PaymentStatus = Pending | Processing | Succeeded | Failed
  datatype RefundStatus = Pending | Succeeded | Failed
  datatype ChargebackStatus = Pending | Won | Lost
  /** The status of an entitlement and of an access row. */
  datatype GrantStatus = Active | Revoked | Expired
  datatype OfferType = Free | Paid | Subscription | Cohort | InvitationOnly

  /** `providerOrder` is razorpay_order_id; `createdAt` is in nanoseconds, as every time here. */
  datatype Order = Order(offer: nat, learner: nat, status: OrderStatus, providerOrder: Option<string>,
                         discount: Option<nat>, createdAt: int)
  datatype Payment = Payment(order: nat, providerPayment: Option<string>, status: PaymentStatus)
  datatype Entitlement = Entitlement(order: Option<nat>, learner: nat, course: nat, status: GrantStatus,
                                     expiresAt: Option<int>, grantedBy: Option<nat>)
  datatype Access = Access(entitlement: Option<nat>, status: GrantStatus)
  datatype Refund = Refund(payment: nat, providerRefund: Option<string>, status: RefundStatus, amount: real)
  datatype Chargeback = Chargeback(payment: nat, status: ChargebackStatus, amount: real, reason: Option<string>)
  datatype DiscountCode = DiscountCode(maxRedemptions: Option<nat>, redemptions: nat)
  datatype Offer = Offer(course: nat, kind: OfferType, accessDays: Option<int>)

  /** The event_type column of payment_audit_trail. */
  datatype LedgerEvent =
    | PaymentCapturedEvent | PaymentFailedEvent | OrderAbandonedEvent
    | RefundProcessedEvent | RefundFailedEvent | RefundInitiatedEvent
    | DisputeCreatedEvent | DisputeWonEvent | DisputeLostEvent
    | EntitlementGrantedEvent
  /** The old_state and new_state columns: the status of whatever the event is about. */
  datatype State =
    | OrderState(order: OrderStatus) | PaymentState(payment: PaymentStatus) | RefundState(refund: RefundStatus)
    | ChargebackState(chargeback: ChargebackStatus) | GrantState(grant: GrantStatus)
  datatype LedgerRow = LedgerRow(event: LedgerEvent, order: Option<nat>, payment: Option<nat>, before: Option<State>,
                                 after: State, reason: Option<string>, user: Option<nat>)

  /** audit_events rows about entitlements: entitlement.granted, .grant, .revoked, .expired. */
  datatype AuditAction = Granted | AdminGrant | Revoked | Expired
  datatype AuditRow = AuditRow(action: AuditAction, entitlement: nat, user: nat, cause: Option<LedgerEvent>)

  datatype Tables = Tables(
    orders: seq<Order>,
    payments: seq<Payment>,
    entitlements: seq<Entitlement>,
    access: map<(nat, nat), Access>,
    refunds: seq<Refund>,
    chargebacks: seq<Chargeback>,
    discounts: map<nat, DiscountCode>,
    offers: map<nat, Offer>,
    courses: map<nat, string>,
    ledger: seq<LedgerRow>,
    audit: seq<AuditRow>)

  const EMPTY := Tables([], [], [], map[], [], [], map[], map[], map[], [], [])

  /** What the receipt email is about; the amounts it prints are the order's own. */
  datatype Receipt = Receipt(order: nat, learner: nat, course: nat, courseTitle: string, codeRedeemed: bool)

  /** For each lookup that SQL leaves open, the row the query plan happens to return. */
  datatype Plan = Plan(order: nat, payment: nat, refund: nat, entitlement: nat)

  // WHERE clauses of the lookups.

  function WithProviderOrder(ref: string): Order -> bool {
    (o: Order) => o.providerOrder == Some(ref)
  }

  function OfOrder(order: nat): Payment -> bool {
    (p: Payment) => p.order == order
  }

  function WithProviderPayment(ref: string): Payment -> bool {
    (p: Payment) => p.providerPayment == Some(ref)
  }

  function WithProviderRefund(ref: string): Refund -> bool {
    (r: Refund) => r.providerRefund == Some(ref)
  }

  function AgainstPayment(payment: nat): Chargeback -> bool {
    (c: Chargeback) => c.payment == payment
  }

  function GrantedForOrder(order: nat): Entitlement -> bool {
    (e: Entitlement) => e.order == Some(order)
  }

  predicate IsOpen(status: OrderStatus) {
    status == OrderStatus.Pending || status == PaymentInitiated
  }
}
