/**
 * The few ways in which a step can change the tables. Each invariant is then
 * proved once per way instead of once per step.
 */
module CommerceEffects {
  import opened Common
  import opened CommerceTables
  import opened CommerceHandlers
  import opened CommerceSteps

  /** What happens to entitlements, access rows and audit events. */
  datatype GrantEffect =
    | Keeps
    | Gives(entitlement: Entitlement, rows: seq<AuditRow>)
    | Withdraws(e: nat, status: GrantStatus, row: AuditRow)
    | Enrolls(key: (nat, nat))

  /** What happens to orders, payments and the payment audit trail. */
  datatype OrderEffect =
    | Leaves(rows: seq<LedgerRow>)
    | Places(order: Order)
    | Settles(o: nat, status: OrderStatus, paymentRef: string)
    | Abandons(o: nat)

  ghost predicate Effected(t: Tables, t': Tables, g: GrantEffect) {
    match g
    case Keeps =>
      t'.entitlements == t.entitlements && t'.access == t.access && t'.audit == t.audit
    case Gives(e, rows) =>
      && t'.entitlements == t.entitlements + [e]
      && t'.access == t.access[(e.learner, e.course) := Access(Some(|t.entitlements|), GrantStatus.Active)]
      && t'.audit == t.audit + rows
      && e.status == GrantStatus.Active
    case Withdraws(e, status, row) =>
      && e < |t.entitlements|
      && t.entitlements[e].status == GrantStatus.Active
      && row.entitlement == e
      && ((status == GrantStatus.Revoked && row.action == AuditAction.Revoked)
          || (status == GrantStatus.Expired && row.action == AuditAction.Expired))
      && var key := (t.entitlements[e].learner, t.entitlements[e].course);
      && t'.entitlements == t.entitlements[e := t.entitlements[e].(status := status)]
      && t'.access == (if key in t.access then t.access[key := t.access[key].(status := status)] else t.access)
      && t'.audit == t.audit + [row]
    case Enrolls(key) =>
      && key !in t.access
      && t'.access == t.access[key := Access(None, GrantStatus.Active)]
      && t'.entitlements == t.entitlements && t'.audit == t.audit
  }

  /** The events of the payment audit trail that change an order's status. */
  predicate IsLifecycle(row: LedgerRow) {
    row.event == PaymentCapturedEvent || row.event == PaymentFailedEvent || row.event == OrderAbandonedEvent
  }

  function PaymentStatusFor(status: OrderStatus): PaymentStatus {
    if status == OrderStatus.Succeeded then PaymentStatus.Succeeded else PaymentStatus.Failed
  }

  function SettlingEvent(status: OrderStatus): LedgerEvent {
    if status == OrderStatus.Succeeded then PaymentCapturedEvent else PaymentFailedEvent
  }

  ghost predicate OrderEffected(t: Tables, t': Tables, h: OrderEffect) {
    match h
    case Leaves(rows) =>
      && t'.orders == t.orders && t'.payments == t.payments && t'.ledger == t.ledger + rows
      && |rows| <= 1
      && forall i | 0 <= i < |rows| :: !IsLifecycle(rows[i]) && (rows[i].order.Some? ==> exists p ::
           0 <= p < |t.payments| && t.payments[p].order == rows[i].order.value)
    case Places(order) =>
      && t'.orders == t.orders + [order] && t'.payments == t.payments && t'.ledger == t.ledger
      && (order.providerOrder.Some? ==> FreshProviderOrder(t, order.providerOrder.value) && IsOpen(order.status))
      && order.status != Abandoned
    case Settles(o, status, ref) =>
      && o < |t.orders| && t.orders[o].providerOrder.Some?
      && (status == OrderStatus.Succeeded || status == OrderStatus.Failed)
      && t.orders[o].status != status
      && t'.orders == t.orders[o := t.orders[o].(status := status)]
      && t'.payments == RecordPayment(t.payments, o, ref, PaymentStatusFor(status))
      && t'.ledger == t.ledger + [OrderRow(SettlingEvent(status), o, Some(PaymentRow(t, o)), t.orders[o].status,
                                           status, t.orders[o].learner)]
    case Abandons(o) =>
      && o < |t.orders| && IsOpen(t.orders[o].status)
      && t'.orders == t.orders[o := t.orders[o].(status := Abandoned)]
      && t'.payments == t.payments
      && t'.ledger == t.ledger + [OrderRow(OrderAbandonedEvent, o, None, t.orders[o].status, Abandoned,
                                           t.orders[o].learner)]
  }

  /** An order of a free offer: succeeded at checkout without the provider. */
  predicate IsFree(order: Order) {
    order.providerOrder.None? && order.status == OrderStatus.Succeeded
  }

  /** The order that starts or is captured in this very change, if any: the one an entitlement is for. */
  function PaidFor(t: Tables, h: OrderEffect): Option<nat> {
    if h.Settles? && h.status == OrderStatus.Succeeded then Some(h.o)
    else if h.Places? && IsFree(h.order) then Some(|t.orders|)
    else None
  }

  /** Entitlements are given for the order that is paid in the same change, or by an administrator. */
  ghost predicate Linked(t: Tables, g: GrantEffect, h: OrderEffect) {
    && (PaidFor(t, h).Some? ==> g.Gives? && g.entitlement.order == PaidFor(t, h))
    && (g.Gives? ==>
          && g.entitlement.order == PaidFor(t, h) && (h.Leaves? || PaidFor(t, h).Some?)
          && g.rows == if h.Settles? then [AuditRow(Granted, |t.entitlements|, g.entitlement.learner, None)]
                       else if h.Places? then []
                       else [AuditRow(AdminGrant, |t.entitlements|, g.entitlement.grantedBy.GetOr(0), None)])
  }

  ghost predicate Changed(t: Tables, t': Tables, g: GrantEffect, h: OrderEffect) {
    Effected(t, t', g) && OrderEffected(t, t', h) && Linked(t, g, h)
  }

  /** The steps that may end an entitlement. */
  predicate TakesAccess(s: Step) {
    s.Expire? || (s.Webhook? && (s.ev.RefundProcessed? || s.ev.DisputeLost?))
  }

  /** The order a step captures a payment for, when the step grants an entitlement for it. */
  function CapturedOrder(t: Tables, s: Step): Option<nat> {
    if s.Webhook? && s.ev.PaymentCaptured? then
      var found := Pick(t.orders, WithProviderOrder(s.ev.orderRef), s.plan.order);
      if && found.Some? && t.orders[found.value].status != OrderStatus.Succeeded
         && t.orders[found.value].offer in t.offers && t.offers[t.orders[found.value].offer].course in t.courses
      then found
      else None
    else None
  }

  /** Which steps have which effects. */
  ghost predicate Causes(t: Tables, s: Step, g: GrantEffect, h: OrderEffect) {
    && (g.Withdraws? ==> TakesAccess(s) && (s.Expire? ==> s.entitlement == g.e))
    && (g.Enrolls? ==> s == Enroll(g.key.0, g.key.1))
    && (g.Gives? && !h.Settles? ==> s.FreeCheckout? || s.GrantAccess?)
    && (h.Settles? ==>
          && s.Webhook? && (if h.status == OrderStatus.Succeeded then s.ev.PaymentCaptured? else s.ev.PaymentFailed?)
          && Pick(t.orders, WithProviderOrder(s.ev.orderRef), s.plan.order) == Some(h.o)
          && h.paymentRef == s.ev.paymentRef)
    && (h.Settles? && h.status == OrderStatus.Succeeded <==> CapturedOrder(t, s).Some?)
    && (h.Abandons? ==> s == Abandon(h.o))
    && (h.Places? ==> s.Checkout? || s.CheckoutRejected? || s.FreeCheckout?)
  }

  lemma CaptureEffects(t: Tables, s: Step) returns (g: GrantEffect, h: OrderEffect)
    requires s.Webhook? && s.ev.PaymentCaptured?
    ensures Changed(t, After(t, s), g, h) && Causes(t, s, g, h)
  {
    g, h := Keeps, Leaves([]);
    var o := CapturedOrder(t, s);
    if o.Some? {
      var order := t.orders[o.value];
      var offer := t.offers[order.offer];
      g := Gives(Entitlement(o, order.learner, offer.course, GrantStatus.Active, ExpiryFor(offer, s.now), None),
                 [AuditRow(Granted, |t.entitlements|, order.learner, None)]);
      h := Settles(o.value, OrderStatus.Succeeded, s.ev.paymentRef);
    }
  }

  lemma FailEffects(t: Tables, s: Step) returns (g: GrantEffect, h: OrderEffect)
    requires s.Webhook? && s.ev.PaymentFailed?
    ensures Changed(t, After(t, s), g, h) && Causes(t, s, g, h)
  {
    g, h := Keeps, Leaves([]);
    var o := Pick(t.orders, WithProviderOrder(s.ev.orderRef), s.plan.order);
    if o.Some? && t.orders[o.value].status != OrderStatus.Failed {
      h := Settles(o.value, OrderStatus.Failed, s.ev.paymentRef);
    }
  }

  lemma RevokeEffect(t: Tables, payment: Payment, cause: LedgerEvent, plan: Plan) returns (g: GrantEffect)
    ensures var t' := RevokeFor(t, payment, cause, plan);
      && Effected(t, t', g) && (g.Keeps? || g.Withdraws?)
      && t'.orders == t.orders && t'.payments == t.payments && t'.ledger == t.ledger
      && t'.refunds == t.refunds && t'.chargebacks == t.chargebacks
  {
    g := Keeps;
    var found := Pick(t.entitlements, GrantedForOrder(payment.order), plan.entitlement);
    if found.Some? && t.entitlements[found.value].status == GrantStatus.Active {
      g := Withdraws(found.value, GrantStatus.Revoked,
                     AuditRow(AuditAction.Revoked, found.value, t.entitlements[found.value].learner, Some(cause)));
    }
  }

  lemma RefundProcessedEffects(t: Tables, s: Step) returns (g: GrantEffect, h: OrderEffect)
    requires s.Webhook? && s.ev.RefundProcessed?
    ensures Changed(t, After(t, s), g, h) && Causes(t, s, g, h)
  {
    g, h := Keeps, Leaves([]);
    var p := Pick(t.payments, WithProviderPayment(s.ev.paymentRef), s.plan.payment);
    var r := Pick(t.refunds, WithProviderRefund(s.ev.refundRef), s.plan.refund);
    if p.Some? && !(r.Some? && t.refunds[r.value].status == RefundStatus.Succeeded) {
      g := RevokeEffect(t, t.payments[p.value], RefundProcessedEvent, s.plan);
      h := Leaves([PaymentLedgerRow(RefundProcessedEvent, t.payments[p.value], p.value,
                                    Some(RefundState(RefundStatus.Pending)), RefundState(RefundStatus.Succeeded), None)]);
    }
  }

  lemma RefundFailedEffects(t: Tables, s: Step) returns (g: GrantEffect, h: OrderEffect)
    requires s.Webhook? && s.ev.RefundFailed?
    ensures Changed(t, After(t, s), g, h) && Causes(t, s, g, h)
  {
    g, h := Keeps, Leaves([]);
    var r := Pick(t.refunds, WithProviderRefund(s.ev.refundRef), s.plan.refund);
    if r.Some? && t.refunds[r.value].status != RefundStatus.Failed {
      h := Leaves([LedgerRow(RefundFailedEvent, None, Some(t.refunds[r.value].payment),
                             Some(RefundState(t.refunds[r.value].status)), RefundState(RefundStatus.Failed), None, None)]);
    }
  }

  lemma DisputeCreatedEffects(t: Tables, s: Step) returns (g: GrantEffect, h: OrderEffect)
    requires s.Webhook? && s.ev.DisputeCreated?
    ensures Changed(t, After(t, s), g, h) && Causes(t, s, g, h)
  {
    g, h := Keeps, Leaves([]);
    var p := Pick(t.payments, WithProviderPayment(s.ev.paymentRef), s.plan.payment);
    if p.Some? {
      var c := Latest(t.chargebacks, AgainstPayment(p.value));
      if !(c.Some? && t.chargebacks[c.value].status == ChargebackStatus.Pending) {
        h := Leaves([PaymentLedgerRow(DisputeCreatedEvent, t.payments[p.value], p.value, None,
                                      ChargebackState(ChargebackStatus.Pending), Some(s.ev.reason))]);
      }
    }
  }

  lemma DisputeWonEffects(t: Tables, s: Step) returns (g: GrantEffect, h: OrderEffect)
    requires s.Webhook? && s.ev.DisputeWon?
    ensures Changed(t, After(t, s), g, h) && Causes(t, s, g, h)
  {
    g, h := Keeps, Leaves([]);
    var p := Pick(t.payments, WithProviderPayment(s.ev.paymentRef), s.plan.payment);
    if p.Some? {
      var was := DisputeStatus(t.chargebacks, p.value);
      if was != Won {
        h := Leaves([PaymentLedgerRow(DisputeWonEvent, t.payments[p.value], p.value, Some(ChargebackState(was)),
                                      ChargebackState(Won), None)]);
      }
    }
  }

  lemma DisputeLostEffects(t: Tables, s: Step) returns (g: GrantEffect, h: OrderEffect)
    requires s.Webhook? && s.ev.DisputeLost?
    ensures Changed(t, After(t, s), g, h) && Causes(t, s, g, h)
  {
    g, h := Keeps, Leaves([]);
    var p := Pick(t.payments, WithProviderPayment(s.ev.paymentRef), s.plan.payment);
    if p.Some? {
      var was := DisputeStatus(t.chargebacks, p.value);
      if was != Lost {
        g := RevokeEffect(t, t.payments[p.value], DisputeLostEvent, s.plan);
        h := Leaves([PaymentLedgerRow(DisputeLostEvent, t.payments[p.value], p.value, Some(ChargebackState(was)),
                                      ChargebackState(Lost), None)]);
      }
    }
  }

  lemma SweepEffects(t: Tables, s: Step) returns (g: GrantEffect, h: OrderEffect)
    requires s.Abandon? || s.Expire?
    ensures Changed(t, After(t, s), g, h) && Causes(t, s, g, h)
  {
    g, h := Keeps, Leaves([]);
    if s.Abandon? {
      if s.order < |t.orders| && IsOpen(t.orders[s.order].status) {
        h := Abandons(s.order);
      }
    } else if s.entitlement < |t.entitlements| && Lapsed(t.entitlements[s.entitlement], s.now) {
      g := Withdraws(s.entitlement, GrantStatus.Expired,
                     AuditRow(AuditAction.Expired, s.entitlement, t.entitlements[s.entitlement].learner, None));
    }
  }

  lemma CheckoutEffects(t: Tables, s: Step) returns (g: GrantEffect, h: OrderEffect)
    requires s.Checkout? || s.CheckoutRejected? || s.FreeCheckout?
    ensures Changed(t, After(t, s), g, h) && Causes(t, s, g, h)
  {
    g, h := Keeps, Leaves([]);
    match s {
      case Checkout(offer, learner, discount, createdAt, ref, status) =>
        if IsOpen(status) && (ref.Some? ==> FreshProviderOrder(t, ref.value)) {
          h := Places(Order(offer, learner, status, ref, discount, createdAt));
        }
      case CheckoutRejected(offer, learner, discount, createdAt) =>
        h := Places(Order(offer, learner, OrderStatus.Failed, None, discount, createdAt));
      case FreeCheckout(offer, learner, discount, createdAt) =>
        if && offer in t.offers && t.offers[offer].kind == Free
           && (discount.Some? ==> Redeemable(t.discounts, discount)) {
          g := Gives(Entitlement(Some(|t.orders|), learner, t.offers[offer].course, GrantStatus.Active, None, None), []);
          h := Places(Order(offer, learner, OrderStatus.Succeeded, None, discount, createdAt));
        }
    }
  }

  lemma StaffEffects(t: Tables, s: Step) returns (g: GrantEffect, h: OrderEffect)
    requires s.Enroll? || s.GrantAccess? || s.RequestRefund? || s.EditCatalogue?
    ensures Changed(t, After(t, s), g, h) && Causes(t, s, g, h)
  {
    g, h := Keeps, Leaves([]);
    match s {
      case Enroll(learner, course) =>
        if (learner, course) !in t.access { g := Enrolls((learner, course)); }
      case GrantAccess(learner, course, grantedBy, reason) =>
        g := Gives(Entitlement(None, learner, course, GrantStatus.Active, None, Some(grantedBy)),
                   [AuditRow(AdminGrant, |t.entitlements|, grantedBy, None)]);
        h := Leaves([LedgerRow(EntitlementGrantedEvent, None, None, None, GrantState(GrantStatus.Active), Some(reason),
                               Some(grantedBy))]);
      case RequestRefund(p, refundRef, amount) =>
        if p < |t.payments| {
          h := Leaves([PaymentLedgerRow(RefundInitiatedEvent, t.payments[p], p, Some(PaymentState(t.payments[p].status)),
                                        RefundState(RefundStatus.Pending), None)]);
        }
      case _ =>
    }
  }

  lemma Effects(t: Tables, s: Step) returns (g: GrantEffect, h: OrderEffect)
    ensures Changed(t, After(t, s), g, h) && Causes(t, s, g, h)
  {
    match s {
      case Webhook(ev, _, _) =>
        match ev {
          case PaymentCaptured(_, _) => g, h := CaptureEffects(t, s);
          case PaymentFailed(_, _) => g, h := FailEffects(t, s);
          case RefundProcessed(_, _, _) => g, h := RefundProcessedEffects(t, s);
          case RefundFailed(_) => g, h := RefundFailedEffects(t, s);
          case DisputeCreated(_, _, _) => g, h := DisputeCreatedEffects(t, s);
          case DisputeWon(_, _, _) => g, h := DisputeWonEffects(t, s);
          case DisputeLost(_, _, _) => g, h := DisputeLostEffects(t, s);
          case EntityMissing => g, h := Keeps, Leaves([]);
          case Unrecognized => g, h := Keeps, Leaves([]);
        }
      case Abandon(_) => g, h := SweepEffects(t, s);
      case Expire(_, _) => g, h := SweepEffects(t, s);
      case Checkout(_, _, _, _, _, _) => g, h := CheckoutEffects(t, s);
      case CheckoutRejected(_, _, _, _) => g, h := CheckoutEffects(t, s);
      case FreeCheckout(_, _, _, _) => g, h := CheckoutEffects(t, s);
      case Enroll(_, _) => g, h := StaffEffects(t, s);
      case GrantAccess(_, _, _, _) => g, h := StaffEffects(t, s);
      case RequestRefund(_, _, _) => g, h := StaffEffects(t, s);
      case EditCatalogue(_, _, _) => g, h := StaffEffects(t, s);
    }
  }
}
