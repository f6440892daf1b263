/**
 * Everything that changes the commerce tables, as steps of a transition system:
 * the webhook events, the items of the two sweeps, and the request handlers
 * that write the same tables. Each step is one committed transaction; a step
 * whose guard fails changes nothing. A run is any sequence of steps.
 */
module CommerceSteps {
  import opened Common
  import opened CommerceTables
  import opened CommerceHandlers

  datatype Step =
    | Webhook(ev: Event, plan: Plan, now: int)
    | Abandon(order: nat)
    | Expire(entitlement: nat, now: int)
    | Checkout(offer: nat, learner: nat, discount: Option<nat>, createdAt: int, ref: Option<string>,
               status: OrderStatus)
    | CheckoutRejected(offer: nat, learner: nat, discount: Option<nat>, createdAt: int)
    | FreeCheckout(offer: nat, learner: nat, discount: Option<nat>, createdAt: int)
    | Enroll(learner: nat, course: nat)
    | GrantAccess(learner: nat, course: nat, grantedBy: nat, reason: string)
    | RequestRefund(payment: nat, refundRef: string, amount: real)
    | EditCatalogue(offers: map<nat, Offer>, courses: map<nat, string>, discounts: map<nat, DiscountCode>)

  function After(t: Tables, s: Step): Tables {
    match s
    case Webhook(ev, plan, now) =>
      (match Handle(t, ev, plan, now) case Rejected => t case Committed(t', _) => t')
    case Abandon(o) => AbandonOne(t, o)
    case Expire(e, now) => ExpireOne(t, e, now)
    case Checkout(offer, learner, discount, createdAt, ref, status) =>
      if IsOpen(status) && (ref.Some? ==> FreshProviderOrder(t, ref.value))
      then t.(orders := t.orders + [Order(offer, learner, status, ref, discount, createdAt)])
      else t
    case CheckoutRejected(offer, learner, discount, createdAt) =>
      t.(orders := t.orders + [Order(offer, learner, OrderStatus.Failed, None, discount, createdAt)])
    case FreeCheckout(offer, learner, discount, createdAt) =>
      if offer in t.offers && t.offers[offer].kind == Free && (discount.Some? ==> Redeemable(t.discounts, discount)) then
        var e := Entitlement(Some(|t.orders|), learner, t.offers[offer].course, GrantStatus.Active, None, None);
        Grant(t, e).(orders := t.orders + [Order(offer, learner, OrderStatus.Succeeded, None, discount, createdAt)],
                     discounts := Redeem(t.discounts, discount))
      else t
    case Enroll(learner, course) =>
      if (learner, course) in t.access then t
      else t.(access := t.access[(learner, course) := Access(None, GrantStatus.Active)])
    case GrantAccess(learner, course, grantedBy, reason) =>
      var e := Entitlement(None, learner, course, GrantStatus.Active, None, Some(grantedBy));
      Grant(t, e).(audit := t.audit + [AuditRow(AdminGrant, |t.entitlements|, grantedBy, None)],
                   ledger := t.ledger + [LedgerRow(EntitlementGrantedEvent, None, None, None,
                                                   GrantState(GrantStatus.Active), Some(reason), Some(grantedBy))])
    case RequestRefund(p, refundRef, amount) =>
      if p < |t.payments| then
        t.(refunds := t.refunds + [Refund(p, Some(refundRef), RefundStatus.Pending, amount)],
           ledger := t.ledger + [PaymentLedgerRow(RefundInitiatedEvent, t.payments[p], p,
                                                  Some(PaymentState(t.payments[p].status)),
                                                  RefundState(RefundStatus.Pending), None)])
      else t
    case EditCatalogue(offers, courses, discounts) =>
      t.(offers := offers, courses := courses, discounts := discounts)
  }

  predicate FreshProviderOrder(t: Tables, ref: string) {
    forall i | 0 <= i < |t.orders| :: t.orders[i].providerOrder != Some(ref)
  }

  /** The tables after a run. */
  function Run(t: Tables, steps: seq<Step>): Tables {
    if steps == [] then t else After(Run(t, steps[..|steps| - 1]), steps[|steps| - 1])
  }

  ghost predicate Reachable(t: Tables) {
    exists steps :: t == Run(EMPTY, steps)
  }

  lemma {:induction false} RunConcat(t: Tables, first: seq<Step>, rest: seq<Step>)
    ensures Run(t, first + rest) == Run(Run(t, first), rest)
  {
    if rest == [] {
      assert first + rest == first;
    } else {
      var init := rest[..|rest| - 1];
      assert (first + rest)[..|first + rest| - 1] == first + init;
      RunConcat(t, first, init);
    }
  }
}
