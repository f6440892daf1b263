/**
 * What each event, sweep item and request answers, row by row: which rows it
 * adds or changes and to what, and that every other row stays. The rows an
 * event is about are told by the columns it compares. What this means over
 * runs for a learner who paid, and for one whose payment was taken back.
 */
module CommerceOutcomes {
  import opened Common
  import opened CommerceTables
  import opened CommerceHandlers
  import opened CommerceSteps
  import opened CommerceEffects
  import opened CommerceRuns

  // ----- The rows an event finds -----

  ghost predicate OrderKnown(t: Tables, ref: string) {
    exists o :: 0 <= o < |t.orders| && t.orders[o].providerOrder == Some(ref)
  }

  ghost predicate PaymentKnown(t: Tables, ref: string) {
    exists p :: 0 <= p < |t.payments| && t.payments[p].providerPayment == Some(ref)
  }

  ghost predicate RefundKnown(t: Tables, ref: string) {
    exists r :: 0 <= r < |t.refunds| && t.refunds[r].providerRefund == Some(ref)
  }

  /** Order `o` has the provider's id, and is the one the plan names if that has it too. */
  predicate FoundOrder(t: Tables, ref: string, plan: Plan, o: nat) {
    && o < |t.orders| && t.orders[o].providerOrder == Some(ref)
    && (plan.order < |t.orders| && t.orders[plan.order].providerOrder == Some(ref) ==> o == plan.order)
  }

  predicate FoundPayment(t: Tables, ref: string, plan: Plan, p: nat) {
    && p < |t.payments| && t.payments[p].providerPayment == Some(ref)
    && (plan.payment < |t.payments| && t.payments[plan.payment].providerPayment == Some(ref) ==> p == plan.payment)
  }

  predicate FoundRefund(t: Tables, ref: string, plan: Plan, r: nat) {
    && r < |t.refunds| && t.refunds[r].providerRefund == Some(ref)
    && (plan.refund < |t.refunds| && t.refunds[plan.refund].providerRefund == Some(ref) ==> r == plan.refund)
  }

  predicate FoundEntitlement(t: Tables, order: nat, plan: Plan, e: nat) {
    && e < |t.entitlements| && t.entitlements[e].order == Some(order)
    && (plan.entitlement < |t.entitlements| && t.entitlements[plan.entitlement].order == Some(order) ==>
          e == plan.entitlement)
  }

  /** Row `c` is the newest chargeback of payment `p`. */
  ghost predicate NewestDispute(rows: seq<Chargeback>, p: nat, c: nat) {
    && c < |rows| && rows[c].payment == p
    && forall i | c < i < |rows| :: rows[i].payment != p
  }

  ghost predicate Undisputed(rows: seq<Chargeback>, p: nat) {
    forall i | 0 <= i < |rows| :: rows[i].payment != p
  }

  /** An event about a row that is not there is an error, except for a failed refund; an error changes nothing. */
  lemma UnknownRowsRejected(t: Tables, ev: Event, plan: Plan, now: int)
    ensures ev.PaymentFailed? ==> (Handle(t, ev, plan, now).Rejected? <==> !OrderKnown(t, ev.orderRef))
    ensures ev.PaymentCaptured? && !OrderKnown(t, ev.orderRef) ==> Handle(t, ev, plan, now).Rejected?
    ensures ev.RefundProcessed? || ev.DisputeCreated? || ev.DisputeWon? || ev.DisputeLost? ==>
              (Handle(t, ev, plan, now).Rejected? <==> !PaymentKnown(t, ev.paymentRef))
    ensures ev.RefundFailed? && !RefundKnown(t, ev.refundRef) ==> Handle(t, ev, plan, now) == Committed(t, None)
    ensures ev.EntityMissing? ==> Handle(t, ev, plan, now).Rejected?
    ensures ev.Unrecognized? ==> Handle(t, ev, plan, now) == Committed(t, None)
    ensures Handle(t, ev, plan, now).Rejected? ==> After(t, Webhook(ev, plan, now)) == t
  {
    if ev.PaymentCaptured? || ev.PaymentFailed? {
      KnownOrder(t, ev.orderRef, plan);
    } else if ev.RefundProcessed? || ev.DisputeCreated? || ev.DisputeWon? || ev.DisputeLost? {
      KnownPayment(t, ev.paymentRef, plan);
    } else if ev.RefundFailed? {
      KnownRefund(t, ev.refundRef, plan);
    }
  }

  lemma KnownOrder(t: Tables, ref: string, plan: Plan)
    ensures OrderKnown(t, ref) <==> Pick(t.orders, WithProviderOrder(ref), plan.order).Some?
    ensures OrderKnown(t, ref) ==> FoundOrder(t, ref, plan, Pick(t.orders, WithProviderOrder(ref), plan.order).value)
  {
    forall o | 0 <= o < |t.orders| && t.orders[o].providerOrder == Some(ref) ensures WithProviderOrder(ref)(t.orders[o]) {
    }
  }

  lemma KnownPayment(t: Tables, ref: string, plan: Plan)
    ensures PaymentKnown(t, ref) <==> Pick(t.payments, WithProviderPayment(ref), plan.payment).Some?
    ensures PaymentKnown(t, ref) ==>
              FoundPayment(t, ref, plan, Pick(t.payments, WithProviderPayment(ref), plan.payment).value)
  {
    forall p | 0 <= p < |t.payments| && t.payments[p].providerPayment == Some(ref)
      ensures WithProviderPayment(ref)(t.payments[p]) {
    }
  }

  lemma KnownRefund(t: Tables, ref: string, plan: Plan)
    ensures RefundKnown(t, ref) <==> Pick(t.refunds, WithProviderRefund(ref), plan.refund).Some?
    ensures RefundKnown(t, ref) ==>
              FoundRefund(t, ref, plan, Pick(t.refunds, WithProviderRefund(ref), plan.refund).value)
  {
    forall r | 0 <= r < |t.refunds| && t.refunds[r].providerRefund == Some(ref)
      ensures WithProviderRefund(ref)(t.refunds[r]) {
    }
  }

  // ----- A settled order -----

  /** The one payment row of order `o`, new or not, is row `p` and now carries the event's id and status. */
  ghost predicate PaymentSettled(t: Tables, t': Tables, o: nat, p: nat, ref: string, status: PaymentStatus) {
    || (p == |t.payments| && (forall q | 0 <= q < |t.payments| :: t.payments[q].order != o)
        && t'.payments == t.payments + [Payment(o, Some(ref), status)])
    || (p < |t.payments| && t.payments[p].order == o && (forall q | p < q < |t.payments| :: t.payments[q].order != o)
        && t'.payments == t.payments[p := Payment(o, Some(ref), status)])
  }

  /** Order `o` gets a status, its payment row agrees, and a row of the audit trail says from what to what. */
  ghost predicate OrderSettledAs(t: Tables, t': Tables, o: nat, ref: string, status: OrderStatus, paid: PaymentStatus,
                                 event: LedgerEvent)
    requires o < |t.orders|
  {
    && t'.orders == t.orders[o := t.orders[o].(status := status)]
    && exists p: nat :: PaymentSettled(t, t', o, p, ref, paid)
         && t'.ledger == t.ledger + [LedgerRow(event, Some(o), Some(p), Some(OrderState(t.orders[o].status)),
                                               OrderState(status), None, Some(t.orders[o].learner))]
  }

  lemma SettledRow(t: Tables, t': Tables, o: nat, ref: string, status: PaymentStatus)
    requires t'.payments == RecordPayment(t.payments, o, ref, status)
    ensures PaymentSettled(t, t', o, PaymentRow(t, o), ref, status)
  {
    var row := Latest(t.payments, OfOrder(o));
    if row.Some? {
      assert OfOrder(o)(t.payments[row.value]);
      forall q | row.value < q < |t.payments| ensures t.payments[q].order != o {
        assert !OfOrder(o)(t.payments[q]);
      }
    } else {
      forall q | 0 <= q < |t.payments| ensures t.payments[q].order != o {
        assert !OfOrder(o)(t.payments[q]);
      }
    }
  }

  /** A late or an early payment.failed: any order not yet failed is, with its payment row; no access changes. */
  ghost predicate FailAnswers(t: Tables, o: nat, ref: string, r: Outcome)
    requires o < |t.orders|
  {
    && r.Committed? && r.receipt.None?
    && if t.orders[o].status == OrderStatus.Failed then r.tables == t
       else
         && OrderSettledAs(t, r.tables, o, ref, OrderStatus.Failed, PaymentStatus.Failed, PaymentFailedEvent)
         && r.tables == t.(orders := r.tables.orders, payments := r.tables.payments, ledger := r.tables.ledger)
  }

  lemma PaymentFailedAnswers(t: Tables, orderRef: string, paymentRef: string, plan: Plan, now: int) returns (o: nat)
    requires OrderKnown(t, orderRef)
    ensures FoundOrder(t, orderRef, plan, o)
    ensures FailAnswers(t, o, paymentRef, Handle(t, PaymentFailed(orderRef, paymentRef), plan, now))
  {
    KnownOrder(t, orderRef, plan);
    o := Pick(t.orders, WithProviderOrder(orderRef), plan.order).value;
    if t.orders[o].status != OrderStatus.Failed {
      SettledRow(t, Fail(t, o, paymentRef), o, paymentRef, PaymentStatus.Failed);
    }
  }

  // ----- A captured payment -----

  /** Subscriptions expire after their days, in 64-bit nanoseconds; nothing else does. */
  ghost predicate ExpiresAsSold(offer: Offer, now: int, expiresAt: Option<int>) {
    && (expiresAt.Some? <==> offer.kind == Subscription && offer.accessDays.Some?)
    && (expiresAt.Some? ==>
          && var nanos, days := expiresAt.value - now, offer.accessDays.value;
          && -0x8000_0000_0000_0000 <= nanos < 0x8000_0000_0000_0000
          && (days * 86_400_000_000_000 - nanos) % 0x1_0000_0000_0000_0000 == 0
          && (-106_751 <= days <= 106_751 ==> nanos == days * 86_400_000_000_000))
  }

  lemma ExpirySold(offer: Offer, now: int)
    ensures ExpiresAsSold(offer, now, ExpiryFor(offer, now))
  {
    if offer.accessDays.Some? {
      WrapIs(offer.accessDays.value * 86_400_000_000_000);
    }
  }

  lemma WrapIs(n: int)
    ensures -0x8000_0000_0000_0000 <= Wrap64(n) < 0x8000_0000_0000_0000
    ensures (n - Wrap64(n)) % 0x1_0000_0000_0000_0000 == 0
    ensures -0x8000_0000_0000_0000 <= n < 0x8000_0000_0000_0000 ==> Wrap64(n) == n
  {
    var m := n + 0x8000_0000_0000_0000;
    assert n - Wrap64(n) == m - m % 0x1_0000_0000_0000_0000;
  }

  /** The learner of order `o` has one entitlement more: the offer's course, active, and the access row rests on it. */
  ghost predicate CourseGranted(t: Tables, t': Tables, o: nat, now: int)
    requires o < |t.orders| && t.orders[o].offer in t.offers
  {
    var learner, offer, e := t.orders[o].learner, t.offers[t.orders[o].offer], |t.entitlements|;
    && |t'.entitlements| == e + 1 && t'.entitlements[..e] == t.entitlements
    && t'.entitlements[e].order == Some(o) && t'.entitlements[e].grantedBy == None
    && t'.entitlements[e].learner == learner && t'.entitlements[e].course == offer.course
    && t'.entitlements[e].status == GrantStatus.Active
    && ExpiresAsSold(offer, now, t'.entitlements[e].expiresAt)
    && t'.access == t.access[(learner, offer.course) := Access(Some(e), GrantStatus.Active)]
    && t'.audit == t.audit + [AuditRow(Granted, e, learner, None)]
  }

  predicate BelowCap(code: DiscountCode) {
    code.maxRedemptions.None? || code.redemptions < code.maxRedemptions.value
  }

  /** A code below its cap is redeemed once more; `redeemed` says whether one was. */
  ghost predicate CodeRedeemed(t: Tables, t': Tables, code: Option<nat>, redeemed: bool) {
    && (redeemed <==> code.Some? && code.value in t.discounts && BelowCap(t.discounts[code.value]))
    && t'.discounts == if !redeemed then t.discounts
                       else var d := t.discounts[code.value];
                            t.discounts[code.value := DiscountCode(d.maxRedemptions, d.redemptions + 1)]
  }

  ghost predicate CaptureAnswers(t: Tables, o: nat, ref: string, now: int, r: Outcome)
    requires o < |t.orders|
  {
    var order := t.orders[o];
    if order.status == OrderStatus.Succeeded then r == Committed(t, None)
    else if order.offer !in t.offers || t.offers[order.offer].course !in t.courses then r.Rejected?
    else
      var course := t.offers[order.offer].course;
      && r.Committed? && r.receipt.Some?
      && var t', receipt := r.tables, r.receipt.value;
      && CourseGranted(t, t', o, now)
      && OrderSettledAs(t, t', o, ref, OrderStatus.Succeeded, PaymentStatus.Succeeded, PaymentCapturedEvent)
      && CodeRedeemed(t, t', order.discount, receipt.codeRedeemed)
      && receipt.order == o && receipt.learner == order.learner && receipt.course == course
      && receipt.courseTitle == t.courses[course]
      && t'.refunds == t.refunds && t'.chargebacks == t.chargebacks && t'.offers == t.offers && t'.courses == t.courses
  }

  /** For every plan: a captured event answers for an order it finds, and for that order as follows. */
  lemma PaymentCapturedAnswers(t: Tables, orderRef: string, paymentRef: string, plan: Plan, now: int) returns (o: nat)
    requires OrderKnown(t, orderRef)
    ensures FoundOrder(t, orderRef, plan, o)
    ensures CaptureAnswers(t, o, paymentRef, now, Handle(t, PaymentCaptured(orderRef, paymentRef), plan, now))
  {
    KnownOrder(t, orderRef, plan);
    o := Pick(t.orders, WithProviderOrder(orderRef), plan.order).value;
    if t.orders[o].offer in t.offers {
      ExpirySold(t.offers[t.orders[o].offer], now);
      SettledRow(t, Capture(t, o, paymentRef, now), o, paymentRef, PaymentStatus.Succeeded);
    }
  }

  // ----- Taking access back -----

  /** Entitlement `e` and the access of its learner to its course end; one row says so. No other changes. */
  ghost predicate Revokes(t: Tables, t': Tables, e: nat, cause: LedgerEvent)
    requires e < |t.entitlements|
  {
    var was := t.entitlements[e];
    var key := (was.learner, was.course);
    && t'.entitlements == t.entitlements[e := was.(status := GrantStatus.Revoked)]
    && t'.access.Keys == t.access.Keys
    && (key in t.access ==> t'.access[key] == Access(t.access[key].entitlement, GrantStatus.Revoked))
    && (forall k | k in t.access && k != key :: t'.access[k] == t.access[k])
    && t'.audit == t.audit + [AuditRow(AuditAction.Revoked, e, was.learner, Some(cause))]
  }

  ghost predicate GrantsStay(t: Tables, t': Tables) {
    t'.entitlements == t.entitlements && t'.access == t.access && t'.audit == t.audit
  }

  /** What the payment of `order` bought is taken away if it is active; if it is not, or it bought nothing, nothing is. */
  ghost predicate TakesBack(t: Tables, t': Tables, order: nat, plan: Plan, cause: LedgerEvent) {
    || (GrantsStay(t, t') && forall e | 0 <= e < |t.entitlements| :: t.entitlements[e].order != Some(order))
    || exists e: nat :: FoundEntitlement(t, order, plan, e)
         && if t.entitlements[e].status == GrantStatus.Active then Revokes(t, t', e, cause) else GrantsStay(t, t')
  }

  lemma RevokeTakesBack(t: Tables, payment: Payment, cause: LedgerEvent, plan: Plan)
    ensures TakesBack(t, RevokeFor(t, payment, cause, plan), payment.order, plan, cause)
  {
    var found := Pick(t.entitlements, GrantedForOrder(payment.order), plan.entitlement);
    if found.None? {
      forall e | 0 <= e < |t.entitlements| ensures t.entitlements[e].order != Some(payment.order) {
        assert !GrantedForOrder(payment.order)(t.entitlements[e]);
      }
    } else {
      var e := found.value;
      assert GrantedForOrder(payment.order)(t.entitlements[e]);
      if plan.entitlement < |t.entitlements| && t.entitlements[plan.entitlement].order == Some(payment.order) {
        assert GrantedForOrder(payment.order)(t.entitlements[plan.entitlement]);
      }
      assert FoundEntitlement(t, payment.order, plan, e);
    }
  }

  /** The audit trail gets one row about payment `p`. */
  ghost predicate PaymentLogged(t: Tables, t': Tables, p: nat, event: LedgerEvent, before: Option<State>, after: State,
                                reason: Option<string>)
    requires p < |t.payments|
  {
    t'.ledger == t.ledger + [LedgerRow(event, Some(t.payments[p].order), Some(p), before, after, reason, None)]
  }

  /** Orders, payments and the catalogue are as they were. */
  ghost predicate SalesStay(t: Tables, t': Tables) {
    && t'.orders == t.orders && t'.payments == t.payments
    && t'.offers == t.offers && t'.courses == t.courses && t'.discounts == t.discounts
  }

  // ----- Refunds -----

  /** The refund is a row of its own when it was unknown, and else marked on the row found. */
  ghost predicate RefundSettled(t: Tables, t': Tables, p: nat, ref: string, amount: int, plan: Plan) {
    || (!RefundKnown(t, ref)
        && t'.refunds == t.refunds + [Refund(p, Some(ref), RefundStatus.Succeeded, amount as real / 100.0)])
    || exists r: nat :: FoundRefund(t, ref, plan, r) && t.refunds[r].status != RefundStatus.Succeeded
         && t'.refunds == t.refunds[r := t.refunds[r].(status := RefundStatus.Succeeded)]
  }

  ghost predicate RefundAnswers(t: Tables, p: nat, ref: string, amount: int, plan: Plan, r: Outcome)
    requires p < |t.payments|
  {
    || (r == Committed(t, None)
        && exists q: nat :: FoundRefund(t, ref, plan, q) && t.refunds[q].status == RefundStatus.Succeeded)
    || (r.Committed? && r.receipt.None?
        && RefundSettled(t, r.tables, p, ref, amount, plan)
        && TakesBack(t, r.tables, t.payments[p].order, plan, RefundProcessedEvent)
        && PaymentLogged(t, r.tables, p, RefundProcessedEvent, Some(RefundState(RefundStatus.Pending)),
                         RefundState(RefundStatus.Succeeded), None)
        && SalesStay(t, r.tables) && r.tables.chargebacks == t.chargebacks)
  }

  /** A processed refund that had not succeeded is recorded, and takes away what the payment bought. */
  lemma RefundProcessedAnswers(t: Tables, refundRef: string, paymentRef: string, amount: int, plan: Plan, now: int)
    returns (p: nat)
    requires PaymentKnown(t, paymentRef)
    ensures FoundPayment(t, paymentRef, plan, p)
    ensures RefundAnswers(t, p, refundRef, amount, plan,
                          Handle(t, RefundProcessed(refundRef, paymentRef, amount), plan, now))
  {
    KnownPayment(t, paymentRef, plan);
    p := Pick(t.payments, WithProviderPayment(paymentRef), plan.payment).value;
    KnownRefund(t, refundRef, plan);
    RefundRecorded(t, p, refundRef, paymentRef, amount, plan, now);
  }

  lemma RefundRecorded(t: Tables, p: nat, refundRef: string, paymentRef: string, amount: int, plan: Plan, now: int)
    requires p < |t.payments| && Pick(t.payments, WithProviderPayment(paymentRef), plan.payment) == Some(p)
    requires var r := Pick(t.refunds, WithProviderRefund(refundRef), plan.refund);
      if r.Some? then FoundRefund(t, refundRef, plan, r.value) else !RefundKnown(t, refundRef)
    ensures RefundAnswers(t, p, refundRef, amount, plan,
                          Handle(t, RefundProcessed(refundRef, paymentRef, amount), plan, now))
  {
    var payment := t.payments[p];
    var r := Pick(t.refunds, WithProviderRefund(refundRef), plan.refund);
    if !(r.Some? && t.refunds[r.value].status == RefundStatus.Succeeded) {
      var withdrawn := RevokeFor(t, payment, RefundProcessedEvent, plan);
      RevokeTakesBack(t, payment, RefundProcessedEvent, plan);
      RevokeKeepsRest(t, payment, RefundProcessedEvent, plan);
      var t' := ProcessedRefund(t, refundRef, paymentRef, amount, plan).tables;
      TakesBackLikewise(t, withdrawn, t', payment.order, plan, RefundProcessedEvent);
      assert RefundSettled(t, t', p, refundRef, amount, plan);
    }
  }

  /** What is taken back shows on entitlements, access and audit rows only. */
  lemma TakesBackLikewise(t: Tables, t1: Tables, t2: Tables, order: nat, plan: Plan, cause: LedgerEvent)
    requires TakesBack(t, t1, order, plan, cause) && GrantsStay(t1, t2)
    ensures TakesBack(t, t2, order, plan, cause)
  {
    if e: nat :| FoundEntitlement(t, order, plan, e)
                 && if t.entitlements[e].status == GrantStatus.Active then Revokes(t, t1, e, cause) else GrantsStay(t, t1) {
      assert FoundEntitlement(t, order, plan, e);
    }
  }

  lemma RevokeKeepsRest(t: Tables, payment: Payment, cause: LedgerEvent, plan: Plan)
    ensures var t' := RevokeFor(t, payment, cause, plan);
      t' == t.(entitlements := t'.entitlements, access := t'.access, audit := t'.audit)
  {
  }

  ghost predicate RefundFailAnswers(t: Tables, r: nat, o: Outcome)
    requires r < |t.refunds|
  {
    var was := t.refunds[r];
    o == if was.status == RefundStatus.Failed then Committed(t, None)
         else Committed(t.(refunds := t.refunds[r := was.(status := RefundStatus.Failed)],
                           ledger := t.ledger + [LedgerRow(RefundFailedEvent, None, Some(was.payment),
                                                           Some(RefundState(was.status)),
                                                           RefundState(RefundStatus.Failed), None, None)]), None)
  }

  /** A failed refund marks its row and takes nothing away. */
  lemma RefundFailedAnswers(t: Tables, refundRef: string, plan: Plan, now: int) returns (r: nat)
    requires RefundKnown(t, refundRef)
    ensures FoundRefund(t, refundRef, plan, r)
    ensures RefundFailAnswers(t, r, Handle(t, RefundFailed(refundRef), plan, now))
  {
    KnownRefund(t, refundRef, plan);
    r := Pick(t.refunds, WithProviderRefund(refundRef), plan.refund).value;
  }

  // ----- Disputes -----

  ghost predicate OpenAnswers(t: Tables, p: nat, amount: int, reason: string, r: Outcome)
    requires p < |t.payments|
  {
    if exists c: nat :: NewestDispute(t.chargebacks, p, c) && t.chargebacks[c].status == ChargebackStatus.Pending
    then r == Committed(t, None)
    else
      && r.Committed? && r.receipt.None?
      && r.tables.chargebacks
           == t.chargebacks + [Chargeback(p, ChargebackStatus.Pending, amount as real / 100.0, Some(reason))]
      && PaymentLogged(t, r.tables, p, DisputeCreatedEvent, None, ChargebackState(ChargebackStatus.Pending), Some(reason))
      && GrantsStay(t, r.tables) && SalesStay(t, r.tables) && r.tables.refunds == t.refunds
  }

  lemma NewestIs(rows: seq<Chargeback>, p: nat)
    ensures var c := Latest(rows, AgainstPayment(p));
      && (c.None? ==> Undisputed(rows, p))
      && (c.Some? ==> NewestDispute(rows, p, c.value) && forall d: nat :: NewestDispute(rows, p, d) ==> d == c.value)
  {
    var c := Latest(rows, AgainstPayment(p));
    forall i | (if c.Some? then c.value else -1) < i < |rows| ensures rows[i].payment != p {
      assert !AgainstPayment(p)(rows[i]);
    }
    if c.Some? {
      assert AgainstPayment(p)(rows[c.value]);
    }
  }

  /** Once a dispute is opened the payment's newest chargeback is pending: a new one, unless it was so before. */
  lemma DisputeCreatedAnswers(t: Tables, paymentRef: string, amount: int, reason: string, plan: Plan, now: int)
    returns (p: nat)
    requires PaymentKnown(t, paymentRef)
    ensures FoundPayment(t, paymentRef, plan, p)
    ensures OpenAnswers(t, p, amount, reason, Handle(t, DisputeCreated(paymentRef, amount, reason), plan, now))
  {
    KnownPayment(t, paymentRef, plan);
    p := Pick(t.payments, WithProviderPayment(paymentRef), plan.payment).value;
    NewestIs(t.chargebacks, p);
  }

  /** The newest chargeback of the payment, or a new one that was pending, ends as told; `before` is what it was. */
  ghost predicate DisputeSettled(t: Tables, t': Tables, p: nat, amount: int, reason: string, before: ChargebackStatus,
                                 final: ChargebackStatus) {
    || (Undisputed(t.chargebacks, p) && before == ChargebackStatus.Pending
        && t'.chargebacks == t.chargebacks + [Chargeback(p, final, amount as real / 100.0, Some(reason))])
    || exists c: nat :: NewestDispute(t.chargebacks, p, c) && before == t.chargebacks[c].status
         && t'.chargebacks == t.chargebacks[c := t.chargebacks[c].(status := final)]
  }

  ghost predicate ResolveAnswers(t: Tables, p: nat, amount: int, reason: string, lost: bool, plan: Plan, r: Outcome)
    requires p < |t.payments|
  {
    var final, event := if lost then Lost else Won, if lost then DisputeLostEvent else DisputeWonEvent;
    if exists c: nat :: NewestDispute(t.chargebacks, p, c) && t.chargebacks[c].status == final
    then r == Committed(t, None)
    else
      && r.Committed? && r.receipt.None?
      && (exists before :: DisputeSettled(t, r.tables, p, amount, reason, before, final)
            && PaymentLogged(t, r.tables, p, event, Some(ChargebackState(before)), ChargebackState(final), None))
      && (if lost then TakesBack(t, r.tables, t.payments[p].order, plan, DisputeLostEvent) else GrantsStay(t, r.tables))
      && SalesStay(t, r.tables) && r.tables.refunds == t.refunds
  }

  lemma ResolvedAnswers(t: Tables, p: nat, paymentRef: string, amount: int, reason: string, lost: bool, plan: Plan)
    requires p < |t.payments| && Pick(t.payments, WithProviderPayment(paymentRef), plan.payment) == Some(p)
    ensures ResolveAnswers(t, p, amount, reason, lost, plan,
                           ResolvedDispute(t, paymentRef, amount, reason, if lost then Lost else Won, plan))
  {
    NewestIs(t.chargebacks, p);
    var final := if lost then Lost else Won;
    if DisputeStatus(t.chargebacks, p) != final {
      ResolvedRows(t, p, paymentRef, amount, reason, lost, plan);
      ResolvedGrants(t, p, paymentRef, amount, reason, lost, plan);
    }
  }

  lemma ResolvedRows(t: Tables, p: nat, paymentRef: string, amount: int, reason: string, lost: bool, plan: Plan)
    requires p < |t.payments| && Pick(t.payments, WithProviderPayment(paymentRef), plan.payment) == Some(p)
    requires DisputeStatus(t.chargebacks, p) != if lost then Lost else Won
    ensures
      var final, event := if lost then Lost else Won, if lost then DisputeLostEvent else DisputeWonEvent;
      var r := ResolvedDispute(t, paymentRef, amount, reason, final, plan);
      && r.Committed?
      && exists before :: DisputeSettled(t, r.tables, p, amount, reason, before, final)
           && PaymentLogged(t, r.tables, p, event, Some(ChargebackState(before)), ChargebackState(final), None)
  {
    NewestIs(t.chargebacks, p);
    var final := if lost then Lost else Won;
    assert DisputeSettled(t, ResolvedDispute(t, paymentRef, amount, reason, final, plan).tables, p, amount, reason,
                          DisputeStatus(t.chargebacks, p), final);
  }

  lemma ResolvedGrants(t: Tables, p: nat, paymentRef: string, amount: int, reason: string, lost: bool, plan: Plan)
    requires p < |t.payments| && Pick(t.payments, WithProviderPayment(paymentRef), plan.payment) == Some(p)
    requires DisputeStatus(t.chargebacks, p) != if lost then Lost else Won
    ensures
      var r := ResolvedDispute(t, paymentRef, amount, reason, if lost then Lost else Won, plan);
      && r.Committed? && r.receipt.None?
      && (if lost then TakesBack(t, r.tables, t.payments[p].order, plan, DisputeLostEvent) else GrantsStay(t, r.tables))
      && SalesStay(t, r.tables) && r.tables.refunds == t.refunds
  {
    if lost {
      var withdrawn := RevokeFor(t, t.payments[p], DisputeLostEvent, plan);
      RevokeTakesBack(t, t.payments[p], DisputeLostEvent, plan);
      RevokeKeepsRest(t, t.payments[p], DisputeLostEvent, plan);
      TakesBackLikewise(t, withdrawn, ResolvedDispute(t, paymentRef, amount, reason, Lost, plan).tables,
                        t.payments[p].order, plan, DisputeLostEvent);
    }
  }

  /** A resolved dispute is recorded; a lost one takes away what the payment bought, a won one nothing. */
  lemma DisputeResolvedAnswers(t: Tables, paymentRef: string, amount: int, reason: string, lost: bool, plan: Plan, now: int)
    returns (p: nat)
    requires PaymentKnown(t, paymentRef)
    ensures FoundPayment(t, paymentRef, plan, p)
    ensures
      var ev := if lost then DisputeLost(paymentRef, amount, reason) else DisputeWon(paymentRef, amount, reason);
      ResolveAnswers(t, p, amount, reason, lost, plan, Handle(t, ev, plan, now))
  {
    KnownPayment(t, paymentRef, plan);
    p := Pick(t.payments, WithProviderPayment(paymentRef), plan.payment).value;
    ResolvedAnswers(t, p, paymentRef, amount, reason, lost, plan);
  }

  // ----- Every event -----

  /** What the worker answers to an event, whichever of the matching rows its lookups return. */
  ghost predicate Answers(t: Tables, ev: Event, plan: Plan, now: int, r: Outcome) {
    match ev
    case PaymentCaptured(orderRef, paymentRef) =>
      if !OrderKnown(t, orderRef) then r.Rejected?
      else exists o: nat :: FoundOrder(t, orderRef, plan, o) && CaptureAnswers(t, o, paymentRef, now, r)
    case PaymentFailed(orderRef, paymentRef) =>
      if !OrderKnown(t, orderRef) then r.Rejected?
      else exists o: nat :: FoundOrder(t, orderRef, plan, o) && FailAnswers(t, o, paymentRef, r)
    case RefundProcessed(refundRef, paymentRef, amount) =>
      if !PaymentKnown(t, paymentRef) then r.Rejected?
      else exists p: nat :: FoundPayment(t, paymentRef, plan, p) && RefundAnswers(t, p, refundRef, amount, plan, r)
    case RefundFailed(refundRef) =>
      if !RefundKnown(t, refundRef) then r == Committed(t, None)
      else exists q: nat :: FoundRefund(t, refundRef, plan, q) && RefundFailAnswers(t, q, r)
    case DisputeCreated(paymentRef, amount, reason) =>
      if !PaymentKnown(t, paymentRef) then r.Rejected?
      else exists p: nat :: FoundPayment(t, paymentRef, plan, p) && OpenAnswers(t, p, amount, reason, r)
    case DisputeWon(paymentRef, amount, reason) =>
      if !PaymentKnown(t, paymentRef) then r.Rejected?
      else exists p: nat :: FoundPayment(t, paymentRef, plan, p) && ResolveAnswers(t, p, amount, reason, false, plan, r)
    case DisputeLost(paymentRef, amount, reason) =>
      if !PaymentKnown(t, paymentRef) then r.Rejected?
      else exists p: nat :: FoundPayment(t, paymentRef, plan, p) && ResolveAnswers(t, p, amount, reason, true, plan, r)
    case EntityMissing => r.Rejected?
    case Unrecognized => r == Committed(t, None)
  }

  lemma EveryEventAnswers(t: Tables, ev: Event, plan: Plan, now: int)
    ensures Answers(t, ev, plan, now, Handle(t, ev, plan, now))
  {
    UnknownRowsRejected(t, ev, plan, now);
    match ev {
      case PaymentCaptured(orderRef, paymentRef) =>
        if OrderKnown(t, orderRef) { var _ := PaymentCapturedAnswers(t, orderRef, paymentRef, plan, now); }
      case PaymentFailed(orderRef, paymentRef) =>
        if OrderKnown(t, orderRef) { var _ := PaymentFailedAnswers(t, orderRef, paymentRef, plan, now); }
      case RefundProcessed(refundRef, paymentRef, amount) =>
        if PaymentKnown(t, paymentRef) { var _ := RefundProcessedAnswers(t, refundRef, paymentRef, amount, plan, now); }
      case RefundFailed(refundRef) =>
        if RefundKnown(t, refundRef) { var _ := RefundFailedAnswers(t, refundRef, plan, now); }
      case DisputeCreated(paymentRef, amount, reason) =>
        if PaymentKnown(t, paymentRef) { var _ := DisputeCreatedAnswers(t, paymentRef, amount, reason, plan, now); }
      case DisputeWon(paymentRef, amount, reason) =>
        if PaymentKnown(t, paymentRef) {
          var _ := DisputeResolvedAnswers(t, paymentRef, amount, reason, false, plan, now);
        }
      case DisputeLost(paymentRef, amount, reason) =>
        if PaymentKnown(t, paymentRef) {
          var _ := DisputeResolvedAnswers(t, paymentRef, amount, reason, true, plan, now);
        }
      case EntityMissing =>
      case Unrecognized =>
    }
  }

  // ----- Sweep items -----

  /** An item of a sweep ends an open order, or an active entitlement at or past its expiry with its access, and no other. */
  lemma SweepItemsAnswer(t: Tables, o: nat, e: nat, now: int)
    ensures
      var t' := After(t, Abandon(o));
      if o < |t.orders| && (t.orders[o].status == OrderStatus.Pending || t.orders[o].status == PaymentInitiated) then
        t' == t.(orders := t.orders[o := t.orders[o].(status := Abandoned)],
                 ledger := t.ledger + [LedgerRow(OrderAbandonedEvent, Some(o), None, Some(OrderState(t.orders[o].status)),
                                                 OrderState(Abandoned), None, Some(t.orders[o].learner))])
      else t' == t
    ensures
      var t' := After(t, Expire(e, now));
      if && e < |t.entitlements| && t.entitlements[e].status == GrantStatus.Active
         && t.entitlements[e].expiresAt.Some? && t.entitlements[e].expiresAt.value <= now then
        var was := t.entitlements[e];
        var key := (was.learner, was.course);
        && t' == t.(entitlements := t.entitlements[e := was.(status := GrantStatus.Expired)], access := t'.access,
                    audit := t.audit + [AuditRow(AuditAction.Expired, e, was.learner, None)])
        && t'.access.Keys == t.access.Keys
        && (key in t.access ==> t'.access[key] == Access(t.access[key].entitlement, GrantStatus.Expired))
        && (forall k | k in t.access && k != key :: t'.access[k] == t.access[k])
      else t' == t
  {
  }

  // ----- Requests -----

  /** Checkout places an order and gives access to nothing, unless the offer is free, when it gives the offer's course. */
  lemma CheckoutAnswers(t: Tables, offer: nat, learner: nat, discount: Option<nat>, createdAt: int, ref: Option<string>)
    ensures
      var t' := After(t, Checkout(offer, learner, discount, createdAt, ref, PaymentInitiated));
      if ref.Some? && OrderKnown(t, ref.value) then t' == t
      else t' == t.(orders := t.orders + [Order(offer, learner, PaymentInitiated, ref, discount, createdAt)])
    ensures
      var t' := After(t, CheckoutRejected(offer, learner, discount, createdAt));
      t' == t.(orders := t.orders + [Order(offer, learner, OrderStatus.Failed, None, discount, createdAt)])
    ensures
      var t' := After(t, FreeCheckout(offer, learner, discount, createdAt));
      if || offer !in t.offers || t.offers[offer].kind != Free
         || (discount.Some? && (discount.value !in t.discounts || !BelowCap(t.discounts[discount.value])))
      then t' == t
      else
        var course, e := t.offers[offer].course, |t.entitlements|;
        && t' == t.(orders := t.orders + [Order(offer, learner, OrderStatus.Succeeded, None, discount, createdAt)],
                    entitlements := t.entitlements
                                    + [Entitlement(Some(|t.orders|), learner, course, GrantStatus.Active, None, None)],
                    access := t.access[(learner, course) := Access(Some(e), GrantStatus.Active)],
                    discounts := t'.discounts)
        && CodeRedeemed(t, t', discount, discount.Some?)
  {
  }

  /** Enrolment opens a course to a learner who has no row for it; a grant opens it whatever row there is. */
  lemma StaffAnswers(t: Tables, learner: nat, course: nat, staff: nat, reason: string, p: nat, ref: string, amount: real)
    ensures
      After(t, Enroll(learner, course)) ==
        if (learner, course) in t.access then t
        else t.(access := t.access[(learner, course) := Access(None, GrantStatus.Active)])
    ensures
      var e := |t.entitlements|;
      After(t, GrantAccess(learner, course, staff, reason)) ==
        t.(entitlements := t.entitlements + [Entitlement(None, learner, course, GrantStatus.Active, None, Some(staff))],
           access := t.access[(learner, course) := Access(Some(e), GrantStatus.Active)],
           audit := t.audit + [AuditRow(AdminGrant, e, staff, None)],
           ledger := t.ledger + [LedgerRow(EntitlementGrantedEvent, None, None, None, GrantState(GrantStatus.Active),
                                           Some(reason), Some(staff))])
    ensures
      After(t, RequestRefund(p, ref, amount)) ==
        if p >= |t.payments| then t
        else t.(refunds := t.refunds + [Refund(p, Some(ref), RefundStatus.Pending, amount)],
                ledger := t.ledger + [LedgerRow(RefundInitiatedEvent, Some(t.payments[p].order), Some(p),
                                                Some(PaymentState(t.payments[p].status)),
                                                RefundState(RefundStatus.Pending), None, None)])
  {
  }

  /** The catalogue is replaced as it is edited, and nothing else. */
  lemma CatalogueAnswers(t: Tables, offers: map<nat, Offer>, courses: map<nat, string>, discounts: map<nat, DiscountCode>)
    ensures
      var t' := After(t, EditCatalogue(offers, courses, discounts));
      && t'.offers == offers && t'.courses == courses && t'.discounts == discounts
      && GrantsStay(t, t') && t'.orders == t.orders && t'.payments == t.payments
      && t'.refunds == t.refunds && t'.chargebacks == t.chargebacks && t'.ledger == t.ledger
  {
  }

  // ----- Who paid has access -----

  /** The step ends an entitlement of this learner and course. */
  ghost predicate EndsOne(t: Tables, s: Step, key: (nat, nat)) {
    TakesAccess(s) && exists e: nat :: Ends(t, After(t, s), e, key)
  }

  ghost predicate NoneEnded(t: Tables, steps: seq<Step>, key: (nat, nat)) {
    forall i | 0 <= i < |steps| :: !EndsOne(Run(t, steps[..i]), steps[i], key)
  }

  /**
   * From the moment a payment is captured its learner has access to the course
   * of the offer bought, over every run in which no refund, lost dispute or
   * expiry ends an entitlement of that learner to that course.
   */
  lemma PaidMeansAccess(t: Tables, o: nat, orderRef: string, paymentRef: string, plan: Plan, now: int, more: seq<Step>)
    requires plan.order == o && o < |t.orders| && t.orders[o].providerOrder == Some(orderRef)
    requires t.orders[o].status != OrderStatus.Succeeded
    requires t.orders[o].offer in t.offers && t.offers[t.orders[o].offer].course in t.courses
    requires
      var key := (t.orders[o].learner, t.offers[t.orders[o].offer].course);
      NoneEnded(After(t, Webhook(PaymentCaptured(orderRef, paymentRef), plan, now)), more, key)
    ensures
      var key := (t.orders[o].learner, t.offers[t.orders[o].offer].course);
      var t' := Run(After(t, Webhook(PaymentCaptured(orderRef, paymentRef), plan, now)), more);
      key in t'.access && t'.access[key].status == GrantStatus.Active
  {
    var key := (t.orders[o].learner, t.offers[t.orders[o].offer].course);
    var captured := After(t, Webhook(PaymentCaptured(orderRef, paymentRef), plan, now));
    var _ := PaymentCapturedAnswers(t, orderRef, paymentRef, plan, now);
    assert HasAccess(captured, key);
    if !HasAccess(Run(captured, more), key) {
      var i, e := AccessLostInRun(captured, more, key);
      assert EndsOne(Run(captured, more[..i]), more[i], key);
    }
  }

  // ----- Who was refunded has not -----

  /** The learner is given an entitlement to the course, or had no row for it and enrols. */
  predicate Opens(s: Step, key: (nat, nat)) {
    || s == Enroll(key.0, key.1)
    || s.FreeCheckout? || s.GrantAccess? || (s.Webhook? && s.ev.PaymentCaptured?)
  }

  /** Access comes about, or back, only with a new entitlement to that course, or by enrolment where there was no row. */
  lemma AccessGained(t: Tables, s: Step, key: (nat, nat))
    requires !HasAccess(t, key) && HasAccess(After(t, s), key)
    ensures Opens(s, key)
    ensures
      var t', e := After(t, s), |t.entitlements|;
      || (key !in t.access && s == Enroll(key.0, key.1))
      || (|t'.entitlements| == e + 1 && (t'.entitlements[e].learner, t'.entitlements[e].course) == key
          && t'.entitlements[e].status == GrantStatus.Active && t'.access[key].entitlement == Some(e))
  {
    var g, h := Effects(t, s);
  }

  /** No step gives this learner an entitlement to this course. */
  ghost predicate NoneGiven(t: Tables, steps: seq<Step>, key: (nat, nat)) {
    forall i | 0 <= i < |steps| :: !GivesOne(Run(t, steps[..i]), After(Run(t, steps[..i]), steps[i]), key)
  }

  ghost predicate GivesOne(t: Tables, t': Tables, key: (nat, nat)) {
    var e := |t.entitlements|;
    |t'.entitlements| == e + 1 && (t'.entitlements[e].learner, t'.entitlements[e].course) == key
  }

  lemma {:induction false} ClosedStays(t: Tables, steps: seq<Step>, key: (nat, nat))
    requires key in t.access && !HasAccess(t, key) && NoneGiven(t, steps, key)
    ensures key in Run(t, steps).access && !HasAccess(Run(t, steps), key)
  {
    if steps == [] {
    } else {
      var init, last := steps[..|steps| - 1], |steps| - 1;
      forall i | 0 <= i < last ensures !GivesOne(Run(t, init[..i]), After(Run(t, init[..i]), init[i]), key) {
        assert init[..i] == steps[..i];
      }
      ClosedStays(t, init, key);
      ClosedByStep(Run(t, init), steps[last], key);
    }
  }

  lemma ClosedByStep(t: Tables, s: Step, key: (nat, nat))
    requires key in t.access && !HasAccess(t, key) && !GivesOne(t, After(t, s), key)
    ensures key in After(t, s).access && !HasAccess(After(t, s), key)
  {
    var g, h := Effects(t, s);
  }

  /** A payment whose order has the one entitlement `e`, which is active and has an access row. */
  ghost predicate BoughtAccess(t: Tables, paymentRef: string, plan: Plan, e: nat) {
    && FoundPayment(t, paymentRef, plan, plan.payment)
    && FoundEntitlement(t, t.payments[plan.payment].order, plan, plan.entitlement) && e == plan.entitlement
    && t.entitlements[e].status == GrantStatus.Active
    && (t.entitlements[e].learner, t.entitlements[e].course) in t.access
  }

  /**
   * Once a refund is processed, or a dispute is lost, that had not been so
   * before, what the payment bought is never active again and its learner has
   * no access to the course, over every run until one gives that learner a new
   * entitlement to it.
   */
  lemma RefundEndsAccess(t: Tables, ev: Event, plan: Plan, now: int, e: nat, more: seq<Step>)
    requires (ev.RefundProcessed? && !RefundSucceeded(t, ev.refundRef)) || (ev.DisputeLost? && !LostAlready(t, plan.payment))
    requires BoughtAccess(t, ev.paymentRef, plan, e)
    requires NoneGiven(After(t, Webhook(ev, plan, now)), more, (t.entitlements[e].learner, t.entitlements[e].course))
    ensures
      var t', key := Run(After(t, Webhook(ev, plan, now)), more), (t.entitlements[e].learner, t.entitlements[e].course);
      && e < |t'.entitlements| && t'.entitlements[e] == t.entitlements[e].(status := GrantStatus.Revoked)
      && key in t'.access && t'.access[key].status != GrantStatus.Active
  {
    var taken := After(t, Webhook(ev, plan, now));
    TakenBack(t, ev, plan, now, e);
    EntitlementEndsForGood(taken, more, e);
    ClosedStays(taken, more, (t.entitlements[e].learner, t.entitlements[e].course));
  }

  ghost predicate RefundSucceeded(t: Tables, ref: string) {
    exists r :: 0 <= r < |t.refunds| && t.refunds[r].providerRefund == Some(ref)
                && t.refunds[r].status == RefundStatus.Succeeded
  }

  ghost predicate LostAlready(t: Tables, p: nat) {
    exists c: nat :: NewestDispute(t.chargebacks, p, c) && t.chargebacks[c].status == Lost
  }

  lemma TakenBack(t: Tables, ev: Event, plan: Plan, now: int, e: nat)
    requires (ev.RefundProcessed? && !RefundSucceeded(t, ev.refundRef)) || (ev.DisputeLost? && !LostAlready(t, plan.payment))
    requires BoughtAccess(t, ev.paymentRef, plan, e)
    ensures Revokes(t, After(t, Webhook(ev, plan, now)), e,
                    if ev.RefundProcessed? then RefundProcessedEvent else DisputeLostEvent)
  {
    if ev.RefundProcessed? {
      var p := RefundProcessedAnswers(t, ev.refundRef, ev.paymentRef, ev.amount, plan, now);
    } else {
      var p := DisputeResolvedAnswers(t, ev.paymentRef, ev.amount, ev.reason, true, plan, now);
    }
  }
}
