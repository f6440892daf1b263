/** What every step of the commerce tables keeps. */
module CommerceInvariants {
  import opened Common
  import opened CommerceTables
  import opened CommerceHandlers
  import opened CommerceSteps
  import opened CommerceEffects

  // ----- Keys -----

  /** Foreign keys point at rows, and only orders the provider knows have payments. */
  ghost predicate WellFormed(t: Tables) {
    && (forall p | 0 <= p < |t.payments| ::
          t.payments[p].order < |t.orders| && t.orders[t.payments[p].order].providerOrder.Some?)
    && (forall e | 0 <= e < |t.entitlements| ::
          t.entitlements[e].order.Some? ==> t.entitlements[e].order.value < |t.orders|)
    && (forall i | 0 <= i < |t.ledger| :: t.ledger[i].order.Some? ==> t.ledger[i].order.value < |t.orders|)
    && (forall i | 0 <= i < |t.audit| :: t.audit[i].entitlement < |t.entitlements|)
  }

  lemma WellFormedKept(t: Tables, t': Tables, g: GrantEffect, h: OrderEffect)
    requires Changed(t, t', g, h) && WellFormed(t)
    ensures WellFormed(t')
  {
  }

  // ----- Access -----

  /** An active access row that names an entitlement names an active one of that learner and course. */
  ghost predicate AccessSafe(t: Tables) {
    forall k | k in t.access && t.access[k].status == GrantStatus.Active && t.access[k].entitlement.Some? ::
      var e := t.access[k].entitlement.value;
      && e < |t.entitlements|
      && t.entitlements[e].status == GrantStatus.Active
      && (t.entitlements[e].learner, t.entitlements[e].course) == k
  }

  lemma AccessSafeKept(t: Tables, t': Tables, g: GrantEffect)
    requires Effected(t, t', g) && AccessSafe(t)
    ensures AccessSafe(t')
  {
  }

  // ----- Orders and their payment rows -----

  lemma LatestRecorded(payments: seq<Payment>, o: nat, ref: string, status: PaymentStatus, other: nat)
    ensures var after := RecordPayment(payments, o, ref, status);
      && |payments| <= |after|
      && (other == o ==> var row := Latest(after, OfOrder(o));
          row.Some? && after[row.value] == Payment(o, Some(ref), status))
      && (other != o ==> var row := Latest(after, OfOrder(other));
          row == Latest(payments, OfOrder(other)) && (row.Some? ==> after[row.value] == payments[row.value]))
  {
    var row := Payment(o, Some(ref), status);
    match Latest(payments, OfOrder(o)) {
      case None =>
        LatestAppend(payments, row, OfOrder(other));
      case Some(p) =>
        LatestUpdate(payments, p, payments[p].(providerPayment := Some(ref), status := status), OfOrder(other));
    }
  }

  /** A paid order agrees with its one payment row; an order without a row is open, abandoned or not the provider's. */
  ghost predicate OrderSettled(t: Tables, o: nat)
    requires o < |t.orders|
  {
    match Latest(t.payments, OfOrder(o))
    case None =>
      t.orders[o].providerOrder.None? || IsOpen(t.orders[o].status) || t.orders[o].status == Abandoned
    case Some(p) =>
      && (t.orders[o].status == OrderStatus.Succeeded || t.orders[o].status == OrderStatus.Failed)
      && t.payments[p].status == PaymentStatusFor(t.orders[o].status)
  }

  ghost predicate Settled(t: Tables) {
    && (forall p, q | 0 <= p < q < |t.payments| :: t.payments[p].order != t.payments[q].order)
    && (forall o | 0 <= o < |t.orders| :: OrderSettled(t, o))
  }

  lemma SettledKept(t: Tables, t': Tables, h: OrderEffect)
    requires OrderEffected(t, t', h) && WellFormed(t) && Settled(t)
    ensures Settled(t')
  {
    forall o | 0 <= o < |t'.orders| ensures OrderSettled(t', o) {
      if o < |t.orders| {
        assert OrderSettled(t, o);
        if h.Settles? {
          LatestRecorded(t.payments, h.o, h.paymentRef, PaymentStatusFor(h.status), o);
        }
      }
    }
  }

  // ----- Counting grants and withdrawals -----

  function ActiveRows(): Entitlement -> bool {
    (e: Entitlement) => e.status == GrantStatus.Active
  }

  function FreeOrders(): Order -> bool {
    (o: Order) => IsFree(o)
  }

  function ActionRows(action: AuditAction): AuditRow -> bool {
    (r: AuditRow) => r.action == action
  }

  function EndRows(e: nat, action: AuditAction): AuditRow -> bool {
    (r: AuditRow) => r.action == action && r.entitlement == e
  }

  function CaptureRows(o: nat): LedgerRow -> bool {
    (r: LedgerRow) => r.event == PaymentCapturedEvent && r.order == Some(o)
  }

  function Unit(b: bool): nat {
    if b then 1 else 0
  }

  lemma FreeOrdersCounted(t: Tables, t': Tables, h: OrderEffect)
    requires OrderEffected(t, t', h)
    ensures Count(t'.orders, FreeOrders()) == Count(t.orders, FreeOrders()) + Unit(h.Places? && IsFree(h.order))
  {
    match h {
      case Places(order) => CountAppend(t.orders, order, FreeOrders());
      case Settles(o, status, _) => CountUpdate(t.orders, o, t.orders[o].(status := status), FreeOrders());
      case Abandons(o) => CountUpdate(t.orders, o, t.orders[o].(status := Abandoned), FreeOrders());
      case Leaves(_) =>
    }
  }

  lemma ActiveCounted(t: Tables, t': Tables, g: GrantEffect)
    requires Effected(t, t', g)
    ensures Count(t'.entitlements, ActiveRows()) + Unit(g.Withdraws?)
         == Count(t.entitlements, ActiveRows()) + Unit(g.Gives?)
  {
    match g {
      case Gives(e, _) => CountAppend(t.entitlements, e, ActiveRows());
      case Withdraws(e, status, _) =>
        CountUpdate(t.entitlements, e, t.entitlements[e].(status := status), ActiveRows());
      case _ =>
    }
  }

  lemma GrantsCounted(t: Tables, t': Tables, g: GrantEffect, o: nat)
    requires Effected(t, t', g)
    ensures Count(t'.entitlements, GrantedForOrder(o))
         == Count(t.entitlements, GrantedForOrder(o)) + Unit(g.Gives? && g.entitlement.order == Some(o))
  {
    match g {
      case Gives(e, _) => CountAppend(t.entitlements, e, GrantedForOrder(o));
      case Withdraws(e, status, _) =>
        CountUpdate(t.entitlements, e, t.entitlements[e].(status := status), GrantedForOrder(o));
      case _ =>
    }
  }

  /** The audit rows a change appends. */
  function Appended(g: GrantEffect): seq<AuditRow> {
    match g
    case Gives(_, rows) => rows
    case Withdraws(_, _, row) => [row]
    case _ => []
  }

  lemma AuditCounted(t: Tables, t': Tables, g: GrantEffect, wanted: AuditRow -> bool)
    requires Effected(t, t', g) && |Appended(g)| <= 1
    ensures Count(t'.audit, wanted) == Count(t.audit, wanted) + Unit(Appended(g) != [] && wanted(Appended(g)[0]))
  {
    if Appended(g) == [] {
      assert t.audit + [] == t.audit;
    } else {
      assert Appended(g) == [Appended(g)[0]];
      CountAppend(t.audit, Appended(g)[0], wanted);
    }
  }

  lemma CapturesCounted(t: Tables, t': Tables, h: OrderEffect, o: nat)
    requires OrderEffected(t, t', h)
    ensures Count(t'.ledger, CaptureRows(o))
         == Count(t.ledger, CaptureRows(o)) + Unit(h.Settles? && h.o == o && h.status == OrderStatus.Succeeded)
  {
    if |t'.ledger| == |t.ledger| {
      assert t'.ledger == t.ledger;
    } else {
      var row := t'.ledger[|t.ledger|];
      assert t'.ledger == t.ledger + [row];
      CountAppend(t.ledger, row, CaptureRows(o));
    }
  }

  /** Active entitlements are the grants made less the withdrawals made, all read off the logs. */
  ghost predicate Conserved(t: Tables) {
    Count(t.entitlements, ActiveRows())
      + Count(t.audit, ActionRows(AuditAction.Revoked)) + Count(t.audit, ActionRows(AuditAction.Expired))
    == Count(t.audit, ActionRows(Granted)) + Count(t.audit, ActionRows(AdminGrant)) + Count(t.orders, FreeOrders())
  }

  lemma ConservedKept(t: Tables, t': Tables, g: GrantEffect, h: OrderEffect)
    requires Changed(t, t', g, h) && Conserved(t)
    ensures Conserved(t')
  {
    FreeOrdersCounted(t, t', h);
    ActiveCounted(t, t', g);
    AuditCounted(t, t', g, ActionRows(AuditAction.Revoked));
    AuditCounted(t, t', g, ActionRows(AuditAction.Expired));
    AuditCounted(t, t', g, ActionRows(Granted));
    AuditCounted(t, t', g, ActionRows(AdminGrant));
  }

  /** Each entitlement has one audit row for the way it ended, and none while it is active. */
  ghost predicate EndedOnce(t: Tables) {
    forall e | 0 <= e < |t.entitlements| :: EndLogged(t, e)
  }

  ghost predicate EndLogged(t: Tables, e: nat)
    requires e < |t.entitlements|
  {
    && Count(t.audit, EndRows(e, AuditAction.Revoked)) == Unit(t.entitlements[e].status == GrantStatus.Revoked)
    && Count(t.audit, EndRows(e, AuditAction.Expired)) == Unit(t.entitlements[e].status == GrantStatus.Expired)
  }

  lemma EndedOnceKept(t: Tables, t': Tables, g: GrantEffect, h: OrderEffect)
    requires Changed(t, t', g, h) && WellFormed(t) && EndedOnce(t)
    ensures EndedOnce(t')
  {
    forall e | 0 <= e < |t'.entitlements| ensures EndLogged(t', e) {
      AuditCounted(t, t', g, EndRows(e, AuditAction.Revoked));
      AuditCounted(t, t', g, EndRows(e, AuditAction.Expired));
      if e == |t.entitlements| {
        CountNone(t.audit, EndRows(e, AuditAction.Revoked));
        CountNone(t.audit, EndRows(e, AuditAction.Expired));
      } else {
        assert EndLogged(t, e);
      }
    }
  }

  /** An order has one entitlement for each captured row, and a free order one more. */
  ghost predicate GrantsMatch(t: Tables) {
    forall o | 0 <= o < |t.orders| :: OrderMatched(t, o)
  }

  ghost predicate OrderMatched(t: Tables, o: nat)
    requires o < |t.orders|
  {
    Count(t.entitlements, GrantedForOrder(o)) == Count(t.ledger, CaptureRows(o)) + Unit(IsFree(t.orders[o]))
  }

  lemma GrantsMatchKept(t: Tables, t': Tables, g: GrantEffect, h: OrderEffect)
    requires Changed(t, t', g, h) && WellFormed(t) && GrantsMatch(t)
    ensures GrantsMatch(t')
  {
    forall o | 0 <= o < |t'.orders| ensures OrderMatched(t', o) {
      GrantsCounted(t, t', g, o);
      CapturesCounted(t, t', h, o);
      if o == |t.orders| {
        CountNone(t.entitlements, GrantedForOrder(o));
        CountNone(t.ledger, CaptureRows(o));
      } else {
        assert OrderMatched(t, o);
      }
    }
  }

  // ----- All of them -----

  ghost predicate Inv(t: Tables) {
    && WellFormed(t) && AccessSafe(t) && Settled(t) && Conserved(t) && EndedOnce(t) && GrantsMatch(t)
  }

  lemma ChangeKeepsInv(t: Tables, t': Tables, g: GrantEffect, h: OrderEffect)
    requires Inv(t) && Changed(t, t', g, h)
    ensures Inv(t')
  {
    WellFormedKept(t, t', g, h);
    AccessSafeKept(t, t', g);
    SettledKept(t, t', h);
    ConservedKept(t, t', g, h);
    EndedOnceKept(t, t', g, h);
    GrantsMatchKept(t, t', g, h);
  }

  /** Every step keeps every invariant. */
  lemma InvKept(t: Tables, s: Step)
    requires Inv(t)
    ensures Inv(After(t, s))
  {
    var g, h := Effects(t, s);
    ChangeKeepsInv(t, After(t, s), g, h);
  }

  lemma {:induction false} InvHolds(steps: seq<Step>)
    ensures Inv(Run(EMPTY, steps))
  {
    if steps == [] {
    } else {
      InvHolds(steps[..|steps| - 1]);
      InvKept(Run(EMPTY, steps[..|steps| - 1]), steps[|steps| - 1]);
    }
  }

  /** In every reachable state. */
  lemma ReachableInv(t: Tables)
    requires Reachable(t)
    ensures Inv(t)
  {
    var steps :| t == Run(EMPTY, steps);
    InvHolds(steps);
  }
}
