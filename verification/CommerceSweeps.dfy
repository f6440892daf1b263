/**
 * The two periodic sweeps: each lists rows outside a transaction and then
 * handles every listed row in a transaction of its own, which reads the row
 * again first.
 */
module CommerceSweeps {
  import opened Common
  import opened CommerceTables
  import opened CommerceHandlers
  import opened CommerceWorker

  function StaleAt(now: int): Order -> bool {
    (o: Order) => IsOpen(o.status) && o.createdAt < now - STALE_ORDER_CUTOFF
  }

  function LapsedBefore(cutoff: int): Entitlement -> bool {
    (e: Entitlement) => e.status == GrantStatus.Active && e.expiresAt.Some? && e.expiresAt.value < cutoff
  }

  /** One item after another, as the sweep's loop does. */
  function AbandonAll(t: Tables, ids: seq<nat>): Tables {
    if ids == [] then t else AbandonOne(AbandonAll(t, ids[..|ids| - 1]), ids[|ids| - 1])
  }

  /** Likewise; item k reads the time clock(k). */
  function ExpireAll(t: Tables, ids: seq<nat>, clock: nat -> int): Tables {
    if ids == [] then t else ExpireOne(ExpireAll(t, ids[..|ids| - 1], clock), ids[|ids| - 1], clock(|ids| - 1))
  }

  function AbandonedRows(t: Tables, ids: seq<nat>): seq<LedgerRow>
    requires forall k | 0 <= k < |ids| :: ids[k] < |t.orders|
  {
    if ids == [] then []
    else
      var o := ids[|ids| - 1];
      AbandonedRows(t, ids[..|ids| - 1])
      + [OrderRow(OrderAbandonedEvent, o, None, t.orders[o].status, Abandoned, t.orders[o].learner)]
  }

  function ExpiredRows(t: Tables, ids: seq<nat>): seq<AuditRow>
    requires forall k | 0 <= k < |ids| :: ids[k] < |t.entitlements|
  {
    if ids == [] then []
    else
      var e := ids[|ids| - 1];
      ExpiredRows(t, ids[..|ids| - 1]) + [AuditRow(AuditAction.Expired, e, t.entitlements[e].learner, None)]
  }

  /** The (learner, course) pairs of the entitlements `ids`. */
  function KeysOf(rows: seq<Entitlement>, ids: seq<nat>): set<(nat, nat)>
    requires forall k | 0 <= k < |ids| :: ids[k] < |rows|
  {
    set k | 0 <= k < |ids| :: (rows[ids[k]].learner, rows[ids[k]].course)
  }

  /** The rows of `ids` are `after` with the status of the sweep, the others as they were. */
  ghost predicate OnlyExpired(before: seq<Entitlement>, after: seq<Entitlement>, ids: seq<nat>) {
    && |after| == |before|
    && forall i | 0 <= i < |before| ::
         after[i] == if i in ids then before[i].(status := GrantStatus.Expired) else before[i]
  }

  ghost predicate OnlyAbandoned(before: seq<Order>, after: seq<Order>, ids: seq<nat>) {
    && |after| == |before|
    && forall i | 0 <= i < |before| ::
         after[i] == if i in ids then before[i].(status := Abandoned) else before[i]
  }

  function ExpireAccess(access: map<(nat, nat), Access>, keys: set<(nat, nat)>): map<(nat, nat), Access> {
    map key | key in access :: if key in keys then access[key].(status := GrantStatus.Expired) else access[key]
  }

  ghost predicate Ascending(ids: seq<nat>) {
    forall j, k | 0 <= j < k < |ids| :: ids[j] < ids[k]
  }

  lemma OnlyAbandonedMore(before: seq<Order>, after: seq<Order>, init: seq<nat>, o: nat)
    requires OnlyAbandoned(before, after, init) && o < |before|
    ensures OnlyAbandoned(before, after[o := before[o].(status := Abandoned)], init + [o])
  {
  }

  lemma OnlyExpiredMore(before: seq<Entitlement>, after: seq<Entitlement>, init: seq<nat>, e: nat)
    requires OnlyExpired(before, after, init) && e < |before|
    ensures OnlyExpired(before, after[e := before[e].(status := GrantStatus.Expired)], init + [e])
  {
  }

  lemma AbandonedRowsMore(t: Tables, init: seq<nat>, o: nat)
    requires (forall k | 0 <= k < |init| :: init[k] < |t.orders|) && o < |t.orders|
    ensures
      var row := OrderRow(OrderAbandonedEvent, o, None, t.orders[o].status, Abandoned, t.orders[o].learner);
      AbandonedRows(t, init + [o]) == AbandonedRows(t, init) + [row]
  {
    assert (init + [o])[..|init|] == init;
  }

  lemma ExpiredRowsMore(t: Tables, init: seq<nat>, e: nat)
    requires (forall k | 0 <= k < |init| :: init[k] < |t.entitlements|) && e < |t.entitlements|
    ensures ExpiredRows(t, init + [e])
         == ExpiredRows(t, init) + [AuditRow(AuditAction.Expired, e, t.entitlements[e].learner, None)]
  {
    assert (init + [e])[..|init|] == init;
  }

  /** An item that is not among those of `init` is still as it was. */
  lemma AbandonMore(t: Tables, orders: seq<Order>, init: seq<nat>, o: nat)
    requires (forall k | 0 <= k < |init| :: init[k] < |t.orders|) && o !in init
    requires o < |t.orders| && IsOpen(t.orders[o].status) && OnlyAbandoned(t.orders, orders, init)
    ensures
      var t' := AbandonOne(t.(orders := orders, ledger := t.ledger + AbandonedRows(t, init)), o);
      && t'.orders == orders[o := t.orders[o].(status := Abandoned)]
      && t' == t.(orders := t'.orders, ledger := t.ledger + AbandonedRows(t, init + [o]))
  {
    assert orders[o] == t.orders[o];
    AbandonedRowsMore(t, init, o);
    var row := OrderRow(OrderAbandonedEvent, o, None, t.orders[o].status, Abandoned, t.orders[o].learner);
    assert t.ledger + AbandonedRows(t, init) + [row] == t.ledger + (AbandonedRows(t, init) + [row]);
  }

  /** Abandoning distinct open orders abandons these and no others, with one audit row for each. */
  lemma {:induction false} AbandonAllIs(t: Tables, ids: seq<nat>)
    requires Ascending(ids) && forall k | 0 <= k < |ids| :: ids[k] < |t.orders| && IsOpen(t.orders[ids[k]].status)
    ensures var t' := AbandonAll(t, ids);
      && t' == t.(orders := t'.orders, ledger := t.ledger + AbandonedRows(t, ids))
      && OnlyAbandoned(t.orders, t'.orders, ids)
  {
    if ids == [] {
    } else {
      var init, o := ids[..|ids| - 1], ids[|ids| - 1];
      AbandonAllIs(t, init);
      AbandonMore(t, AbandonAll(t, init).orders, init, o);
      OnlyAbandonedMore(t.orders, AbandonAll(t, init).orders, init, o);
      assert ids == init + [o];
    }
  }

  lemma ExpireMore(t: Tables, rows: seq<Entitlement>, init: seq<nat>, e: nat, now: int)
    requires (forall k | 0 <= k < |init| :: init[k] < |t.entitlements|) && e !in init
    requires e < |t.entitlements| && Lapsed(t.entitlements[e], now) && OnlyExpired(t.entitlements, rows, init)
    ensures
      var t' := ExpireOne(t.(entitlements := rows, access := ExpireAccess(t.access, KeysOf(t.entitlements, init)),
                             audit := t.audit + ExpiredRows(t, init)), e, now);
      && t'.entitlements == rows[e := t.entitlements[e].(status := GrantStatus.Expired)]
      && t' == t.(entitlements := t'.entitlements,
                  access := ExpireAccess(t.access, KeysOf(t.entitlements, init + [e])),
                  audit := t.audit + ExpiredRows(t, init + [e]))
  {
    assert rows[e] == t.entitlements[e];
    ExpireAccessMore(t, init, e);
    ExpiredRowsMore(t, init, e);
    var row := AuditRow(AuditAction.Expired, e, t.entitlements[e].learner, None);
    assert t.audit + ExpiredRows(t, init) + [row] == t.audit + (ExpiredRows(t, init) + [row]);
  }

  /** Expiring distinct lapsed entitlements expires these, and exactly the access rows of their learners and courses. */
  lemma {:induction false} ExpireAllIs(t: Tables, ids: seq<nat>, now: int, clock: nat -> int)
    requires forall k: nat :: now <= clock(k)
    requires Ascending(ids)
    requires forall k | 0 <= k < |ids| :: ids[k] < |t.entitlements| && LapsedBefore(now)(t.entitlements[ids[k]])
    ensures var t' := ExpireAll(t, ids, clock);
      && t' == t.(entitlements := t'.entitlements,
                  access := ExpireAccess(t.access, KeysOf(t.entitlements, ids)),
                  audit := t.audit + ExpiredRows(t, ids))
      && OnlyExpired(t.entitlements, t'.entitlements, ids)
  {
    if ids == [] {
      assert ExpireAccess(t.access, {}) == t.access;
    } else {
      var init, e := ids[..|ids| - 1], ids[|ids| - 1];
      ExpireAllIs(t, init, now, clock);
      ExpireMore(t, ExpireAll(t, init, clock).entitlements, init, e, clock(|init|));
      OnlyExpiredMore(t.entitlements, ExpireAll(t, init, clock).entitlements, init, e);
      assert ids == init + [e];
    }
  }

  lemma ExpireAccessMore(t: Tables, init: seq<nat>, e: nat)
    requires (forall k | 0 <= k < |init| :: init[k] < |t.entitlements|) && e < |t.entitlements|
    ensures var key := (t.entitlements[e].learner, t.entitlements[e].course);
      var was := ExpireAccess(t.access, KeysOf(t.entitlements, init));
      ExpireAccess(t.access, KeysOf(t.entitlements, init + [e]))
      == if key in was then was[key := was[key].(status := GrantStatus.Expired)] else was
  {
    var key := (t.entitlements[e].learner, t.entitlements[e].course);
    assert KeysOf(t.entitlements, init + [e]) == KeysOf(t.entitlements, init) + {key} by {
      forall x | x in KeysOf(t.entitlements, init) + {key} ensures x in KeysOf(t.entitlements, init + [e]) {
        if x == key {
          assert (init + [e])[|init|] == e;
        } else {
          var k :| 0 <= k < |init| && (t.entitlements[init[k]].learner, t.entitlements[init[k]].course) == x;
          assert (init + [e])[k] == init[k];
        }
      }
    }
  }

  lemma SweptStale(t: Tables, now: int)
    ensures var stale := Where(t.orders, StaleAt(now));
      var t' := AbandonAll(t, stale);
      && t' == t.(orders := t'.orders, ledger := t.ledger + AbandonedRows(t, stale))
      && OnlyAbandoned(t.orders, t'.orders, stale)
  {
    var stale := Where(t.orders, StaleAt(now));
    assert Ascending(stale);
    forall k | 0 <= k < |stale| ensures IsOpen(t.orders[stale[k]].status) {
      assert StaleAt(now)(t.orders[stale[k]]);
    }
    AbandonAllIs(t, stale);
  }

  lemma SweptLapsed(t: Tables, now: int, clock: nat -> int)
    requires forall k: nat :: now <= clock(k)
    ensures var lapsed := Where(t.entitlements, LapsedBefore(now));
      var t' := ExpireAll(t, lapsed, clock);
      && t' == t.(entitlements := t'.entitlements,
                  access := ExpireAccess(t.access, KeysOf(t.entitlements, lapsed)),
                  audit := t.audit + ExpiredRows(t, lapsed))
      && OnlyExpired(t.entitlements, t'.entitlements, lapsed)
  {
    assert Ascending(Where(t.entitlements, LapsedBefore(now)));
    ExpireAllIs(t, Where(t.entitlements, LapsedBefore(now)), now, clock);
  }

  /** An open order is abandoned when it is older than half an hour, an order that is not, or not open, stays. */
  lemma StaleAbandoned(t: Tables, now: int)
    ensures
      var t' := AbandonAll(t, Where(t.orders, StaleAt(now)));
      && |t'.orders| == |t.orders|
      && forall i | 0 <= i < |t.orders| ::
           var o := t.orders[i];
           t'.orders[i] == if (o.status == OrderStatus.Pending || o.status == PaymentInitiated)
                              && now - o.createdAt > 1_800_000_000_000
                           then o.(status := Abandoned) else o
  {
    SweptStale(t, now);
    var t' := AbandonAll(t, Where(t.orders, StaleAt(now)));
    forall i | 0 <= i < |t.orders|
      ensures
        var o := t.orders[i];
        t'.orders[i] == if (o.status == OrderStatus.Pending || o.status == PaymentInitiated)
                           && now - o.createdAt > 1_800_000_000_000
                        then o.(status := Abandoned) else o
    {
      assert StaleAt(now)(t.orders[i]) <==> i in Where(t.orders, StaleAt(now));
    }
  }

  /** An active entitlement that lapsed before `now`. */
  predicate PastExpiry(e: Entitlement, now: int) {
    e.status == GrantStatus.Active && e.expiresAt.Some? && e.expiresAt.value < now
  }

  /** Every active entitlement past its expiry is expired with the access of its learner to its course; the rest stays. */
  lemma LapsedExpired(t: Tables, now: int, clock: nat -> int)
    requires forall k: nat :: now <= clock(k)
    ensures
      var t' := ExpireAll(t, Where(t.entitlements, LapsedBefore(now)), clock);
      && |t'.entitlements| == |t.entitlements|
      && (forall i | 0 <= i < |t.entitlements| ::
            var e := t.entitlements[i];
            t'.entitlements[i] == if PastExpiry(e, now) then e.(status := GrantStatus.Expired) else e)
      && t'.access.Keys == t.access.Keys
      && forall key | key in t.access ::
           t'.access[key] == if LapsedKey(t.entitlements, key, now)
                             then Access(t.access[key].entitlement, GrantStatus.Expired) else t.access[key]
  {
    SweptLapsed(t, now, clock);
    var lapsed := Where(t.entitlements, LapsedBefore(now));
    forall i | 0 <= i < |t.entitlements| ensures i in lapsed <==> PastExpiry(t.entitlements[i], now) {
      assert LapsedBefore(now)(t.entitlements[i]) <==> i in lapsed;
    }
    forall key | key in t.access ensures key in KeysOf(t.entitlements, lapsed) <==> LapsedKey(t.entitlements, key, now) {
      LapsedKeys(t.entitlements, lapsed, key, now);
    }
  }

  /** An entitlement of this learner and course is past its expiry. */
  ghost predicate LapsedKey(rows: seq<Entitlement>, key: (nat, nat), now: int) {
    exists i :: 0 <= i < |rows| && PastExpiry(rows[i], now) && (rows[i].learner, rows[i].course) == key
  }

  lemma LapsedKeys(rows: seq<Entitlement>, lapsed: seq<nat>, key: (nat, nat), now: int)
    requires forall k | 0 <= k < |lapsed| :: lapsed[k] < |rows| && PastExpiry(rows[lapsed[k]], now)
    requires forall i | 0 <= i < |rows| && PastExpiry(rows[i], now) :: i in lapsed
    ensures key in KeysOf(rows, lapsed) <==> LapsedKey(rows, key, now)
  {
    if i :| 0 <= i < |rows| && PastExpiry(rows[i], now) && (rows[i].learner, rows[i].course) == key {
      var k :| 0 <= k < |lapsed| && lapsed[k] == i;
      assert (rows[lapsed[k]].learner, rows[lapsed[k]].course) in KeysOf(rows, lapsed);
    }
  }

  class Sweeper {
    var db: Tables

    constructor (tables: Tables)
      ensures db == tables
    {
      db := tables;
    }

    method AbandonOneOrder(o: nat) returns (failed: bool)
      modifies this
      ensures db == AbandonOne(old(db), o)
      ensures failed <==> o >= |old(db).orders|
    {
      var tx := new Transaction(db);
      if o >= |tx.rows.orders| { return true; }
      var current := tx.rows.orders[o];
      if current.status != OrderStatus.Pending && current.status != PaymentInitiated {
        return false;
      }
      tx.UpdateOrderStatus(o, Abandoned);
      tx.RecordPaymentAudit(OrderRow(OrderAbandonedEvent, o, None, current.status, Abandoned, current.learner));
      db := tx.rows;
      failed := false;
    }

    /** Run undisturbed, the sweep abandons exactly the open orders that are older than the cutoff. */
    method SweepAbandonedOrders(now: int)
      modifies this
      ensures var stale := Where(old(db).orders, StaleAt(now));
        && db == old(db).(orders := db.orders, ledger := old(db).ledger + AbandonedRows(old(db), stale))
        && OnlyAbandoned(old(db).orders, db.orders, stale)
    {
      ghost var start := db;
      var stale := Where(db.orders, StaleAt(now));
      for k := 0 to |stale|
        invariant db == AbandonAll(start, stale[..k])
      {
        var _ := AbandonOneOrder(stale[k]);
        assert stale[..k + 1][..k] == stale[..k];
      }
      assert stale[..|stale|] == stale;
      SweptStale(start, now);
    }

    method ExpireOneEntitlement(e: nat, now: int) returns (failed: bool)
      modifies this
      ensures db == ExpireOne(old(db), e, now)
      ensures failed <==> e >= |old(db).entitlements|
    {
      var tx := new Transaction(db);
      if e >= |tx.rows.entitlements| { return true; }
      var current := tx.rows.entitlements[e];
      if current.status != GrantStatus.Active || current.expiresAt.None? || current.expiresAt.value > now {
        return false;
      }
      tx.SetEntitlementStatus(e, GrantStatus.Expired);
      var key := (current.learner, current.course);
      if key in tx.rows.access {
        tx.SetAccessStatus(key, GrantStatus.Expired);
      }
      tx.RecordAudit(AuditRow(AuditAction.Expired, e, current.learner, None));
      db := tx.rows;
      failed := false;
    }

    /**
     * Run undisturbed, the sweep expires exactly the entitlements listed at
     * `now`, and the access of their learners to their courses; each item reads
     * a clock that has not gone back since.
     */
    method SweepExpiredEntitlements(now: int, clock: nat -> int)
      requires forall k: nat :: now <= clock(k)
      modifies this
      ensures var was := old(db); var lapsed := Where(was.entitlements, LapsedBefore(now));
        && db == was.(entitlements := db.entitlements,
                      access := ExpireAccess(was.access, KeysOf(was.entitlements, lapsed)),
                      audit := was.audit + ExpiredRows(was, lapsed))
        && OnlyExpired(was.entitlements, db.entitlements, lapsed)
    {
      ghost var start := db;
      var lapsed := Where(db.entitlements, LapsedBefore(now));
      for k := 0 to |lapsed|
        invariant db == ExpireAll(start, lapsed[..k], clock)
      {
        var _ := ExpireOneEntitlement(lapsed[k], clock(k));
        assert lapsed[..k + 1][..k] == lapsed[..k];
      }
      assert lapsed[..|lapsed|] == lapsed;
      SweptLapsed(start, now, clock);
    }
  }
}
