/**
 * Fractional sort orders: appending, inserting between two siblings, and
 * respacing siblings that have come too close. Orders are exact reals.
 */
module SortOrder {
  import opened Common

  /** 1e-6: a gap that is no wider is exhausted. */
  const RENORMALIZE_THRESHOLD: real := 0.000001

  function NextSortOrder(existing: seq<real>): real {
    if existing == [] then 1.0 else existing[|existing| - 1] + 1.0
  }

  /** None when all siblings must be renormalised first. */
  function MidpointSortOrder(before: real, after: real): Option<real> {
    if after - before <= RENORMALIZE_THRESHOLD then None else Some(before + (after - before) / 2.0)
  }

  predicate RoomAt(orders: seq<real>, i: nat)
    requires i + 1 < |orders|
  {
    orders[i + 1] - orders[i] > RENORMALIZE_THRESHOLD
  }

  method NeedsRenormalize(sortedAscending: seq<real>) returns (needed: bool)
    ensures needed <==> exists i :: 0 <= i < |sortedAscending| - 1 && !RoomAt(sortedAscending, i)
  {
    var i := 1;
    while i < |sortedAscending|
      invariant 1 <= i
      invariant forall k | 0 <= k < i - 1 && k + 1 < |sortedAscending| :: RoomAt(sortedAscending, k)
    {
      if sortedAscending[i] - sortedAscending[i - 1] <= RENORMALIZE_THRESHOLD {
        assert !RoomAt(sortedAscending, i - 1);
        return true;
      }
      i := i + 1;
    }
    needed := false;
  }

  function Whole(count: nat): seq<real> {
    seq(count, i => (i + 1) as real)
  }

  method Renormalize(count: nat) returns (out: array<real>)
    ensures fresh(out) && out[..] == Whole(count)
  {
    out := new real[count](_ => 0.0);
    for i := 0 to count
      invariant forall k | 0 <= k < i :: out[k] == (k + 1) as real
    {
      out[i] := (i + 1) as real;
    }
  }

  // ----- Inserting siblings -----

  datatype Sibling = Sibling(id: nat, order: real)

  function Orders(siblings: seq<Sibling>): seq<real> {
    seq(|siblings|, i requires 0 <= i < |siblings| => siblings[i].order)
  }

  function Ids(siblings: seq<Sibling>): seq<nat> {
    seq(|siblings|, i requires 0 <= i < |siblings| => siblings[i].id)
  }

  predicate Ascending(siblings: seq<Sibling>) {
    forall i, j | 0 <= i < j < |siblings| :: siblings[i].order < siblings[j].order
  }

  /** A list with `x` put behind position `at`, at the end when there is nothing behind it. */
  function Placed<T>(s: seq<T>, at: nat, x: T): seq<T> {
    if at + 1 < |s| then s[..at + 1] + [x] + s[at + 1..] else s + [x]
  }

  /** Inserts a sibling behind position `at`; None when the gap there is exhausted. */
  function Insert(siblings: seq<Sibling>, at: nat, id: nat): Option<seq<Sibling>> {
    var order := if at + 1 < |siblings| then MidpointSortOrder(siblings[at].order, siblings[at + 1].order)
                 else Some(NextSortOrder(Orders(siblings)));
    match order
    case None => None
    case Some(o) => Some(Placed(siblings, at, Sibling(id, o)))
  }

  function Renormalized(siblings: seq<Sibling>): seq<Sibling> {
    seq(|siblings|, i requires 0 <= i < |siblings| => siblings[i].(order := (i + 1) as real))
  }

  /** Renormalises and retries when the gap is exhausted. */
  function InsertAlways(siblings: seq<Sibling>, at: nat, id: nat): seq<Sibling> {
    Insert(siblings, at, id).GetOr(Insert(Renormalized(siblings), at, id).GetOr(siblings))
  }

  lemma InsertKeepsOrder(siblings: seq<Sibling>, at: nat, id: nat)
    requires Ascending(siblings) && Insert(siblings, at, id).Some?
    ensures Ascending(Insert(siblings, at, id).value)
    ensures Ids(Insert(siblings, at, id).value) == Placed(Ids(siblings), at, id)
  {
    var more := Insert(siblings, at, id).value;
    var k := if at + 1 < |siblings| then at + 1 else |siblings|;
    PlacedAscends(siblings, at, more[k]);
    PlacedIds(siblings, at, more[k]);
  }

  /**
   * The first sibling gets one, one that is appended the last order plus one,
   * and one inserted between two others the middle between theirs; the orders of
   * the others stay.
   */
  lemma OrderGiven(siblings: seq<Sibling>, at: nat, id: nat)
    ensures siblings == [] ==> Insert(siblings, at, id) == Some([Sibling(id, 1.0)])
    ensures siblings != [] && at + 1 >= |siblings| ==>
              Insert(siblings, at, id) == Some(siblings + [Sibling(id, siblings[|siblings| - 1].order + 1.0)])
    ensures at + 1 < |siblings| ==>
      var before, after := siblings[at].order, siblings[at + 1].order;
      Insert(siblings, at, id) ==
        if after - before <= 0.000001 then None
        else Some(siblings[..at + 1] + [Sibling(id, (before + after) / 2.0)] + siblings[at + 1..])
  {
    assert siblings == [] ==> siblings + [Sibling(id, 1.0)] == [Sibling(id, 1.0)];
  }

  /** A sibling between its neighbours keeps the list ascending. */
  lemma PlacedAscends(siblings: seq<Sibling>, at: nat, x: Sibling)
    requires Ascending(siblings)
    requires at + 1 < |siblings| ==> siblings[at].order < x.order < siblings[at + 1].order
    requires at + 1 >= |siblings| && siblings != [] ==> siblings[|siblings| - 1].order < x.order
    ensures Ascending(Placed(siblings, at, x))
  {
  }

  lemma PlacedIds(siblings: seq<Sibling>, at: nat, x: Sibling)
    ensures Ids(Placed(siblings, at, x)) == Placed(Ids(siblings), at, x.id)
  {
    var ids, placed := Ids(siblings), Placed(siblings, at, x);
    assert at + 1 < |siblings| ==> |placed| == |siblings| + 1 && placed[at + 1] == x;
    forall i | 0 <= i < |placed| ensures Ids(placed)[i] == Placed(ids, at, x.id)[i] {
    }
  }

  /** An insertion can fail somewhere exactly when renormalisation is due. */
  lemma FailsIff(siblings: seq<Sibling>, id: nat)
    ensures (exists at :: Insert(siblings, at, id).None?)
       <==> (exists i :: 0 <= i < |siblings| - 1 && !RoomAt(Orders(siblings), i))
  {
    var orders := Orders(siblings);
    forall at: nat ensures Insert(siblings, at, id).None? <==> at + 1 < |siblings| && !RoomAt(orders, at) {
    }
  }

  /** Renormalising keeps the order of the siblings, and after it any insertion succeeds. */
  lemma RetrySucceeds(siblings: seq<Sibling>, at: nat, id: nat)
    ensures Ids(Renormalized(siblings)) == Ids(siblings) && Ascending(Renormalized(siblings))
    ensures Insert(Renormalized(siblings), at, id).Some?
  {
  }

  /** Siblings inserted one after the other, each behind a position of the list there is by then. */
  function InsertAll(siblings: seq<Sibling>, ats: seq<nat>, ids: seq<nat>): seq<Sibling>
    requires |ats| == |ids|
  {
    if ats == [] then siblings
    else
      var n := |ats| - 1;
      InsertAlways(InsertAll(siblings, ats[..n], ids[..n]), ats[n], ids[n])
  }

  function PlacedAll(ids: seq<nat>, ats: seq<nat>, added: seq<nat>): seq<nat>
    requires |ats| == |added|
  {
    if ats == [] then ids
    else
      var n := |ats| - 1;
      Placed(PlacedAll(ids, ats[..n], added[..n]), ats[n], added[n])
  }

  /** However many siblings are inserted wherever, each stands where it was put and the orders stay strictly ascending. */
  lemma {:induction false} OrderIsKept(siblings: seq<Sibling>, ats: seq<nat>, ids: seq<nat>)
    requires Ascending(siblings) && |ats| == |ids|
    ensures Ascending(InsertAll(siblings, ats, ids))
    ensures Ids(InsertAll(siblings, ats, ids)) == PlacedAll(Ids(siblings), ats, ids)
  {
    if ats == [] {
    } else {
      var n := |ats| - 1;
      OrderIsKept(siblings, ats[..n], ids[..n]);
      InsertAlwaysPlaces(InsertAll(siblings, ats[..n], ids[..n]), ats[n], ids[n]);
    }
  }

  lemma InsertAlwaysPlaces(siblings: seq<Sibling>, at: nat, id: nat)
    requires Ascending(siblings)
    ensures Ascending(InsertAlways(siblings, at, id))
    ensures Ids(InsertAlways(siblings, at, id)) == Placed(Ids(siblings), at, id)
  {
    if Insert(siblings, at, id).Some? {
      InsertKeepsOrder(siblings, at, id);
    } else {
      RetrySucceeds(siblings, at, id);
      InsertKeepsOrder(Renormalized(siblings), at, id);
    }
  }

  // ----- How many insertions a respaced list takes -----

  /** One half to the power of `k`. */
  function Half(k: nat): real {
    if k == 0 then 1.0 else Half(k - 1) / 2.0
  }

  lemma {:induction false} HalfShrinks(k: nat, n: nat)
    requires k <= n
    ensures 0.0 < Half(n) <= Half(k)
  {
    if k < n {
      HalfShrinks(k, n - 1);
    } else if n > 0 {
      HalfShrinks(0, n - 1);
    }
  }

  /** The threshold lies between the nineteenth and the twentieth halving of a gap of one. */
  lemma ThresholdBetween()
    ensures Half(20) <= RENORMALIZE_THRESHOLD < Half(19)
  {
    assert Half(4) == 1.0 / 16.0;
    assert Half(8) == 1.0 / 256.0;
    assert Half(12) == 1.0 / 4096.0;
    assert Half(16) == 1.0 / 65536.0;
    assert Half(19) == 1.0 / 524288.0;
  }

  predicate Spaced(siblings: seq<Sibling>, gap: real) {
    forall i | 0 <= i < |siblings| - 1 :: siblings[i + 1].order - siblings[i].order >= gap
  }

  /** Insertions without renormalising; None once one fails. */
  function InsertPlainly(siblings: seq<Sibling>, ats: seq<nat>, ids: seq<nat>): Option<seq<Sibling>>
    requires |ats| == |ids|
  {
    if ats == [] then Some(siblings)
    else
      var n := |ats| - 1;
      match InsertPlainly(siblings, ats[..n], ids[..n])
      case None => None
      case Some(s) => Insert(s, ats[n], ids[n])
  }

  lemma InsertHalvesGaps(siblings: seq<Sibling>, at: nat, id: nat, gap: real)
    requires Spaced(siblings, gap) && RENORMALIZE_THRESHOLD < gap <= 1.0
    ensures Insert(siblings, at, id).Some? && Spaced(Insert(siblings, at, id).value, gap / 2.0)
  {
    var more := Insert(siblings, at, id).value;
    forall i | 0 <= i < |more| - 1 ensures more[i + 1].order - more[i].order >= gap / 2.0 {
      if at + 1 < |siblings| && i > at + 1 {
        assert more[i] == siblings[i - 1] && more[i + 1] == siblings[i];
      }
    }
  }

  lemma {:induction false} GapsAfter(siblings: seq<Sibling>, ats: seq<nat>, ids: seq<nat>)
    requires Spaced(siblings, 1.0) && |ats| == |ids| <= 20
    ensures InsertPlainly(siblings, ats, ids).Some?
    ensures Spaced(InsertPlainly(siblings, ats, ids).value, Half(|ats|))
  {
    if ats == [] {
    } else {
      var n := |ats| - 1;
      GapsAfter(siblings, ats[..n], ids[..n]);
      ThresholdBetween();
      HalfShrinks(n, 19);
      HalfShrinks(0, n);
      InsertHalvesGaps(InsertPlainly(siblings, ats[..n], ids[..n]).value, ats[n], ids[n], Half(n));
    }
  }

  lemma {:induction false} PlainlyKeepsOrder(siblings: seq<Sibling>, ats: seq<nat>, ids: seq<nat>)
    requires Ascending(siblings) && |ats| == |ids| && InsertPlainly(siblings, ats, ids).Some?
    ensures Ascending(InsertPlainly(siblings, ats, ids).value)
    ensures Ids(InsertPlainly(siblings, ats, ids).value) == PlacedAll(Ids(siblings), ats, ids)
  {
    if ats == [] {
    } else {
      var n := |ats| - 1;
      PlainlyKeepsOrder(siblings, ats[..n], ids[..n]);
      InsertKeepsOrder(InsertPlainly(siblings, ats[..n], ids[..n]).value, ats[n], ids[n]);
    }
  }

  /** A respaced list takes any twenty insertions, staying strictly ascending. */
  lemma TwentyInsertsSucceed(siblings: seq<Sibling>, ats: seq<nat>, ids: seq<nat>)
    requires |ats| == |ids| <= 20
    ensures
      var r := InsertPlainly(Renormalized(siblings), ats, ids);
      r.Some? && Ascending(r.value) && Ids(r.value) == PlacedAll(Ids(siblings), ats, ids)
  {
    RetrySucceeds(siblings, 0, 0);
    GapsAfter(Renormalized(siblings), ats, ids);
    PlainlyKeepsOrder(Renormalized(siblings), ats, ids);
  }

  function Again(at: nat, n: nat): seq<nat> {
    seq(n, _ => at)
  }

  /** The gap behind a position halves each time something is inserted there. */
  lemma {:induction false} SameGapHalves(siblings: seq<Sibling>, at: nat, ids: seq<nat>)
    requires at + 1 < |siblings| && siblings[at + 1].order - siblings[at].order == 1.0 && |ids| <= 20
    ensures
      var r := InsertPlainly(siblings, Again(at, |ids|), ids);
      r.Some? && at + 1 < |r.value| && r.value[at + 1].order - r.value[at].order == Half(|ids|)
  {
    if ids == [] {
    } else {
      var n := |ids| - 1;
      SameGapHalves(siblings, at, ids[..n]);
      assert Again(at, n + 1)[..n] == Again(at, n);
      ThresholdBetween();
      HalfShrinks(n, 19);
    }
  }

  /** And twenty is exact: the twenty-first at one place always fails. */
  lemma TwentyFirstFails(siblings: seq<Sibling>, at: nat, ids: seq<nat>)
    requires at + 1 < |siblings| && |ids| == 21
    ensures InsertPlainly(Renormalized(siblings), Again(at, 21), ids).None?
  {
    var start := Renormalized(siblings);
    SameGapHalves(start, at, ids[..20]);
    assert Again(at, 21)[..20] == Again(at, 20);
    ThresholdBetween();
  }

  // ----- Self-healing after a reorder -----

  /** Respaces the listed siblings in place when any two have come too close; afterwards no two are. */
  method RenormalizeIfNeeded(siblings: array<Sibling>)
    modifies siblings
    ensures Ids(siblings[..]) == Ids(old(siblings[..]))
    ensures forall i | 0 <= i < siblings.Length - 1 :: RoomAt(Orders(siblings[..]), i)
    ensures siblings[..] == old(siblings[..]) || siblings[..] == Renormalized(old(siblings[..]))
    ensures (forall i | 0 <= i < siblings.Length - 1 :: RoomAt(Orders(old(siblings[..])), i)) ==>
              siblings[..] == old(siblings[..])
  {
    var values := Orders(siblings[..]);
    var needed := NeedsRenormalize(values);
    if !needed {
      return;
    }
    var normalized := Renormalize(siblings.Length);
    assert forall k | 0 <= k < siblings.Length :: normalized[k] == normalized[..][k] == (k + 1) as real;
    for i := 0 to siblings.Length
      invariant forall k | 0 <= k < siblings.Length :: normalized[k] == (k + 1) as real
      invariant forall k | 0 <= k < i :: siblings[k] == old(siblings[..])[k].(order := (k + 1) as real)
      invariant forall k | i <= k < siblings.Length :: siblings[k] == old(siblings[..])[k]
    {
      siblings[i] := siblings[i].(order := normalized[i]);
    }
    assert siblings[..] == Renormalized(old(siblings[..]));
  }
}
