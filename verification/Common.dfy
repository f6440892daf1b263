/** Definitions the other modules share: optional values and counting the rows of a table. */
module Common {

  datatype Option<+T> = None | Some(value: T) {
    function GetOr(default: T): T {
      match this
      case None => default
      case Some(v) => v
    }
  }

  /** How many rows of `rows` satisfy `wanted`: SQL's count(*) with a WHERE clause. */
  function Count<T>(rows: seq<T>, wanted: T -> bool): nat {
    if rows == [] then 0
    else Count(rows[..|rows| - 1], wanted) + if wanted(rows[|rows| - 1]) then 1 else 0
  }

  lemma CountAppend<T>(rows: seq<T>, row: T, wanted: T -> bool)
    ensures Count(rows + [row], wanted) == Count(rows, wanted) + if wanted(row) then 1 else 0
  {
    assert (rows + [row])[..|rows|] == rows;
  }

  lemma {:induction false} CountUpdate<T>(rows: seq<T>, i: nat, row: T, wanted: T -> bool)
    requires i < |rows|
    ensures Count(rows[i := row], wanted) + (if wanted(rows[i]) then 1 else 0)
         == Count(rows, wanted) + (if wanted(row) then 1 else 0)
  {
    var last := |rows| - 1;
    if i == last {
      assert rows[i := row][..last] == rows[..last];
    } else {
      assert rows[i := row][..last] == rows[..last][i := row];
      CountUpdate(rows[..last], i, row, wanted);
    }
  }

  lemma {:induction false} CountNone<T>(rows: seq<T>, wanted: T -> bool)
    requires forall i | 0 <= i < |rows| :: !wanted(rows[i])
    ensures Count(rows, wanted) == 0
  {
    if rows == [] {
    } else {
      CountNone(rows[..|rows| - 1], wanted);
    }
  }

  /** A row that is counted exists, and any row that is wanted is counted. */
  lemma {:induction false} CountPositive<T>(rows: seq<T>, wanted: T -> bool)
    ensures Count(rows, wanted) > 0 <==> exists i :: 0 <= i < |rows| && wanted(rows[i])
  {
    if rows == [] {
    } else {
      var last := |rows| - 1;
      CountPositive(rows[..last], wanted);
      if i :| 0 <= i < |rows| && wanted(rows[i]) {
        if i < last {
          assert wanted(rows[..last][i]);
        }
      }
      if Count(rows, wanted) > 0 && !wanted(rows[last]) {
        var i :| 0 <= i < last && wanted(rows[..last][i]);
        assert wanted(rows[i]);
      }
    }
  }

  /**
   * The row a query returns when SQL leaves the choice open: the one the query
   * plan names if it matches, otherwise the first that matches. Letting `plan`
   * range over every number covers every row the database may return.
   */
  function Pick<T>(rows: seq<T>, wanted: T -> bool, plan: nat): (r: Option<nat>)
    ensures r.Some? ==> r.value < |rows| && wanted(rows[r.value])
    ensures r.None? ==> forall i | 0 <= i < |rows| :: !wanted(rows[i])
    ensures plan < |rows| && wanted(rows[plan]) ==> r == Some(plan)
  {
    if plan < |rows| && wanted(rows[plan]) then Some(plan) else First(rows, wanted)
  }

  function First<T>(rows: seq<T>, wanted: T -> bool): (r: Option<nat>)
    ensures r.Some? ==> r.value < |rows| && wanted(rows[r.value])
    ensures r.Some? ==> forall i | 0 <= i < r.value :: !wanted(rows[i])
    ensures r.None? ==> forall i | 0 <= i < |rows| :: !wanted(rows[i])
  {
    if rows == [] then None
    else
      var init := First(rows[..|rows| - 1], wanted);
      if init.Some? then init
      else if wanted(rows[|rows| - 1]) then Some(|rows| - 1)
      else None
  }

  /** ORDER BY created_at DESC LIMIT 1: the matching row that was inserted last. */
  function Latest<T>(rows: seq<T>, wanted: T -> bool): (r: Option<nat>)
    ensures r.Some? ==> r.value < |rows| && wanted(rows[r.value])
    ensures r.Some? ==> forall i | r.value < i < |rows| :: !wanted(rows[i])
    ensures r.None? ==> forall i | 0 <= i < |rows| :: !wanted(rows[i])
  {
    if rows == [] then None
    else if wanted(rows[|rows| - 1]) then Some(|rows| - 1)
    else Latest(rows[..|rows| - 1], wanted)
  }

  lemma LatestAppend<T>(rows: seq<T>, row: T, wanted: T -> bool)
    ensures Latest(rows + [row], wanted) == if wanted(row) then Some(|rows|) else Latest(rows, wanted)
  {
    assert (rows + [row])[..|rows|] == rows;
  }

  lemma {:induction false} LatestUpdate<T>(rows: seq<T>, i: nat, row: T, wanted: T -> bool)
    requires i < |rows| && wanted(row) == wanted(rows[i])
    ensures Latest(rows[i := row], wanted) == Latest(rows, wanted)
  {
    var last := |rows| - 1;
    if i == last {
      assert rows[i := row][..last] == rows[..last];
    } else {
      assert rows[i := row][..last] == rows[..last][i := row];
      LatestUpdate(rows[..last], i, row, wanted);
    }
  }

  /** The ids of the matching rows, in the order of the table. */
  function Where<T>(rows: seq<T>, wanted: T -> bool): (ids: seq<nat>)
    ensures forall k | 0 <= k < |ids| :: ids[k] < |rows| && wanted(rows[ids[k]])
    ensures forall j, k | 0 <= j < k < |ids| :: ids[j] < ids[k]
    ensures forall i | 0 <= i < |rows| :: wanted(rows[i]) <==> i in ids
  {
    if rows == [] then []
    else
      var last := |rows| - 1;
      var init := Where(rows[..last], wanted);
      assert forall i | 0 <= i < last :: rows[..last][i] == rows[i];
      if wanted(rows[last]) then init + [last] else init
  }
}
