/** The SQL aggregates that the ORM and sqlite evaluate over the column values that
    survive a WHERE clause, and Python's `x or default` applied to their results.
    SUM and MAX of no rows are NULL, which is modelled as None. */
module Aggregates {
  import opened Wrappers

  /** The arithmetic sum of a list of column values. */
  function Total(xs: seq<int>): int {
    if xs == [] then 0 else xs[0] + Total(xs[1..])
  }

  /** `SUM(col)`: NULL over no rows, otherwise the sum. */
  function SqlSum(xs: seq<int>): (r: Option<int>)
    ensures r.None? <==> xs == []
    ensures r.Some? ==> r.value == Total(xs)
  {
    if xs == [] then None else Some(Total(xs))
  }

  /** `MAX(col)`: NULL over no rows, otherwise the largest value. */
  function SqlMax(xs: seq<int>): (r: Option<int>)
    ensures r.None? <==> xs == []
    ensures r.Some? ==> r.value in xs
    ensures r.Some? ==> forall x :: x in xs ==> x <= r.value
  {
    if xs == [] then None
    else
      assert forall x :: x in xs ==> x == xs[0] || x in xs[1..];
      match SqlMax(xs[1..])
      case None => Some(xs[0])
      case Some(m) => Some(if xs[0] < m then m else xs[0])
  }

  /** Python's `v or d`: both NULL and 0 are falsy and give the default. */
  function OrDefault(v: Option<int>, d: int): (r: int)
    ensures v.Some? && v.value != 0 ==> r == v.value
    ensures v.None? || v.value == 0 ==> r == d
    ensures d == 0 ==> r == v.GetOr(0)
  {
    if v.None? || v.value == 0 then d else v.value
  }

  lemma {:induction false} TotalAppend(xs: seq<int>, ys: seq<int>)
    ensures Total(xs + ys) == Total(xs) + Total(ys)
  {
    if xs != [] {
      assert (xs + ys)[1..] == xs[1..] + ys;
      TotalAppend(xs[1..], ys);
    } else {
      assert xs + ys == ys;
    }
  }

  /** `SUM(col) or 0` is the plain sum: the default covers exactly the NULL of no rows
      (a sum that is 0 is replaced by 0). */
  lemma SumOrZero(xs: seq<int>)
    ensures OrDefault(SqlSum(xs), 0) == Total(xs)
  {
    if xs == [] {
      assert Total(xs) == 0;
    }
  }

  /** `MAX(col) or d` is d exactly when there are no rows or the maximum is 0, and
      otherwise the largest value. */
  lemma MaxOrDefault(xs: seq<int>, d: int)
    ensures xs == [] ==> OrDefault(SqlMax(xs), d) == d
    ensures xs != [] && SqlMax(xs).value != 0 ==>
      OrDefault(SqlMax(xs), d) in xs && forall x :: x in xs ==> x <= OrDefault(SqlMax(xs), d)
    ensures xs != [] && SqlMax(xs).value == 0 ==> OrDefault(SqlMax(xs), d) == d
  {
  }
}
