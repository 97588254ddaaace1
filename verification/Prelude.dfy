/** Option and result types, row selection and totals shared by every module. */
module Prelude {

  datatype Option<+T> = None | Some(value: T)

  datatype Result<+T, +E> = Ok(value: T) | Err(error: E) {
    predicate IsFailure() {
      Err?
    }

    function PropagateFailure<U>(): Result<U, E>
      requires Err?
    {
      Err(error)
    }

    function Extract(): T
      requires Ok?
    {
      value
    }
  }

  /** The positions of the rows that satisfy a query's condition, in table order. */
  function Select<T>(rows: seq<T>, p: T -> bool): (ids: seq<nat>)
    ensures forall i :: i in ids <==> 0 <= i < |rows| && p(rows[i])
    ensures forall j, k | 0 <= j < k < |ids| :: ids[j] < ids[k]
  {
    if rows == [] then []
    else
      var n := |rows| - 1;
      var front := Select(rows[..n], p);
      assert forall j | 0 <= j < |front| :: front[j] in front;
      if p(rows[n]) then front + [n] else front
  }

  /** Two rows satisfying the condition are two rows of the answer. */
  lemma SelectTwo<T>(rows: seq<T>, p: T -> bool, i: nat, j: nat)
    requires i < j < |rows| && p(rows[i]) && p(rows[j])
    ensures |Select(rows, p)| >= 2
  {
    var ids := Select(rows, p);
    var a :| 0 <= a < |ids| && ids[a] == i;
    var b :| 0 <= b < |ids| && ids[b] == j;
  }

  /** A query answer has at most one row exactly when no two rows satisfy the condition. */
  lemma SelectAtMostOne<T>(rows: seq<T>, p: T -> bool)
    ensures |Select(rows, p)| <= 1 <==>
            forall i, j | 0 <= i < j < |rows| :: !(p(rows[i]) && p(rows[j]))
  {
    var ids := Select(rows, p);
    if i, j :| 0 <= i < j < |rows| && p(rows[i]) && p(rows[j]) {
      SelectTwo(rows, p, i, j);
    } else if |ids| > 1 {
      assert ids[0] in ids && ids[1] in ids && ids[0] < ids[1];
    }
  }

  lemma SelectOnly<T>(rows: seq<T>, p: T -> bool, i: nat)
    requires i < |rows| && p(rows[i]) && forall j | 0 <= j < |rows| && j != i :: !p(rows[j])
    ensures Select(rows, p) == [i]
  {
    var ids := Select(rows, p);
    SelectAtMostOne(rows, p);
    assert i in ids;
  }

  /** The sum of a measure over a table. */
  function Total<T>(rows: seq<T>, f: T -> int): int
  {
    if rows == [] then 0 else Total(rows[..|rows| - 1], f) + f(rows[|rows| - 1])
  }

  lemma TotalAppend<T>(rows: seq<T>, f: T -> int, row: T)
    ensures Total(rows + [row], f) == Total(rows, f) + f(row)
  {
    assert (rows + [row])[..|rows|] == rows;
  }

  lemma {:induction false} TotalUpdate<T>(rows: seq<T>, f: T -> int, i: nat, row: T)
    requires i < |rows|
    ensures Total(rows[i := row], f) == Total(rows, f) - f(rows[i]) + f(row)
  {
    var n := |rows| - 1;
    if i == n {
      assert rows[i := row][..n] == rows[..n];
    } else {
      TotalUpdate(rows[..n], f, i, row);
      assert rows[i := row][..n] == rows[..n][i := row];
    }
  }

  /** A measure that is zero on all rows but one totals to its value on that row. */
  lemma {:induction false} TotalOfOne<T>(rows: seq<T>, f: T -> int, i: nat)
    requires i < |rows|
    requires forall j | 0 <= j < |rows| && j != i :: f(rows[j]) == 0
    ensures Total(rows, f) == f(rows[i])
  {
    var n := |rows| - 1;
    if i == n {
      TotalOfNone(rows[..n], f);
    } else {
      TotalOfOne(rows[..n], f, i);
    }
  }

  lemma {:induction false} TotalOfNone<T>(rows: seq<T>, f: T -> int)
    requires forall j | 0 <= j < |rows| :: f(rows[j]) == 0
    ensures Total(rows, f) == 0
  {
    if rows != [] {
      TotalOfNone(rows[..|rows| - 1], f);
    }
  }
}
