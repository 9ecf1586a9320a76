/** `orderBy: {createdAt: "desc"}`, shared by the project and message queries: rows sorted
    newest first by a creation time that `createdAt` reads off each row. */
module Ordering {

  /** Newest first: no row comes before a newer one. */
  ghost predicate NewestFirst<T>(rows: seq<T>, createdAt: T -> int)
  {
    forall i, j :: 0 <= i < j < |rows| ==> createdAt(rows[i]) >= createdAt(rows[j])
  }

  /** Each row is no younger than the next one. */
  ghost predicate NewestFirstStepwise<T>(rows: seq<T>, createdAt: T -> int)
  {
    forall i :: 0 <= i < |rows| - 1 ==> createdAt(rows[i]) >= createdAt(rows[i + 1])
  }

  /** The tail of a stepwise-sorted list is stepwise sorted. */
  lemma StepwiseTail<T>(rows: seq<T>, createdAt: T -> int)
    requires rows != [] && NewestFirstStepwise(rows, createdAt)
    ensures NewestFirstStepwise(rows[1..], createdAt)
  {
    var tail := rows[1..];
    forall i | 0 <= i < |tail| - 1 ensures createdAt(tail[i]) >= createdAt(tail[i + 1]) {
      assert tail[i] == rows[i + 1] && tail[i + 1] == rows[i + 2];
    }
  }

  lemma {:induction false} StepwiseIsNewestFirst<T>(rows: seq<T>, createdAt: T -> int)
    requires NewestFirstStepwise(rows, createdAt)
    ensures NewestFirst(rows, createdAt)
    decreases |rows|
  {
    if |rows| > 1 {
      var tail := rows[1..];
      StepwiseTail(rows, createdAt);
      StepwiseIsNewestFirst(tail, createdAt);
      forall i, j | 0 <= i < j < |rows| ensures createdAt(rows[i]) >= createdAt(rows[j]) {
        if i > 0 {
          assert rows[i] == tail[i - 1] && rows[j] == tail[j - 1];
        } else if j > 1 {
          assert rows[1] == tail[0] && rows[j] == tail[j - 1];
        }
      }
    }
  }

  /** A row no younger than the head of a stepwise-sorted list can go in front of it. */
  lemma StepwiseCons<T>(row: T, rows: seq<T>, createdAt: T -> int)
    requires NewestFirstStepwise(rows, createdAt)
    requires rows != [] ==> createdAt(row) >= createdAt(rows[0])
    ensures NewestFirstStepwise([row] + rows, createdAt)
  {
    var r := [row] + rows;
    forall i | 0 <= i < |r| - 1 ensures createdAt(r[i]) >= createdAt(r[i + 1]) {
      if i > 0 {
        assert r[i] == rows[i - 1] && r[i + 1] == rows[i];
      }
    }
  }

  /** Put `row` into a newest-first list, after every strictly newer row and before the
      first row that is not newer, so that it goes in front of rows with an equal time. */
  function Insert<T>(row: T, rows: seq<T>, createdAt: T -> int): (r: seq<T>)
    requires NewestFirstStepwise(rows, createdAt)
    ensures NewestFirstStepwise(r, createdAt)
    ensures multiset(r) == multiset(rows) + multiset{row}
    ensures |r| == |rows| + 1 && (r[0] == row || (rows != [] && r[0] == rows[0]))
  {
    if rows == [] then [row]
    else if createdAt(row) >= createdAt(rows[0]) then
      StepwiseCons(row, rows, createdAt);
      [row] + rows
    else
      var tail := rows[1..];
      assert rows == [rows[0]] + tail;
      StepwiseTail(rows, createdAt);
      var rest := Insert(row, tail, createdAt);
      StepwiseCons(rows[0], rest, createdAt);
      [rows[0]] + rest
  }

  /** The query's ordering over a whole list of rows. */
  function OrderNewestFirst<T>(rows: seq<T>, createdAt: T -> int): (r: seq<T>)
    ensures NewestFirstStepwise(r, createdAt)
    ensures multiset(r) == multiset(rows)
  {
    if rows == [] then []
    else
      assert rows == [rows[0]] + rows[1..];
      Insert(rows[0], OrderNewestFirst(rows[1..], createdAt), createdAt)
  }

  /** The ordering is sorted newest first and is a permutation of its input. */
  lemma OrderedIsNewestFirst<T>(rows: seq<T>, createdAt: T -> int)
    ensures NewestFirst(OrderNewestFirst(rows, createdAt), createdAt)
    ensures multiset(OrderNewestFirst(rows, createdAt)) == multiset(rows)
  {
    StepwiseIsNewestFirst(OrderNewestFirst(rows, createdAt), createdAt);
  }
}
