/** Totals of a weight over table rows, and what one changed row does to them. */
module Totals {
  function Others<T>(rows: seq<T>, j: nat): seq<T>
    requires j < |rows|
  {
    rows[..j] + rows[j + 1..]
  }

  function Total<T>(rows: seq<T>, weight: T -> nat): nat {
    if rows == [] then 0 else Total(rows[..|rows| - 1], weight) + weight(rows[|rows| - 1])
  }

  lemma {:induction false} TotalConcat<T>(a: seq<T>, b: seq<T>, weight: T -> nat)
    ensures Total(a + b, weight) == Total(a, weight) + Total(b, weight)
    decreases |b|
  {
    if b == [] {
      assert a + b == a;
    } else {
      var b' := b[..|b| - 1];
      assert (a + b)[..|a + b| - 1] == a + b';
      TotalConcat(a, b', weight);
    }
  }

  lemma TotalOne<T>(row: T, weight: T -> nat)
    ensures Total([row], weight) == weight(row)
  {
    assert Total([], weight) == 0;
  }

  lemma TotalSplit<T>(rows: seq<T>, j: nat, weight: T -> nat)
    requires j < |rows|
    ensures Total(rows, weight) == Total(Others(rows, j), weight) + weight(rows[j])
  {
    hide Total;
    assert rows == rows[..j] + ([rows[j]] + rows[j + 1..]);
    TotalConcat(rows[..j], [rows[j]] + rows[j + 1..], weight);
    TotalConcat([rows[j]], rows[j + 1..], weight);
    TotalConcat(rows[..j], rows[j + 1..], weight);
    TotalOne(rows[j], weight);
  }

  lemma TotalUpdate<T>(rows: seq<T>, j: nat, f: T, weight: T -> nat)
    requires j < |rows|
    ensures Total(rows[j := f], weight) + weight(rows[j]) == Total(rows, weight) + weight(f)
  {
    hide Total;
    TotalSplit(rows, j, weight);
    TotalSplit(rows[j := f], j, weight);
    assert Others(rows[j := f], j) == Others(rows, j);
  }

  lemma {:induction false} TotalPointwise<T>(a: seq<T>, b: seq<T>, weight: T -> nat)
    requires |a| == |b|
    ensures (forall i :: 0 <= i < |a| ==> weight(a[i]) == weight(b[i])) ==> Total(a, weight) == Total(b, weight)
    ensures (forall i :: 0 <= i < |a| ==> weight(a[i]) == 0) ==> Total(a, weight) == 0
  {
    if a != [] {
      TotalPointwise(a[..|a| - 1], b[..|b| - 1], weight);
    }
  }

  function Ones<T>(rows: seq<T>, weight: T -> nat): set<nat> {
    set i: nat | i < |rows| && weight(rows[i]) == 1
  }

  /** A total of ones counts the rows that have one. */
  lemma {:induction false} TotalCounts<T>(rows: seq<T>, weight: T -> nat)
    requires forall i :: 0 <= i < |rows| ==> weight(rows[i]) <= 1
    ensures Total(rows, weight) == |Ones(rows, weight)|
    decreases |rows|
  {
    if rows == [] {
      assert Ones(rows, weight) == {};
    } else {
      var init, n := rows[..|rows| - 1], |rows| - 1;
      TotalCounts(init, weight);
      assert Ones(rows, weight) == Ones(init, weight) + if weight(rows[n]) == 1 then {n} else {};
    }
  }
}
