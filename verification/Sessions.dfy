/** Lists of sessions of which only the first two do anything. */
module Sessions {
  function Alike<T>(n: nat, rest: T): (r: seq<T>)
    ensures |r| == n && forall p :: 0 <= p < n ==> r[p] == rest
  {
    seq(n, _ => rest)
  }

  /** Sessions 0 and 1 as given, all others as `rest`. */
  function Two<T>(a: T, b: T, rest: T, n: nat): (r: seq<T>)
    requires n >= 2
    ensures |r| == n && r[0] == a && r[1] == b && forall p :: 2 <= p < n ==> r[p] == rest
  {
    [a, b] + Alike(n - 2, rest)
  }

  lemma TwoUpdate<T>(a: T, b: T, c: T, rest: T, n: nat)
    requires n >= 2
    ensures Two(a, b, rest, n)[0 := c] == Two(c, b, rest, n) && Two(a, b, rest, n)[1 := c] == Two(a, c, rest, n)
  {
  }

  lemma TwoAlike<T>(rest: T, n: nat)
    requires n >= 2
    ensures Two(rest, rest, rest, n) == Alike(n, rest)
  {
  }
}
