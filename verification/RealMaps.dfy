/** Sums of finite maps to reals, and the ranking of their keys by value. */
module RealMaps {
  type Mass = map<string, real>

  ghost function Sum(m: Mass): real {
    if m == map[] then 0.0 else var k :| k in m; m[k] + Sum(m - {k})
  }

  /** Any key may be taken out first. */
  lemma {:induction false} SumSplit(m: Mass, k: string)
    requires k in m
    ensures Sum(m) == m[k] + Sum(m - {k})
    decreases |m|
  {
    var j :| j in m && Sum(m) == m[j] + Sum(m - {j});
    if j != k {
      SumSplit(m - {j}, k);
      SumSplit(m - {k}, j);
      assert m - {j} - {k} == m - {k} - {j};
    }
  }

  lemma {:induction false} SumMonotone(a: Mass, b: Mass)
    requires a.Keys == b.Keys && forall k :: k in a ==> a[k] <= b[k]
    ensures Sum(a) <= Sum(b)
    ensures (exists k :: k in a && a[k] < b[k]) ==> Sum(a) < Sum(b)
    decreases |a|
  {
    if a != map[] {
      var k :| k in a && ((exists j :: j in a && a[j] < b[j]) ==> a[k] < b[k]);
      SumSplit(a, k);
      SumSplit(b, k);
      SumMonotone(a - {k}, b - {k});
    } else {
      assert b == map[];
    }
  }

  function Times(x: real, r: real): real {
    x * r
  }

  function Scale(m: Mass, r: real): Mass {
    map k | k in m :: Times(m[k], r)
  }

  lemma ScaleWithout(m: Mass, r: real, k: string)
    requires k in m
    ensures k in Scale(m, r) && Scale(m, r)[k] == Times(m[k], r)
    ensures Scale(m, r) - {k} == Scale(m - {k}, r)
  {
  }

  lemma {:induction false} SumScale(m: Mass, r: real)
    ensures Sum(Scale(m, r)) == Times(Sum(m), r)
    decreases |m|
  {
    hide Times;
    if m == map[] {
      assert Scale(m, r) == map[];
      Distribute(0.0, 0.0, r);
    } else {
      hide Sum, Scale;
      var k :| k in m;
      ScaleWithout(m, r, k);
      SumSplit(m, k);
      SumSplit(Scale(m, r), k);
      SumScale(m - {k}, r);
      Distribute(m[k], Sum(m - {k}), r);
    }
  }

  lemma Distribute(a: real, b: real, r: real)
    ensures Times(a + b, r) == Times(a, r) + Times(b, r)
    ensures Times(0.0, r) == 0.0
  {
  }

  lemma {:induction false} SumPositive(m: Mass)
    requires forall k :: k in m ==> m[k] > 0.0
    ensures Sum(m) >= 0.0 && (m != map[] ==> Sum(m) > 0.0)
    decreases |m|
  {
    if m != map[] {
      var k :| k in m;
      SumSplit(m, k);
      SumPositive(m - {k});
    }
  }

  function Restrict(m: Mass, keys: set<string>): Mass {
    map k | k in m && k in keys :: m[k]
  }

  lemma {:induction false} SumRestrict(m: Mass, keys: set<string>)
    requires forall k :: k in m ==> m[k] > 0.0
    ensures Sum(Restrict(m, keys)) <= Sum(m)
    ensures Sum(Restrict(m, keys)) == Sum(m) <==> m.Keys <= keys
    decreases |m|
  {
    if m == map[] {
    } else if m.Keys <= keys {
      assert Restrict(m, keys) == m;
    } else {
      var k :| k in m && k !in keys;
      SumSplit(m, k);
      assert Restrict(m, keys) == Restrict(m - {k}, keys);
      SumRestrict(m - {k}, keys);
    }
  }

  // ----- string order

  /** Lexicographic order by code point. */
  predicate Less(a: string, b: string) {
    if b == [] then false
    else if a == [] then true
    else a[0] < b[0] || (a[0] == b[0] && Less(a[1..], b[1..]))
  }

  lemma {:induction false} LessTotal(a: string, b: string)
    ensures a == b || Less(a, b) || Less(b, a)
    ensures !(Less(a, b) && Less(b, a)) && !Less(a, a)
    decreases |a|
  {
    if a != [] {
      LessTotal(a[1..], a[1..]);
      if b != [] && a[0] == b[0] {
        LessTotal(a[1..], b[1..]);
        assert a == [a[0]] + a[1..] && b == [b[0]] + b[1..];
      }
    }
  }

  lemma {:induction false} LessTransitive(a: string, b: string, c: string)
    requires Less(a, b) && Less(b, c)
    ensures Less(a, c)
    decreases |a|
  {
    if a != [] && a[0] == b[0] == c[0] {
      LessTransitive(a[1..], b[1..], c[1..]);
    }
  }

  // ----- ranking

  /** Larger value first, smaller key first among equals. */
  predicate Ahead(m: Mass, a: string, b: string)
    requires a in m && b in m
  {
    m[a] > m[b] || (m[a] == m[b] && Less(a, b))
  }

  lemma AheadTotal(m: Mass, a: string, b: string)
    requires a in m && b in m
    ensures a == b || Ahead(m, a, b) || Ahead(m, b, a)
    ensures !(Ahead(m, a, b) && Ahead(m, b, a)) && !Ahead(m, a, a)
  {
    LessTotal(a, b);
    LessTotal(a, a);
  }

  lemma AheadTransitive(m: Mass, a: string, b: string, c: string)
    requires a in m && b in m && c in m && Ahead(m, a, b) && Ahead(m, b, c)
    ensures Ahead(m, a, c)
  {
    if m[a] == m[b] == m[c] {
      LessTransitive(a, b, c);
    }
  }

  /** All keys, each once, best first. */
  ghost predicate IsRanking(m: Mass, order: seq<string>)
    decreases |order|
  {
    if order == [] then m == map[]
    else
      && order[0] in m && (forall k :: k in m && k != order[0] ==> Ahead(m, order[0], k))
      && IsRanking(m - {order[0]}, order[1..])
  }

  lemma {:induction false} RankingIsUnique(m: Mass, a: seq<string>, b: seq<string>)
    requires IsRanking(m, a) && IsRanking(m, b)
    ensures a == b
    decreases |a|
  {
    hide Less;
    if a != [] && b != [] {
      AheadTotal(m, a[0], b[0]);
      RankingIsUnique(m - {a[0]}, a[1..], b[1..]);
      assert a == [a[0]] + a[1..] && b == [b[0]] + b[1..];
    }
  }

  lemma {:induction false} RankingListsKeys(m: Mass, order: seq<string>)
    requires IsRanking(m, order)
    ensures |order| == |m| && forall k :: k in m <==> k in order
    decreases |order|
  {
    hide Ahead;
    if order != [] {
      RankingListsKeys(m - {order[0]}, order[1..]);
      assert order == [order[0]] + order[1..];
    }
  }

  /** Earlier in the ranking means ahead, for any two positions. */
  lemma {:induction false} RankingIsSorted(m: Mass, order: seq<string>, i: nat, j: nat)
    requires IsRanking(m, order) && i < j < |order|
    ensures order[i] in m && order[j] in m && order[i] != order[j] && Ahead(m, order[i], order[j])
    decreases |order|
  {
    hide Less;
    RankingListsKeys(m - {order[0]}, order[1..]);
    if i == 0 {
      assert order[1..][j - 1] in order[1..];
    } else {
      RankingIsSorted(m - {order[0]}, order[1..], i - 1, j - 1);
    }
  }

  lemma {:induction false} TopExists(m: Mass) returns (top: string)
    requires m != map[]
    ensures top in m && forall k :: k in m && k != top ==> Ahead(m, top, k)
    decreases |m|
  {
    var x :| x in m;
    var rest := m - {x};
    assert forall k :: k in m && k != x ==> k in rest && rest[k] == m[k];
    if rest == map[] {
      top := x;
    } else {
      top := TopExists(rest);
      assert forall k :: k in rest && k != top ==> Ahead(rest, top, k) && Ahead(m, top, k);
      AheadTotal(m, x, top);
      if Ahead(m, x, top) {
        forall k | k in m && k != x ensures Ahead(m, x, k)
        {
          if k != top {
            AheadTransitive(m, x, top, k);
          }
        }
        top := x;
      }
    }
  }

  /** Every map has a ranking. */
  lemma {:induction false} RankingExists(m: Mass) returns (order: seq<string>)
    ensures IsRanking(m, order)
    decreases |m|
  {
    if m == map[] {
      order := [];
    } else {
      var top := TopExists(m);
      var rest := RankingExists(m - {top});
      order := [top] + rest;
      assert order[1..] == rest;
    }
  }
}
