/**
 The emission map from the masses themselves: who survives top-k, what the share cap leaves of each survivor, and how
 dust and normalisation turn that into weights.
 */
module EmissionLaws {
  import opened Common
  import opened RealMaps
  import opened Incentive

  /** The keys of positive mass ahead of `k`: those with more mass, or with as much and a smaller name. */
  ghost function Better(m: Mass, k: string): set<string>
    requires k in m
  {
    set j | j in m && j != "" && m[j] > 0.0 && (m[j] > m[k] || (m[j] == m[k] && Less(j, k)))
  }

  /** Named, with positive mass, and among the best `topK` if there is such a limit. */
  ghost predicate Survives(m: Mass, n: Knobs, k: string) {
    && k in m && k != "" && m[k] > 0.0
    && (n.topK.Some? && n.topK.value > 0 ==> |Better(m, k)| < n.topK.value)
  }

  ghost function Survivors(m: Mass, n: Knobs): Mass {
    map k | k in m && Survives(m, n, k) :: m[k]
  }

  ghost function Positives(m: Mass): Mass {
    map k | k in m && k != "" && m[k] > 0.0 :: m[k]
  }

  /** Exactly the keys before position `i` are better than the one at `i`. */
  lemma BetterIsPrefix(m: Mass, order: seq<string>, i: nat)
    requires IsRanking(Positives(m), order) && i < |order|
    ensures order[i] in m && Better(m, order[i]) == Elems(order[..i]) && |Elems(order[..i])| == i
  {
    var p := Positives(m);
    RankingListsKeys(p, order);
    assert order[i] in order;
    forall j ensures j in Better(m, order[i]) <==> j in Elems(order[..i])
    {
      if j in Better(m, order[i]) {
        assert j in p && Ahead(p, j, order[i]);
        var k :| 0 <= k < |order| && order[k] == j;
        NotBefore(p, order, i, k);
        assert order[..i][k] == j;
      }
      if j in Elems(order[..i]) {
        var k :| 0 <= k < i && order[..i][k] == j;
        RankingIsSorted(p, order, k, i);
      }
    }
    PrefixSize(p, order, i);
  }

  lemma NotBefore(p: Mass, order: seq<string>, i: nat, k: nat)
    requires IsRanking(p, order) && i < |order| && k < |order| && order[i] in p && order[k] in p
    requires Ahead(p, order[k], order[i])
    ensures k < i
  {
    AheadTotal(p, order[k], order[i]);
    if i < k {
      RankingIsSorted(p, order, i, k);
    }
  }

  lemma {:induction false} PrefixSize(p: Mass, order: seq<string>, i: nat)
    requires IsRanking(p, order) && i <= |order|
    ensures |Elems(order[..i])| == i
    decreases i
  {
    hide IsRanking;
    if i == 0 {
      assert Elems(order[..0]) == {};
    } else {
      PrefixSize(p, order, i - 1);
      assert order[..i] == order[..i - 1] + [order[i - 1]];
      assert Elems(order[..i]) == Elems(order[..i - 1]) + {order[i - 1]};
      InPrefixIff(p, order, i - 1, i - 1);
    }
  }

  lemma TopKKeepsIff(m: Mass, n: Knobs, k: string)
    requires k in Positives(m) && n.topK.Some? && n.topK.value > 0
    ensures k in TopK(Positives(m), n.topK) <==> Survives(m, n, k)
  {
    hide Better, IsRanking, Less;
    var p := Positives(m);
    var order := Ranking(p);
    assert Clamp(p, 0.0) == p;
    RankingListsKeys(p, order);
    var i :| 0 <= i < |order| && order[i] == k;
    BetterIsPrefix(m, order, i);
    if n.topK.value < |p| {
      InPrefixIff(p, order, i, n.topK.value);
    }
  }

  /** Top-k keeps exactly the survivors, with their mass. */
  lemma TopKKeepsSurvivors(m: Mass, n: Knobs)
    ensures (if n.topK.Some? then TopK(Clamp(m, 0.0), n.topK) else Clamp(m, 0.0)) == Survivors(m, n)
  {
    hide Better, Less, Ranking;
    var p := Positives(m);
    assert Clamp(m, 0.0) == p && Clamp(p, 0.0) == p;
    if n.topK.Some? && n.topK.value > 0 {
      forall k | k in p ensures k in Survivors(m, n) <==> k in TopK(p, n.topK)
      {
        TopKKeepsIff(m, n, k);
      }
      assert TopK(p, n.topK) == Survivors(m, n);
    } else {
      assert Survivors(m, n) == p;
    }
  }

  lemma InPrefixIff(p: Mass, order: seq<string>, i: nat, k: nat)
    requires IsRanking(p, order) && i < |order| && k <= |order|
    ensures order[i] in Elems(order[..k]) <==> i < k
  {
    if i < k {
      assert order[..k][i] == order[i];
    } else if order[i] in Elems(order[..k]) {
      var j :| 0 <= j < k && order[..k][j] == order[i];
      RankingIsSorted(p, order, j, i);
    }
  }

  /**
   What the policies leave: exactly the survivors, each with its mass, cut to the fraction of the survivors' total if a
   share cap between 0 and 1 is set.
   */
  lemma ShapedIs(m: Mass, n: Knobs)
    ensures var kept := Survivors(m, n);
            && Shaped(m, n).Keys == kept.Keys
            && forall k :: k in kept ==>
                 Shaped(m, n)[k] ==
                   if n.maxFraction.Some? && 0.0 < n.maxFraction.value < 1.0
                      && m[k] > n.maxFraction.value * Sum(kept)
                   then n.maxFraction.value * Sum(kept) else m[k]
  {
    var kept := Survivors(m, n);
    TopKKeepsSurvivors(m, n);
    hide TopK, Better, Less, MaxFraction, Sum, Clamp;
    assert Clean(kept);
    MaxFractionIs(kept, n.maxFraction);
  }

  lemma MaxFractionIs(kept: Mass, f: Option<real>)
    requires Clean(kept)
    ensures !CapApplies(f) ==> MaxFraction(kept, f) == kept
    ensures CapApplies(f) ==>
              && MaxFraction(kept, f).Keys == kept.Keys
              && forall k :: k in kept ==> MaxFraction(kept, f)[k] == Min(kept[k], Times(f.value, Sum(kept)))
  {
    hide Sum;
    assert Clamp(kept, 0.0) == kept;
    SumPositive(kept);
    if CapApplies(f) && kept != map[] {
      PositiveTimes(f.value, Sum(kept));
      CutKeepsAll(kept, Times(f.value, Sum(kept)));
    }
  }

  lemma CutKeepsAll(m: Mass, most: real)
    requires Clean(m) && most > 0.0
    ensures Clamp(CapAt(m, most), 0.0) == CapAt(m, most)
  {
  }

  /** The emission map: what is left above the dust floor, divided by its total if normalisation is on. */
  lemma FinalizeIs(m: Mass, n: Knobs)
    ensures var s := Shaped(m, n);
            var solid := map k | k in s && s[k] > n.dust :: s[k];
            && Finalize(m, n).Keys == solid.Keys
            && (n.normalize ==> forall k :: k in solid ==> Times(Finalize(m, n)[k], Sum(solid)) == solid[k])
            && (!n.normalize ==> Finalize(m, n) == solid)
  {
    hide Shaped, Sum, Normalize, Times;
    var s := Shaped(m, n);
    ShapedIsClean(m, n);
    SolidIs(s, n.dust);
    NormalizeIs(map k | k in s && s[k] > n.dust :: s[k]);
  }

  lemma SolidIs(s: Mass, dust: real)
    requires Clean(s)
    ensures var solid := map k | k in s && s[k] > dust :: s[k]; Clamp(s, dust) == solid && Clean(solid)
  {
  }

  lemma NormalizeIs(m: Mass)
    requires Clean(m)
    ensures Normalize(m, 0.0).Keys == m.Keys
    ensures forall k :: k in m ==> Times(Normalize(m, 0.0)[k], Sum(m)) == m[k]
  {
    hide Over, Times, Sum;
    assert Clamp(m, 0.0) == m;
    SumPositive(m);
    if m != map[] {
      forall k | k in m ensures Times(Over(m[k], Sum(m)), Sum(m)) == m[k]
      {
        OverTimes(m[k], Sum(m));
      }
    }
  }

  lemma OverTimes(x: real, total: real)
    requires total > 0.0
    ensures Times(Over(x, total), total) == x
  {
  }
}
