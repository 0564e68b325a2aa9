/** From absolute mass to posted weights: clamp, top-k, share cap, dust, sum-normalise. */
module Incentive {
  import opened Common
  import opened RealMaps

  function Floor(dust: real): real {
    if dust <= 0.0 then 0.0 else dust
  }

  function Clamp(m: Mass, dust: real): (r: Mass)
    ensures forall k :: k in r <==> k in m && k != "" && m[k] > Floor(dust)
    ensures forall k :: k in r ==> r[k] == m[k] > 0.0
  {
    map k | k in m && k != "" && m[k] > Floor(dust) :: m[k]
  }

  /** Only named, positive entries. */
  ghost predicate Clean(m: Mass) {
    forall k :: k in m ==> k != "" && m[k] > 0.0
  }

  lemma HasRanking(m: Mass)
    ensures exists order :: IsRanking(m, order)
  {
    var order := RankingExists(m);
  }

  /** The keys of `m` sorted by descending value, then by key. */
  ghost function Ranking(m: Mass): (order: seq<string>)
    ensures IsRanking(m, order)
  {
    HasRanking(m);
    var order :| IsRanking(m, order);
    order
  }

  /** The `k` best entries; everything when `k` is missing, not positive or large enough. */
  ghost function TopK(m: Mass, k: Option<int>): Mass {
    var c := Clamp(m, 0.0);
    if k.None? || k.value <= 0 || k.value >= |c| then c
    else
      RankingListsKeys(c, Ranking(c));
      Restrict(c, Elems(Ranking(c)[..k.value]))
  }

  function Min(x: real, y: real): real {
    if x < y then x else y
  }

  function CapAt(m: Mass, most: real): Mass {
    map k | k in m :: Min(m[k], most)
  }

  predicate CapApplies(f: Option<real>) {
    f.Some? && 0.0 < f.value < 1.0
  }

  ghost function MaxFraction(m: Mass, f: Option<real>): Mass {
    var c := Clamp(m, 0.0);
    if !CapApplies(f) then c
    else if Sum(c) <= 0.0 then map[]
    else Clamp(CapAt(c, Times(f.value, Sum(c))), 0.0)
  }

  function Over(x: real, total: real): real
    requires total > 0.0
  {
    x / total
  }

  ghost function Normalize(m: Mass, dust: real): Mass {
    var c := Clamp(m, dust);
    if Sum(c) <= 0.0 then map[] else map k | k in c :: Over(c[k], Sum(c))
  }

  datatype Knobs = Knobs(normalize: bool, topK: Option<int>, maxFraction: Option<real>, dust: real)

  /** Mass after the policies, before dust and normalisation. */
  ghost function Shaped(m: Mass, n: Knobs): Mass {
    var a := Clamp(m, 0.0);
    var b := if n.topK.Some? then TopK(a, n.topK) else a;
    if n.maxFraction.Some? then MaxFraction(b, n.maxFraction) else b
  }

  ghost function Finalize(m: Mass, n: Knobs): Mass {
    var c := Clamp(Shaped(m, n), n.dust);
    if n.normalize then Normalize(c, 0.0) else c
  }

  function Share(w: Mass, k: string): real {
    if k in w then w[k] else 0.0
  }

  // ----- normalisation

  lemma OverIsTimes(x: real, total: real)
    requires total > 0.0
    ensures Over(x, total) == Times(x, 1.0 / total)
    ensures x > 0.0 ==> Over(x, total) > 0.0
  {
  }

  lemma NormalizeIsScale(m: Mass)
    requires Clean(m) && m != map[]
    ensures Sum(m) > 0.0 && Normalize(m, 0.0) == Scale(m, 1.0 / Sum(m))
  {
    SumPositive(m);
    assert Clamp(m, 0.0) == m;
    forall k | k in m ensures Over(m[k], Sum(m)) == Times(m[k], 1.0 / Sum(m))
    {
      OverIsTimes(m[k], Sum(m));
    }
  }

  lemma Inverse(t: real)
    requires t > 0.0
    ensures Times(t, 1.0 / t) == 1.0 && 1.0 / t > 0.0
  {
  }

  lemma UnitIsFixed(w: Mass)
    requires Clean(w) && Sum(w) == 1.0
    ensures Normalize(w, 0.0) == w
  {
    assert Clamp(w, 0.0) == w;
    assert forall k :: k in w ==> Over(w[k], 1.0) == w[k];
  }

  /** A map with any mass becomes positive shares that sum to 1; normalising again changes nothing. */
  lemma NormalizeSumsToOne(m: Mass)
    requires Clean(m) && m != map[]
    ensures var w := Normalize(m, 0.0);
            w.Keys == m.Keys && Clean(w) && Sum(w) == 1.0 && Normalize(w, 0.0) == w
  {
    NormalizeIsScale(m);
    SumScale(m, 1.0 / Sum(m));
    Inverse(Sum(m));
    var r := 1.0 / Sum(m);
    var w := Normalize(m, 0.0);
    hide Times, Normalize;
    forall k | k in w ensures k != "" && w[k] > 0.0
    {
      PositiveTimes(m[k], r);
    }
    UnitIsFixed(w);
  }

  lemma PositiveTimes(x: real, r: real)
    requires x > 0.0 && r > 0.0
    ensures Times(x, r) > 0.0
  {
  }

  lemma EmptyNormalizes()
    ensures Normalize(map[], 0.0) == map[] && Clamp(map[], 0.0) == map[]
  {
  }

  lemma ShapedIsClean(m: Mass, n: Knobs)
    ensures Clean(Shaped(m, n))
  {
  }

  /** The emission map sums to 1 or is empty, and is empty exactly when no shaped mass exceeds the dust floor. */
  lemma FinalizeSumsToOneOrEmpty(m: Mass, n: Knobs)
    requires n.normalize
    ensures var w := Finalize(m, n);
            && Clean(w) && (w == map[] || Sum(w) == 1.0)
            && (w == map[] <==> forall k :: k in Shaped(m, n) ==> Shaped(m, n)[k] <= Floor(n.dust))
  {
    var s := Shaped(m, n);
    ShapedIsClean(m, n);
    hide Shaped;
    var c := Clamp(s, n.dust);
    if c == map[] {
      EmptyNormalizes();
      forall k | k in s ensures s[k] <= Floor(n.dust)
      {
        assert k !in c;
      }
    } else {
      NormalizeSumsToOne(c);
      var k :| k in c;
    }
  }

  // ----- the ranking decides the weights

  /** Whoever ranks higher by base mass gets at least as much of `w`; nobody outside the base gets anything. */
  ghost predicate Respects(base: Mass, w: Mass) {
    && w.Keys <= base.Keys && Clean(w)
    && forall a, b {:trigger Ahead(base, a, b)} ::
         a in base && b in base && Ahead(base, a, b) ==> Share(w, a) >= Share(w, b)
  }

  lemma TopKRespects(base: Mass, k: Option<int>)
    requires Clean(base)
    ensures Respects(base, TopK(base, k))
  {
    assert Clamp(base, 0.0) == base;
    var t := TopK(base, k);
    var order := Ranking(base);
    RankingListsKeys(base, order);
    forall a, b | a in base && b in base && Ahead(base, a, b) ensures Share(t, a) >= Share(t, b)
    {
      if b in t && a !in t {
        var i :| 0 <= i < |order[..k.value]| && order[i] == b;
        var j :| 0 <= j < |order| && order[j] == a;
        RankingIsSorted(base, order, i, j);
        AheadTotal(base, a, b);
        assert false;
      }
    }
  }

  lemma MaxFractionRespects(base: Mass, s: Mass, f: Option<real>)
    requires Respects(base, s)
    ensures Respects(base, MaxFraction(s, f))
  {
  }

  lemma DustRespects(base: Mass, s: Mass, dust: real)
    requires Respects(base, s)
    ensures Respects(base, Clamp(s, dust))
  {
  }

  lemma NormalizeRespects(base: Mass, s: Mass)
    requires Respects(base, s)
    ensures Respects(base, Normalize(s, 0.0))
  {
  }

  /** Emission agrees with the leaderboard order, under every top-k, share-cap and dust setting. */
  lemma EmissionFollowsRanking(m: Mass, n: Knobs)
    ensures Respects(Clamp(m, 0.0), Finalize(m, n))
  {
    var base := Clamp(m, 0.0);
    assert Respects(base, base) by {
      assert forall a, b :: a in base && b in base && Ahead(base, a, b) ==> base[a] >= base[b];
    }
    TopKRespects(base, n.topK);
    var b := if n.topK.Some? then TopK(base, n.topK) else base;
    MaxFractionRespects(base, b, n.maxFraction);
    var s := Shaped(m, n);
    assert Respects(base, s);
    hide Respects, Shaped;
    DustRespects(base, s, n.dust);
    NormalizeRespects(base, Clamp(s, n.dust));
  }
}
