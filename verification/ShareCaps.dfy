/** What the share cap does to final shares, what the leaderboard keeps, and what is actually posted. */
module ShareCaps {
  import opened Common
  import opened RealMaps
  import opened Incentive

  /** Shares without and with the cap. */
  ghost function Plain(m: Mass): Mass { Normalize(m, 0.0) }
  ghost function Capped(m: Mass, f: real): Mass { Normalize(MaxFraction(m, Some(f)), 0.0) }

  ghost function Most(m: Mass, f: real): real { Times(f, Sum(m)) }

  /** The setting of the cap lemmas: some mass and a cap that applies. */
  ghost predicate Capable(m: Mass, f: real) {
    Clean(m) && m != map[] && 0.0 < f < 1.0
  }

  lemma CappedMass(m: Mass, f: real)
    requires Capable(m, f)
    ensures Sum(m) > 0.0 && Most(m, f) > 0.0
    ensures MaxFraction(m, Some(f)) == CapAt(m, Most(m, f)) && Clean(CapAt(m, Most(m, f)))
    ensures 0.0 < Sum(CapAt(m, Most(m, f))) <= Sum(m)
    ensures (exists k :: k in m && m[k] > Most(m, f)) ==> Sum(CapAt(m, Most(m, f))) < Sum(m)
  {
    SumPositive(m);
    PositiveTimes(f, Sum(m));
    assert Clamp(m, 0.0) == m;
    var c := CapAt(m, Most(m, f));
    assert Clamp(c, 0.0) == c;
    SumPositive(c);
    SumMonotone(c, m);
  }

  lemma Shares(m: Mass, f: real, k: string)
    requires Capable(m, f) && k in m
    ensures Sum(m) > 0.0 && Sum(CapAt(m, Most(m, f))) > 0.0
    ensures k in Plain(m) && Plain(m)[k] == Over(m[k], Sum(m))
    ensures k in Capped(m, f)
    ensures Capped(m, f)[k] == Over(Min(m[k], Most(m, f)), Sum(CapAt(m, Most(m, f))))
  {
    CappedMass(m, f);
    var c := CapAt(m, Most(m, f));
    assert Clamp(c, 0.0) == c && Clamp(m, 0.0) == m;
  }

  lemma LargerTotal(x: real, t: real, t': real)
    requires x >= 0.0 && 0.0 < t' <= t
    ensures Over(x, t') >= Over(x, t)
    ensures x > 0.0 && t' < t ==> Over(x, t') > Over(x, t)
  {
    var r, r' := 1.0 / t, 1.0 / t';
    assert r' * t' == 1.0 && r * t == 1.0;
    assert r' >= r;
    OverIsTimes(x, t);
    OverIsTimes(x, t');
  }

  /** Whoever stays under the cap gains (or keeps) share from it. */
  lemma UncappedNeverLose(m: Mass, f: real, k: string)
    requires Capable(m, f) && k in m && m[k] <= Most(m, f)
    ensures Share(Capped(m, f), k) >= Share(Plain(m), k)
  {
    CappedMass(m, f);
    Shares(m, f, k);
    LargerTotal(m[k], Sum(m), Sum(CapAt(m, Most(m, f))));
  }

  /** Capping all to `c` keeps at least the fraction `c/top` of every entry. */
  lemma CapKeepsFraction(m: Mass, top: string, c: real)
    requires Clean(m) && top in m && (forall k :: k in m ==> m[k] <= m[top]) && 0.0 < c <= m[top]
    ensures Sum(CapAt(m, c)) >= Times(Sum(m), c / m[top])
  {
    var q := c / m[top];
    assert 0.0 < q <= 1.0 && q * m[top] == c;
    forall k | k in m ensures Times(m[k], q) <= Min(m[k], c)
    {
      FractionBound(m[k], m[top], q);
    }
    SumMonotone(Scale(m, q), CapAt(m, c));
    SumScale(m, q);
  }

  lemma FractionBound(x: real, top: real, q: real)
    requires 0.0 < x <= top && 0.0 < q <= 1.0
    ensures Times(x, q) <= x && Times(x, q) <= q * top
  {
  }

  lemma CrossShares(c: real, t': real, top: real, t: real)
    requires c > 0.0 && t' > 0.0 && top > 0.0 && t > 0.0 && t' >= Times(t, c / top)
    ensures Over(c, t') <= Over(top, t)
  {
  }

  /** The cap never concentrates: no final share exceeds the largest uncapped share. */
  lemma CapNeverConcentrates(m: Mass, f: real, top: string, k: string)
    requires Capable(m, f) && top in m && (forall j :: j in m ==> m[j] <= m[top]) && k in m
    ensures Share(Capped(m, f), k) <= Share(Plain(m), top)
  {
    var c := Most(m, f);
    CappedMass(m, f);
    Shares(m, f, k);
    Shares(m, f, top);
    var t, t' := Sum(m), Sum(CapAt(m, c));
    if m[top] <= c {
      assert CapAt(m, c) == m;
      OverMonotone(m[k], m[top], t);
    } else {
      CapKeepsFraction(m, top, c);
      CrossShares(c, t', m[top], t);
      OverMonotone(Min(m[k], c), c, t');
    }
  }

  lemma OverMonotone(x: real, y: real, t: real)
    requires x <= y && t > 0.0
    ensures Over(x, t) <= Over(y, t)
  {
  }

  lemma OverOfMost(f: real, t: real)
    requires t > 0.0
    ensures Over(Times(f, t), t) == f
  {
  }

  /**
   The final shares obey the cap exactly when no share exceeded it to begin with. As soon as one entry
   is cut, the cut entry's final share is above the cap.
   */
  lemma CapHoldsIffNothingIsCut(m: Mass, f: real)
    requires Capable(m, f)
    ensures (forall k :: k in m ==> Share(Capped(m, f), k) <= f) <==> (forall k :: k in m ==> m[k] <= Most(m, f))
  {
    var c := Most(m, f);
    CappedMass(m, f);
    var t, t' := Sum(m), Sum(CapAt(m, c));
    OverOfMost(f, t);
    if forall k :: k in m ==> m[k] <= c {
      assert CapAt(m, c) == m;
      forall k | k in m ensures Share(Capped(m, f), k) <= f
      {
        Shares(m, f, k);
        OverMonotone(m[k], c, t);
      }
    } else {
      var k :| k in m && m[k] > c;
      Shares(m, f, k);
      LargerTotal(c, t, t');
      assert Share(Capped(m, f), k) > f;
    }
  }

  // ----- posting

  /**
   The posted map drops keys that are not hotkeys after it was normalised, so it sums to 1 exactly when
   every key that carries weight is a hotkey.
   */
  lemma PostedSumIsOneIff(m: Mass, n: Knobs, hotkeys: set<string>)
    requires n.normalize && Finalize(m, n) != map[]
    ensures var posted := Restrict(Finalize(m, n), hotkeys);
            && Sum(posted) <= 1.0
            && (Sum(posted) == 1.0 <==> Finalize(m, n).Keys <= hotkeys)
  {
    FinalizeSumsToOneOrEmpty(m, n);
    SumRestrict(Finalize(m, n), hotkeys);
  }

  // ----- the leaderboard

  lemma ClampWithout(m: Mass, top: string)
    requires top in m && top != "" && m[top] > 0.0
    ensures top in Clamp(m, 0.0) && Clamp(m - {top}, 0.0) == Clamp(m, 0.0) - {top}
    ensures |Clamp(m - {top}, 0.0)| == |Clamp(m, 0.0)| - 1
  {
    var p := Clamp(m, 0.0);
    assert Clamp(m - {top}, 0.0) == p - {top};
    assert (p - {top}).Keys == p.Keys - {top};
  }

  /** If anything has mass, the top of the board has, and it is ahead of everything that has. */
  lemma TopHasMass(m: Mass, board: seq<string>)
    requires IsRanking(m, board) && Clamp(m, 0.0) != map[] && forall k :: k in m ==> k != "" && m[k] >= 0.0
    ensures board != [] && board[0] in m && m[board[0]] > 0.0
    ensures forall j :: j in Clamp(m, 0.0) && j != board[0] ==> Ahead(Clamp(m, 0.0), board[0], j)
  {
    var k :| k in Clamp(m, 0.0);
    assert board[0] in m && (k != board[0] ==> Ahead(m, board[0], k));
    assert forall j :: j in Clamp(m, 0.0) && j != board[0] ==> Ahead(m, board[0], j);
  }

  /** A ranking is its top, followed by a ranking of the rest. */
  lemma RankingJoins(p: Mass, top: string, board: seq<string>)
    requires top in p && IsRanking(p - {top}, board) && forall j :: j in p && j != top ==> Ahead(p, top, j)
    ensures IsRanking(p, [top] + board)
  {
    assert ([top] + board)[1..] == board;
  }

  lemma {:induction false} PositivePrefix(m: Mass, board: seq<string>)
    requires IsRanking(m, board) && forall k :: k in m ==> k != "" && m[k] >= 0.0
    ensures |Clamp(m, 0.0)| <= |board|
    ensures IsRanking(Clamp(m, 0.0), board[..|Clamp(m, 0.0)|])
    decreases |board|
  {
    hide Clamp, Ahead;
    var p := Clamp(m, 0.0);
    if p != map[] {
      var top := board[0];
      TopHasMass(m, board);
      ClampWithout(m, top);
      PositivePrefix(m - {top}, board[1..]);
      RankingJoins(p, top, board[1..][..|p| - 1]);
      assert board[..|p|] == [top] + board[1..][..|p| - 1];
    }
  }

  /** The top-k survivors are the first `k` leaderboard rows with positive mass, ties broken the same way. */
  lemma SurvivorsAreLeaderboardHead(m: Mass, board: seq<string>, k: int)
    requires IsRanking(m, board) && (forall x :: x in m ==> x != "" && m[x] >= 0.0) && k > 0
    ensures var n := if k < |Clamp(m, 0.0)| then k else |Clamp(m, 0.0)|;
            && |board| >= n && TopK(m, Some(k)).Keys == Elems(board[..n])
            && forall x :: x in TopK(m, Some(k)) ==> x in m && TopK(m, Some(k))[x] == m[x]
  {
    var p := Clamp(m, 0.0);
    PositivePrefix(m, board);
    RankingIsUnique(p, board[..|p|], Ranking(p));
    RankingListsKeys(p, Ranking(p));
    if k < |p| {
      assert Ranking(p)[..k] == board[..k];
      forall x | x in Elems(board[..k]) ensures x in p
      {
        assert x in Ranking(p)[..k];
      }
    }
  }

  // ----- the loops

  function NonNegative(m: Mass): (r: Mass)
    ensures r.Keys == m.Keys
    ensures forall k :: k in m ==> r[k] >= 0.0 && r[k] >= m[k] && (r[k] == 0.0 || r[k] == m[k])
  {
    map k | k in m :: if m[k] < 0.0 then 0.0 else m[k]
  }

  lemma TakeOne(m: Mass, todo: set<string>, k: string)
    requires k in m && k in todo
    ensures Sum(Restrict(m, todo)) == m[k] + Sum(Restrict(m, todo - {k}))
  {
    SumSplit(Restrict(m, todo), k);
    assert Restrict(m, todo) - {k} == Restrict(m, todo - {k});
  }

  /** Running total; negative entries count as zero. */
  method WeightSum(m: Mass) returns (total: real)
    ensures total == Sum(NonNegative(m))
  {
    ghost var all := NonNegative(m);
    total := 0.0;
    var todo := m.Keys;
    assert Restrict(all, todo) == all;
    while todo != {}
      invariant todo <= m.Keys && total + Sum(Restrict(all, todo)) == Sum(all)
      decreases |todo|
    {
      var k :| k in todo;
      TakeOne(all, todo, k);
      hide Sum, Restrict;
      total := total + (if m[k] < 0.0 then 0.0 else m[k]);
      todo := todo - {k};
    }
    assert Restrict(all, {}) == map[];
  }

  method CapEach(m: Mass, most: real) returns (capped: Mass)
    ensures capped == CapAt(m, most)
  {
    capped := map[];
    var todo := m.Keys;
    while todo != {}
      invariant todo <= m.Keys && capped.Keys == m.Keys - todo
      invariant forall k :: k in capped ==> capped[k] == Min(m[k], most)
      decreases |todo|
    {
      var k :| k in todo;
      capped := capped[k := Min(m[k], most)];
      todo := todo - {k};
    }
  }

  /** Clamp each share to `f` of the current total; the result is not yet normalised. */
  method ApplyMaxFraction(m: Mass, f: Option<real>) returns (capped: Mass)
    ensures capped == MaxFraction(m, f)
  {
    var cleaned := Clamp(m, 0.0);
    if f.None? || f.value <= 0.0 || f.value >= 1.0 {
      return cleaned;
    }
    var total := WeightSum(cleaned);
    assert NonNegative(cleaned) == cleaned;
    if total <= 0.0 {
      return map[];
    }
    capped := CapEach(cleaned, Times(f.value, total));
    return Clamp(capped, 0.0);
  }
}
