/** The points ledger: one positive row per scored attempt, and a denormalised balance per hotkey. */
module PointsLedger {
  import opened Common
  import opened RealMaps

  datatype Entry = Entry(hotkey: string, attempt: string, delta: real, balanceAfter: real)

  datatype Books = Books(ledger: seq<Entry>, balances: map<string, real>)

  /** Numbers that are missing, NaN or infinite are None. */
  datatype Score = Score(attempt: string, hotkey: string, composite: Option<real>)

  datatype Settings = Settings(enabled: bool, scale: Option<real>, weighPrices: bool,
                               floor: Option<real>, ceil: Option<real>, missing: Option<real>)

  datatype Prices = Prices(list: Option<real>, catalog: Option<real>)

  datatype Earned = Nothing | Existing(at: nat) | Minted(at: nat)

  function Positive(x: Option<real>): Option<real> {
    if x.Some? && x.value > 0.0 then x else None
  }

  function Ratio(x: real, y: real): real
    requires y > 0.0
  {
    x / y
  }

  /** Catalog over list price, clamped to the (ordered) floor and ceiling; neutral when anything is unknown. */
  function PriceWeight(p: Prices, s: Settings): real {
    var neutral := Positive(s.missing).GetOr(1.0);
    if !s.weighPrices then 1.0
    else if Positive(p.list).None? || Positive(p.catalog).None? then neutral
    else if Positive(s.floor).None? || Positive(s.ceil).None? then neutral
    else
      var lo := if s.floor.value > s.ceil.value then s.ceil.value else s.floor.value;
      var hi := if s.floor.value > s.ceil.value then s.floor.value else s.ceil.value;
      var ratio := Ratio(p.catalog.value, p.list.value);
      if ratio < lo then lo else if ratio > hi then hi else ratio
  }

  function EarnDelta(composite: Option<real>, scale: Option<real>, weight: real): real {
    if Positive(composite).None? || Positive(scale).None? || weight <= 0.0 then 0.0
    else Times(Times(composite.value, scale.value), weight)
  }

  function FindAttempt(ledger: seq<Entry>, attempt: string): (i: nat)
    ensures i <= |ledger|
    ensures i < |ledger| ==> ledger[i].attempt == attempt
    ensures forall k :: 0 <= k < i ==> ledger[k].attempt != attempt
  {
    if ledger == [] then 0 else if ledger[0].attempt == attempt then 0 else 1 + FindAttempt(ledger[1..], attempt)
  }

  function Balance(b: Books, hotkey: string): real {
    if hotkey in b.balances then b.balances[hotkey] else 0.0
  }

  function Mint(b: Books, hotkey: string, attempt: string, delta: real): Books {
    var after := Balance(b, hotkey) + delta;
    Books(b.ledger + [Entry(hotkey, attempt, delta, after)], b.balances[hotkey := after])
  }

  function Earn(b: Books, score: Score, p: Prices, s: Settings): (Books, Earned) {
    if score.attempt == "" || score.hotkey == "" then (b, Nothing)
    else
      var i := FindAttempt(b.ledger, score.attempt);
      var delta := EarnDelta(score.composite, s.scale, PriceWeight(p, s));
      if i < |b.ledger| then (b, Existing(i))
      else if !s.enabled || delta <= 0.0 then (b, Nothing)
      else (Mint(b, score.hotkey, score.attempt, delta), Minted(|b.ledger|))
  }

  // ----- the invariant

  /** Sum of the deltas of `hotkey`. */
  function Deltas(ledger: seq<Entry>, hotkey: string): real {
    if ledger == [] then 0.0
    else Deltas(ledger[..|ledger| - 1], hotkey)
         + if ledger[|ledger| - 1].hotkey == hotkey then ledger[|ledger| - 1].delta else 0.0
  }

  function AllDeltas(ledger: seq<Entry>): real {
    if ledger == [] then 0.0 else AllDeltas(ledger[..|ledger| - 1]) + ledger[|ledger| - 1].delta
  }

  ghost predicate Conserved(b: Books) {
    && (forall h :: Balance(b, h) == Deltas(b.ledger, h))
    && Sum(b.balances) == AllDeltas(b.ledger)
  }

  ghost predicate RunningSums(ledger: seq<Entry>) {
    forall i :: 0 <= i < |ledger| ==> ledger[i].balanceAfter == Deltas(ledger[..i + 1], ledger[i].hotkey)
  }

  ghost predicate OnePositiveRowPerAttempt(ledger: seq<Entry>) {
    && (forall i :: 0 <= i < |ledger| ==> ledger[i].delta > 0.0 && ledger[i].attempt != "" && ledger[i].hotkey != "")
    && (forall i, k :: 0 <= i < k < |ledger| ==> ledger[i].attempt != ledger[k].attempt)
  }

  ghost predicate Inv(b: Books) {
    Conserved(b) && RunningSums(b.ledger) && OnePositiveRowPerAttempt(b.ledger)
  }

  lemma LedgerGrows(ledger: seq<Entry>, e: Entry, h: string)
    ensures Deltas(ledger + [e], h) == Deltas(ledger, h) + if e.hotkey == h then e.delta else 0.0
    ensures AllDeltas(ledger + [e]) == AllDeltas(ledger) + e.delta
  {
    assert (ledger + [e])[..|ledger + [e]| - 1] == ledger;
  }

  lemma BalancesGrow(balances: map<string, real>, hotkey: string, delta: real)
    ensures Sum(balances[hotkey := (if hotkey in balances then balances[hotkey] else 0.0) + delta])
            == Sum(balances) + delta
  {
    hide Sum;
    var after := balances[hotkey := (if hotkey in balances then balances[hotkey] else 0.0) + delta];
    SumSplit(after, hotkey);
    assert after - {hotkey} == balances - {hotkey};
    if hotkey in balances {
      SumSplit(balances, hotkey);
    } else {
      assert balances - {hotkey} == balances;
    }
  }

  lemma MintConserves(b: Books, hotkey: string, attempt: string, delta: real)
    requires Conserved(b)
    ensures Conserved(Mint(b, hotkey, attempt, delta))
  {
    hide Sum, Deltas, AllDeltas;
    var b' := Mint(b, hotkey, attempt, delta);
    BalancesGrow(b.balances, hotkey, delta);
    LedgerGrows(b.ledger, b'.ledger[|b.ledger|], hotkey);
    forall h ensures Balance(b', h) == Deltas(b'.ledger, h)
    {
      LedgerGrows(b.ledger, b'.ledger[|b.ledger|], h);
    }
  }

  lemma MintKeepsRunningSums(b: Books, hotkey: string, attempt: string, delta: real)
    requires Conserved(b) && RunningSums(b.ledger)
    ensures RunningSums(Mint(b, hotkey, attempt, delta).ledger)
  {
    var l := Mint(b, hotkey, attempt, delta).ledger;
    forall i | 0 <= i < |l| ensures l[i].balanceAfter == Deltas(l[..i + 1], l[i].hotkey)
    {
      if i < |b.ledger| {
        assert l[..i + 1] == b.ledger[..i + 1];
      } else {
        assert l[..i + 1] == l && l[..|l| - 1] == b.ledger;
      }
    }
  }

  lemma EarnKeepsInv(b: Books, score: Score, p: Prices, s: Settings)
    requires Inv(b)
    ensures Inv(Earn(b, score, p, s).0) && b.ledger <= Earn(b, score, p, s).0.ledger
  {
    hide Conserved, RunningSums, EarnDelta, PriceWeight;
    var delta := EarnDelta(score.composite, s.scale, PriceWeight(p, s));
    MintConserves(b, score.hotkey, score.attempt, delta);
    MintKeepsRunningSums(b, score.hotkey, score.attempt, delta);
  }

  // ----- runs

  datatype Seal = Seal(score: Score, prices: Prices, settings: Settings)

  function Run(b: Books, seals: seq<Seal>): Books
    decreases |seals|
  {
    if seals == [] then b else Run(Earn(b, seals[0].score, seals[0].prices, seals[0].settings).0, seals[1..])
  }

  /** A run is its seals in order: one more is one more earning. */
  lemma {:induction false} RunIsInOrder(b: Books, seals: seq<Seal>, next: Seal)
    ensures Run(b, seals + [next]) == Earn(Run(b, seals), next.score, next.prices, next.settings).0
    ensures Run(b, []) == b
    decreases |seals|
  {
    hide Earn;
    if seals == [] {
      assert seals + [next] == [next] && [next][1..] == [];
    } else {
      assert (seals + [next])[0] == seals[0] && (seals + [next])[1..] == seals[1..] + [next];
      RunIsInOrder(Earn(b, seals[0].score, seals[0].prices, seals[0].settings).0, seals[1..], next);
    }
  }

  lemma {:induction false} RunKeepsInv(b: Books, seals: seq<Seal>)
    requires Inv(b)
    ensures Inv(Run(b, seals)) && b.ledger <= Run(b, seals).ledger
    decreases |seals|
  {
    hide Earn, Inv;
    if seals != [] {
      EarnKeepsInv(b, seals[0].score, seals[0].prices, seals[0].settings);
      RunKeepsInv(Earn(b, seals[0].score, seals[0].prices, seals[0].settings).0, seals[1..]);
    }
  }

  /**
   In every reachable state each balance is the sum of its hotkey's deltas, the balances add up to all
   deltas minted, every `balance_after` is the running sum, and each attempt has at most one positive row.
   */
  lemma EveryRunIsConserved(seals: seq<Seal>)
    ensures Inv(Run(Books([], map[]), seals))
  {
    RunKeepsInv(Books([], map[]), seals);
  }

  /** Once an attempt has minted, sealing it again changes nothing, even re-scored, re-priced or re-assigned. */
  lemma AttemptMintsOnce(b: Books, first: Seal, seals: seq<Seal>, again: Seal)
    requires Inv(b) && Earn(b, first.score, first.prices, first.settings).1.Minted?
    requires again.score.attempt == first.score.attempt && again.score.hotkey != ""
    ensures var after := Run(Earn(b, first.score, first.prices, first.settings).0, seals);
            Earn(after, again.score, again.prices, again.settings) == (after, Existing(|b.ledger|))
  {
    var minted := Earn(b, first.score, first.prices, first.settings).0;
    var after := Run(minted, seals);
    EarnKeepsInv(b, first.score, first.prices, first.settings);
    RunKeepsInv(minted, seals);
    hide PriceWeight, EarnDelta;
    assert minted.ledger[|b.ledger|].attempt == first.score.attempt;
    assert after.ledger[|b.ledger|] == minted.ledger[|b.ledger|];
    assert FindAttempt(after.ledger, first.score.attempt) == |b.ledger|;
  }

  lemma PriceWeightPositive(p: Prices, s: Settings)
    ensures PriceWeight(p, s) > 0.0
  {
  }

  /** Points are minted exactly for the first positive score of a named attempt while earning is on. */
  lemma MintsIff(b: Books, score: Score, p: Prices, s: Settings)
    ensures Earn(b, score, p, s).1.Minted? <==>
            && score.attempt != "" && score.hotkey != ""
            && (forall i :: 0 <= i < |b.ledger| ==> b.ledger[i].attempt != score.attempt)
            && s.enabled && Positive(score.composite).Some? && Positive(s.scale).Some?
    ensures Earn(b, score, p, s).1.Minted? && !s.weighPrices ==>
            Balance(Earn(b, score, p, s).0, score.hotkey) == Balance(b, score.hotkey)
              + Times(score.composite.value, s.scale.value)
    ensures !Earn(b, score, p, s).1.Minted? ==> Earn(b, score, p, s).0 == b
  {
  }

  // ----- what a mint is worth

  /** Both prices and both bounds are known and positive. */
  ghost predicate Priced(p: Prices, s: Settings) {
    && p.list.Some? && p.list.value > 0.0 && p.catalog.Some? && p.catalog.value > 0.0
    && s.floor.Some? && s.floor.value > 0.0 && s.ceil.Some? && s.ceil.value > 0.0
  }

  /**
   The weight is the catalog price over the list price, pulled to the nearer bound, whichever way round the bounds are
   set; 1 with weighting off; and the setting for missing prices, 1 if that is no good, when a price is unknown.
   */
  lemma PriceWeightIs(p: Prices, s: Settings)
    ensures var w := PriceWeight(p, s);
            && (!s.weighPrices ==> w == 1.0)
            && (s.weighPrices && !Priced(p, s) ==>
                  w == if s.missing.Some? && s.missing.value > 0.0 then s.missing.value else 1.0)
            && (s.weighPrices && Priced(p, s) ==>
                  var a, b := s.floor.value, s.ceil.value;
                  var low, high := if a <= b then a else b, if a <= b then b else a;
                  && (p.catalog.value < Times(low, p.list.value) ==> w == low)
                  && (p.catalog.value > Times(high, p.list.value) ==> w == high)
                  && (Times(low, p.list.value) <= p.catalog.value <= Times(high, p.list.value) ==>
                        Times(w, p.list.value) == p.catalog.value))
  {
    hide Ratio, Times;
    if s.weighPrices && Priced(p, s) {
      RatioAgainst(p.catalog.value, p.list.value, s.floor.value);
      RatioAgainst(p.catalog.value, p.list.value, s.ceil.value);
    }
  }

  lemma RatioAgainst(x: real, y: real, bound: real)
    requires y > 0.0
    ensures Times(Ratio(x, y), y) == x
    ensures Ratio(x, y) < bound <==> x < Times(bound, y)
    ensures Ratio(x, y) > bound <==> x > Times(bound, y)
  {
    var q := Ratio(x, y);
    assert q * y == x;
    Cancels(q, bound, y);
    Cancels(bound, q, y);
  }

  lemma Cancels(a: real, b: real, y: real)
    requires y > 0.0
    ensures a < b <==> a * y < b * y
  {
  }

  /** A mint writes one row of composite times scale times weight, and adds exactly that to the hotkey's balance. */
  lemma EarnWrites(b: Books, score: Score, p: Prices, s: Settings)
    ensures var (b', out) := Earn(b, score, p, s);
            && (out.Existing? ==> out.at < |b.ledger| && b.ledger[out.at].attempt == score.attempt)
            && (!out.Minted? ==> b' == b)
            && (out.Minted? ==>
                  && score.composite.Some? && score.composite.value > 0.0 && s.scale.Some? && s.scale.value > 0.0
                  && var delta := Times(Times(score.composite.value, s.scale.value), PriceWeight(p, s));
                     var after := (if score.hotkey in b.balances then b.balances[score.hotkey] else 0.0) + delta;
                     && b'.ledger == b.ledger + [Entry(score.hotkey, score.attempt, delta, after)]
                     && b'.balances == b.balances[score.hotkey := after] && out.at == |b.ledger|)
  {
    hide PriceWeight, Times;
  }

  // ----- the price weight

  /** With a floor of at most 1 and a ceiling above it, only a list price under the catalog price earns extra. */
  lemma BargainEarnsMoreIff(p: Prices, s: Settings)
    requires s.weighPrices && Positive(p.list).Some? && Positive(p.catalog).Some?
    requires Positive(s.floor).Some? && s.ceil.Some? && s.floor.value <= 1.0 < s.ceil.value
    ensures PriceWeight(p, s) > 1.0 <==> p.list.value < p.catalog.value
    ensures s.floor.value <= PriceWeight(p, s) <= s.ceil.value
  {
    RatioAboveOne(p.catalog.value, p.list.value);
    hide Ratio;
  }

  lemma RatioAboveOne(x: real, y: real)
    requires x > 0.0 && y > 0.0
    ensures Ratio(x, y) > 1.0 <==> y < x
  {
    OneTimes(Ratio(x, y), x, y);
  }

  lemma OneTimes(q: real, x: real, y: real)
    requires y > 0.0 && q * y == x
    ensures q > 1.0 <==> y < x
  {
  }

  /** A cheaper offer never earns less than a dearer one. */
  lemma CheaperNeverEarnsLess(p: Prices, q: Prices, s: Settings)
    requires p.catalog == q.catalog && Positive(p.list).Some? && Positive(q.list).Some? && p.list.value <= q.list.value
    ensures PriceWeight(p, s) >= PriceWeight(q, s)
  {
    if Positive(p.catalog).Some? {
      RatioAntitone(p.catalog.value, p.list.value, q.list.value);
    }
    hide Ratio;
  }

  lemma RatioAntitone(x: real, y: real, z: real)
    requires x > 0.0 && 0.0 < y <= z
    ensures Ratio(x, y) >= Ratio(x, z) > 0.0
  {
    var a, b := Ratio(x, y), Ratio(x, z);
    assert a * y == x && b * z == x;
  }

  // ----- the tables

  class LedgerStore {
    var ledger: seq<Entry>
    var balances: map<string, real>

    ghost function State(): Books
      reads this
    {
      Books(ledger, balances)
    }

    ghost predicate Valid()
      reads this
    {
      Inv(State())
    }

    constructor ()
      ensures Valid() && State() == Books([], map[])
    {
      ledger, balances := [], map[];
    }

    /** Add `delta` to the balance row, creating it when missing. */
    method UpsertBalance(hotkey: string, delta: real) returns (after: real)
      modifies this`balances
      ensures after == Balance(old(State()), hotkey) + delta && balances == old(balances)[hotkey := after]
    {
      if hotkey !in balances {
        after := delta;
      } else {
        after := balances[hotkey] + delta;
      }
      balances := balances[hotkey := after];
    }

    method EarnFromScore(score: Score, p: Prices, s: Settings) returns (r: Earned)
      requires Valid()
      modifies this
      ensures Valid() && (State(), r) == Earn(old(State()), score, p, s)
    {
      hide Inv, PriceWeight, EarnDelta, FindAttempt;
      EarnKeepsInv(State(), score, p, s);
      if score.attempt == "" || score.hotkey == "" {
        return Nothing;
      }
      var i := FindAttempt(ledger, score.attempt);
      if i < |ledger| {
        return Existing(i);
      }
      if !s.enabled {
        return Nothing;
      }
      var weight := PriceWeight(p, s);
      var delta := EarnDelta(score.composite, s.scale, weight);
      if delta <= 0.0 {
        return Nothing;
      }
      var after := UpsertBalance(score.hotkey, delta);
      ledger := ledger + [Entry(score.hotkey, score.attempt, delta, after)];
      return Minted(|ledger| - 1);
    }
  }
}
