/** Score rows to per-hotkey mass: the accumulating loop against plain sums over the rows. */
module Aggregation {
  import opened Common
  import opened RealMaps

  datatype Role = Demand | Supply | Joint

  /** `hotkey` is trimmed; a composite that is missing, NaN or infinite is None. */
  datatype Row = Row(hotkey: string, role: Role, composite: Option<real>, selfDeal: bool)

  datatype Aggregate = Aggregate(total: real, roles: map<Role, real>, scores: nat, selfDeals: nat)

  function Raw(r: Row): real {
    if r.composite.Some? && r.composite.value > 0.0 then r.composite.value else 0.0
  }

  /** Not finite: 0.5. Otherwise clamped to [0, 1]. */
  function Damping(setting: Option<real>): (d: real)
    ensures 0.0 <= d <= 1.0
  {
    if setting.None? then 0.5
    else if setting.value < 0.0 then 0.0 else if setting.value > 1.0 then 1.0 else setting.value
  }

  function Damped(r: Row, setting: Option<real>): real {
    if r.selfDeal then Times(Raw(r), 1.0 - Damping(setting)) else Raw(r)
  }

  // ----- plain sums over rows

  /** Sum of `weight` over the rows of hotkey `h`. */
  function Of(rows: seq<Row>, h: string, weight: Row -> real): real {
    if rows == [] then 0.0
    else Of(rows[..|rows| - 1], h, weight)
         + if rows[|rows| - 1].hotkey == h then weight(rows[|rows| - 1]) else 0.0
  }

  /** Sum of `weight` over every row that names a hotkey. */
  function Overall(rows: seq<Row>, weight: Row -> real): real {
    if rows == [] then 0.0
    else Overall(rows[..|rows| - 1], weight)
         + if rows[|rows| - 1].hotkey != "" then weight(rows[|rows| - 1]) else 0.0
  }

  function MassWeight(setting: Option<real>): Row -> real {
    (r: Row) => Damped(r, setting)
  }

  function RoleWeight(setting: Option<real>, role: Role): Row -> real {
    (r: Row) => if r.role == role then Damped(r, setting) else 0.0
  }

  function One(r: Row): real { 1.0 }

  function FlaggedOne(r: Row): real {
    if r.selfDeal && Raw(r) > 0.0 then 1.0 else 0.0
  }

  function Hotkeys(rows: seq<Row>): set<string> {
    set r | r in rows && r.hotkey != "" :: r.hotkey
  }

  function RolesOf(rows: seq<Row>, h: string): set<Role> {
    set r | r in rows && r.hotkey == h :: r.role
  }

  function RoleShare(roles: map<Role, real>, role: Role): real {
    if role in roles then roles[role] else 0.0
  }

  function RoleTotal(roles: map<Role, real>): real {
    RoleShare(roles, Demand) + RoleShare(roles, Supply) + RoleShare(roles, Joint)
  }

  /** What the two loops compute for one hotkey. */
  ghost predicate Describes(a: Aggregate, rows: seq<Row>, h: string, setting: Option<real>) {
    && a.total == Of(rows, h, MassWeight(setting))
    && a.roles.Keys == RolesOf(rows, h)
    && (forall role :: role in a.roles ==> a.roles[role] == Of(rows, h, RoleWeight(setting, role)))
    && a.scores as real == Of(rows, h, One) && a.selfDeals as real == Of(rows, h, FlaggedOne)
  }

  lemma {:induction false} RolesAddUp(rows: seq<Row>, h: string, setting: Option<real>)
    ensures Of(rows, h, MassWeight(setting))
         == Of(rows, h, RoleWeight(setting, Demand)) + Of(rows, h, RoleWeight(setting, Supply))
            + Of(rows, h, RoleWeight(setting, Joint))
    ensures forall role :: role !in RolesOf(rows, h) ==> Of(rows, h, RoleWeight(setting, role)) == 0.0
    decreases |rows|
  {
    if rows != [] {
      var init, last := rows[..|rows| - 1], rows[|rows| - 1];
      RolesAddUp(init, h, setting);
      hide Damped;
      assert rows == init + [last];
      assert last.hotkey == h ==> last.role in RolesOf(rows, h);
      assert forall role :: role in RolesOf(init, h) ==> role in RolesOf(rows, h);
    }
  }

  lemma SnocRow(rows: seq<Row>, r: Row, h: string)
    ensures Hotkeys(rows + [r]) == Hotkeys(rows) + (if r.hotkey == "" then {} else {r.hotkey})
    ensures RolesOf(rows + [r], h) == RolesOf(rows, h) + (if r.hotkey == h then {r.role} else {})
    ensures forall w: Row -> real :: Of(rows + [r], h, w) == Of(rows, h, w) + if r.hotkey == h then w(r) else 0.0
  {
  }

  lemma HotkeysGrow(rows: seq<Row>, r: Row)
    ensures "" !in Hotkeys(rows)
    ensures Hotkeys(rows + [r]) == Hotkeys(rows) + (if r.hotkey == "" then {} else {r.hotkey})
  {
  }

  lemma {:induction false} NoRowsNoSum(rows: seq<Row>, h: string, w: Row -> real)
    requires h != "" && h !in Hotkeys(rows)
    ensures Of(rows, h, w) == 0.0 && RolesOf(rows, h) == {}
    decreases |rows|
  {
    if rows != [] {
      var init := rows[..|rows| - 1];
      assert rows == init + [rows[|rows| - 1]];
      SnocRow(init, rows[|rows| - 1], h);
      NoRowsNoSum(init, h, w);
    }
  }

  // ----- the loops

  /** What the first loop holds for one hotkey. */
  datatype Tally = Tally(roles: map<Role, real>, scores: nat, selfDeals: nat)

  ghost predicate Tallies(t: Tally, rows: seq<Row>, h: string, setting: Option<real>) {
    && t.roles.Keys == RolesOf(rows, h)
    && (forall role :: role in t.roles ==> t.roles[role] == Of(rows, h, RoleWeight(setting, role)))
    && t.scores as real == Of(rows, h, One) && t.selfDeals as real == Of(rows, h, FlaggedOne)
  }

  function AddRow(t: Tally, r: Row, setting: Option<real>): Tally {
    Tally(t.roles[r.role := RoleShare(t.roles, r.role) + Damped(r, setting)],
          t.scores + 1, if r.selfDeal && Raw(r) > 0.0 then t.selfDeals + 1 else t.selfDeals)
  }

  lemma AddRowTallies(t: Tally, rows: seq<Row>, r: Row, setting: Option<real>)
    requires Tallies(t, rows, r.hotkey, setting)
    ensures Tallies(AddRow(t, r, setting), rows + [r], r.hotkey, setting)
  {
    hide Damped;
    SnocRow(rows, r, r.hotkey);
    RolesAddUp(rows, r.hotkey, setting);
    hide Of, RolesOf;
    var t' := AddRow(t, r, setting);
    forall role | role in t'.roles ensures t'.roles[role] == Of(rows + [r], r.hotkey, RoleWeight(setting, role))
    {
      assert RoleWeight(setting, role)(r) == if r.role == role then Damped(r, setting) else 0.0;
    }
  }

  lemma EmptyTally(rows: seq<Row>, h: string, setting: Option<real>)
    requires h != "" && h !in Hotkeys(rows)
    ensures Tallies(Tally(map[], 0, 0), rows, h, setting)
  {
    NoRowsNoSum(rows, h, One);
    NoRowsNoSum(rows, h, FlaggedOne);
  }

  lemma NoMassNoChange(r: Row, setting: Option<real>)
    ensures Raw(r) <= 0.0 ==> Damped(r, setting) == 0.0
    ensures 0.0 <= Damped(r, setting) <= Raw(r)
    ensures Damped(r, setting) >= Times(Raw(r), 1.0 - Damping(setting))
    ensures !r.selfDeal ==> Damped(r, setting) == Raw(r)
  {
    ShrinkBounds(Raw(r), 1.0 - Damping(setting));
  }

  lemma ShrinkBounds(x: real, q: real)
    requires x >= 0.0 && 0.0 <= q <= 1.0
    ensures 0.0 <= Times(x, q) <= x && Times(0.0, q) == 0.0
  {
  }

  ghost predicate AllTally(tallies: map<string, Tally>, rows: seq<Row>, setting: Option<real>) {
    tallies.Keys == Hotkeys(rows) && forall h :: h in tallies ==> Tallies(tallies[h], rows, h, setting)
  }

  function Pending(tallies: map<string, Tally>, h: string): Tally {
    if h in tallies then tallies[h] else Tally(map[], 0, 0)
  }

  function Tallied(tallies: map<string, Tally>, r: Row, setting: Option<real>): map<string, Tally> {
    if r.hotkey == "" then tallies else tallies[r.hotkey := AddRow(Pending(tallies, r.hotkey), r, setting)]
  }

  lemma OthersKeepTallies(tallies: map<string, Tally>, rows: seq<Row>, r: Row, setting: Option<real>)
    requires AllTally(tallies, rows, setting)
    ensures forall h :: h in tallies && h != r.hotkey ==> Tallies(tallies[h], rows + [r], h, setting)
  {
  }

  lemma PendingTallies(tallies: map<string, Tally>, rows: seq<Row>, h: string, setting: Option<real>)
    requires AllTally(tallies, rows, setting) && h != ""
    ensures Tallies(Pending(tallies, h), rows, h, setting)
  {
    hide Tallies, Hotkeys;
    if h !in tallies {
      EmptyTally(rows, h, setting);
    }
  }

  lemma NothingTallied(rows: seq<Row>, setting: Option<real>)
    requires rows == []
    ensures AllTally(map[], rows, setting)
  {
  }

  lemma TallyStep(tallies: map<string, Tally>, rows: seq<Row>, r: Row, setting: Option<real>)
    requires AllTally(tallies, rows, setting)
    ensures AllTally(Tallied(tallies, r, setting), rows + [r], setting)
  {
    hide Tallies, Hotkeys, AddRow, Pending, Of, RolesOf;
    HotkeysGrow(rows, r);
    OthersKeepTallies(tallies, rows, r, setting);
    if r.hotkey == "" {
      assert forall h :: h in tallies ==> h != r.hotkey;
    } else {
      PendingTallies(tallies, rows, r.hotkey, setting);
      AddRowTallies(Pending(tallies, r.hotkey), rows, r, setting);
      var next := Tallied(tallies, r, setting);
      assert next.Keys == tallies.Keys + {r.hotkey};
      forall h | h in next ensures Tallies(next[h], rows + [r], h, setting)
      {
        if h != r.hotkey {
          assert next[h] == tallies[h];
        }
      }
    }
  }

  /** One row: a composite without mass is only counted, a flagged one also counts as a self-deal. */
  method AddOne(t: Tally, row: Row, setting: Option<real>) returns (next: Tally)
    ensures next == AddRow(t, row, setting)
  {
    var raw := Raw(row);
    var before := RoleShare(t.roles, row.role);
    next := Tally(t.roles[row.role := before], t.scores + 1, t.selfDeals);
    if raw > 0.0 {
      next := next.(roles := next.roles[row.role := before + Damped(row, setting)]);
      if row.selfDeal {
        next := next.(selfDeals := next.selfDeals + 1);
      }
    }
    NoMassNoChange(row, setting);
    assert next.roles == AddRow(t, row, setting).roles;
  }

  /** First loop: role sums, counts and self-deal counts per hotkey, one row at a time. */
  method TallyRows(rows: seq<Row>, setting: Option<real>) returns (tallies: map<string, Tally>)
    ensures AllTally(tallies, rows, setting)
  {
    hide AllTally, AddRow, Pending;
    tallies := map[];
    NothingTallied(rows[..0], setting);
    for i := 0 to |rows|
      invariant AllTally(tallies, rows[..i], setting)
    {
      var row := rows[i];
      assert rows[..i + 1] == rows[..i] + [row];
      TallyStep(tallies, rows[..i], row, setting);
      if row.hotkey != "" {
        var t := AddOne(Pending(tallies, row.hotkey), row, setting);
        tallies := tallies[row.hotkey := t];
      }
    }
    assert rows[..|rows|] == rows;
  }

  function Summary(t: Tally): Aggregate {
    Aggregate(RoleTotal(t.roles), t.roles, t.scores, t.selfDeals)
  }

  lemma SummaryDescribes(t: Tally, rows: seq<Row>, h: string, setting: Option<real>)
    requires Tallies(t, rows, h, setting)
    ensures Describes(Summary(t), rows, h, setting)
  {
    RolesAddUp(rows, h, setting);
    hide Of, RolesOf;
  }

  // ----- the damping law

  /** The mass of a row that nobody dealt to himself; rows without a positive score have none. */
  ghost function HonestMass(r: Row): real {
    match r.composite
    case Some(x) => if x > 0.0 && !r.selfDeal then x else 0.0
    case None => 0.0
  }

  ghost function SelfDealtMass(r: Row): real {
    match r.composite
    case Some(x) => if x > 0.0 && r.selfDeal then x else 0.0
    case None => 0.0
  }

  ghost function InRole(role: Role, weight: Row -> real): Row -> real {
    (r: Row) => if r.role == role then weight(r) else 0.0
  }

  /** What is left of self-dealt mass: half by default, and between nothing and all for any setting. */
  ghost function Kept(setting: Option<real>): real {
    match setting
    case None => 0.5
    case Some(d) => if d >= 1.0 then 0.0 else if d <= 0.0 then 1.0 else 1.0 - d
  }

  ghost function RowsOf(rows: seq<Row>, h: string): set<nat> {
    set i: nat | i < |rows| && rows[i].hotkey == h
  }

  ghost function SelfDealsOf(rows: seq<Row>, h: string): set<nat> {
    set i: nat | i < |rows| && rows[i].hotkey == h && rows[i].selfDeal
                 && rows[i].composite.Some? && rows[i].composite.value > 0.0
  }

  /** A hotkey's books: honest mass in full, self-dealt mass damped, in total and per role, and every row counted. */
  ghost predicate Accounts(a: Aggregate, rows: seq<Row>, h: string, setting: Option<real>) {
    && a.total == Of(rows, h, HonestMass) + Kept(setting) * Of(rows, h, SelfDealtMass)
    && a.roles.Keys == (set i | i in RowsOf(rows, h) :: rows[i].role)
    && (forall role :: role in a.roles ==>
          a.roles[role]
          == Of(rows, h, InRole(role, HonestMass)) + Kept(setting) * Of(rows, h, InRole(role, SelfDealtMass)))
    && a.scores == |RowsOf(rows, h)| && a.selfDeals == |SelfDealsOf(rows, h)|
  }

  lemma DampedSplits(r: Row, setting: Option<real>)
    ensures Damped(r, setting) == HonestMass(r) + Kept(setting) * SelfDealtMass(r)
  {
  }

  lemma AddsUp(a: real, b: real, c: real, d: real, q: real)
    ensures (a + q * b) + (c + q * d) == (a + c) + q * (b + d)
  {
  }

  /** Damped mass is the honest mass and the kept part of the self-dealt mass, for any share of either. */
  lemma {:induction false} DampingLaw(rows: seq<Row>, h: string, q: real,
                                      w: Row -> real, x: Row -> real, y: Row -> real)
    requires forall r :: w(r) == x(r) + q * y(r)
    ensures Of(rows, h, w) == Of(rows, h, x) + q * Of(rows, h, y)
    decreases |rows|
  {
    if rows != [] {
      var init, last := rows[..|rows| - 1], rows[|rows| - 1];
      DampingLaw(init, h, q, w, x, y);
      AddsUp(Of(init, h, x), Of(init, h, y), x(last), y(last), q);
    }
  }

  lemma RowsGrow(init: seq<Row>, last: Row, h: string)
    ensures |RowsOf(init + [last], h)| == |RowsOf(init, h)| + if last.hotkey == h then 1 else 0
  {
    assert RowsOf(init + [last], h) == RowsOf(init, h) + if last.hotkey == h then {|init|} else {};
  }

  lemma SelfDealsGrow(init: seq<Row>, last: Row, h: string)
    ensures |SelfDealsOf(init + [last], h)| as real
         == |SelfDealsOf(init, h)| as real + if last.hotkey == h then FlaggedOne(last) else 0.0
  {
    assert SelfDealsOf(init + [last], h)
        == SelfDealsOf(init, h) + if last.hotkey == h && FlaggedOne(last) == 1.0 then {|init|} else {};
  }

  lemma {:induction false} CountLaw(rows: seq<Row>, h: string)
    ensures Of(rows, h, One) == |RowsOf(rows, h)| as real
    ensures Of(rows, h, FlaggedOne) == |SelfDealsOf(rows, h)| as real
    decreases |rows|
  {
    if rows == [] {
      assert RowsOf(rows, h) == {} && SelfDealsOf(rows, h) == {};
    } else {
      hide RowsOf, SelfDealsOf, FlaggedOne;
      var init, last := rows[..|rows| - 1], rows[|rows| - 1];
      CountLaw(init, h);
      RowsGrow(init, last, h);
      SelfDealsGrow(init, last, h);
      assert rows == init + [last];
    }
  }

  lemma RolesOfRows(rows: seq<Row>, h: string)
    ensures RolesOf(rows, h) == set i | i in RowsOf(rows, h) :: rows[i].role
  {
    forall role | role in RolesOf(rows, h) ensures role in (set i | i in RowsOf(rows, h) :: rows[i].role)
    {
      var r :| r in rows && r.hotkey == h && r.role == role;
      var i: nat :| i < |rows| && rows[i] == r;
      assert i in RowsOf(rows, h);
    }
  }

  lemma DescribedAccounts(a: Aggregate, rows: seq<Row>, h: string, setting: Option<real>)
    requires Describes(a, rows, h, setting)
    ensures Accounts(a, rows, h, setting)
  {
    hide Of, RolesOf, RowsOf, SelfDealsOf, Damped, HonestMass, SelfDealtMass, Kept, One, FlaggedOne;
    CountLaw(rows, h);
    RolesOfRows(rows, h);
    forall r ensures Damped(r, setting) == HonestMass(r) + Kept(setting) * SelfDealtMass(r)
    {
      DampedSplits(r, setting);
    }
    DampingLaw(rows, h, Kept(setting), MassWeight(setting), HonestMass, SelfDealtMass);
    forall role | role in a.roles
      ensures a.roles[role]
           == Of(rows, h, InRole(role, HonestMass)) + Kept(setting) * Of(rows, h, InRole(role, SelfDealtMass))
    {
      DampingLaw(rows, h, Kept(setting), RoleWeight(setting, role), InRole(role, HonestMass),
                 InRole(role, SelfDealtMass));
    }
  }

  /** Aggregates per hotkey: the total over roles, the roles themselves and the counts. */
  method AggregateScoreRows(rows: seq<Row>, setting: Option<real>) returns (out: map<string, Aggregate>)
    ensures out.Keys == Hotkeys(rows)
    ensures forall h :: h in out ==> Describes(out[h], rows, h, setting)
    ensures forall h :: h in out ==> Accounts(out[h], rows, h, setting)
  {
    var tallies := TallyRows(rows, setting);
    out := map[];
    var todo := tallies.Keys;
    hide AllTally, Describes, Summary, Hotkeys;
    while todo != {}
      invariant todo <= tallies.Keys && out.Keys == tallies.Keys - todo
      invariant forall h :: h in out ==> out[h] == Summary(tallies[h])
      decreases |todo|
    {
      var h :| h in todo;
      out := out[h := Summary(tallies[h])];
      todo := todo - {h};
    }
    SummariesDescribe(tallies, out, rows, setting);
    hide Accounts;
    forall h | h in out ensures Accounts(out[h], rows, h, setting)
    {
      DescribedAccounts(out[h], rows, h, setting);
    }
  }

  lemma SummariesDescribe(tallies: map<string, Tally>, out: map<string, Aggregate>, rows: seq<Row>,
                          setting: Option<real>)
    requires AllTally(tallies, rows, setting)
    requires out.Keys == tallies.Keys && forall h :: h in out ==> out[h] == Summary(tallies[h])
    ensures out.Keys == Hotkeys(rows) && forall h :: h in out ==> Describes(out[h], rows, h, setting)
  {
    forall h | h in out ensures Describes(out[h], rows, h, setting)
    {
      SummaryDescribes(tallies[h], rows, h, setting);
    }
  }

  // ----- laws of the sums

  function Without(rows: seq<Row>, i: nat): seq<Row>
    requires i < |rows|
  {
    rows[..i] + rows[i + 1..]
  }

  lemma {:induction false} OfConcat(a: seq<Row>, b: seq<Row>, h: string, w: Row -> real)
    ensures Of(a + b, h, w) == Of(a, h, w) + Of(b, h, w)
    decreases |b|
  {
    if b == [] {
      assert a + b == a;
    } else {
      assert (a + b)[..|a + b| - 1] == a + b[..|b| - 1];
      OfConcat(a, b[..|b| - 1], h, w);
    }
  }

  lemma OfWithout(rows: seq<Row>, i: nat, h: string, w: Row -> real)
    requires i < |rows|
    ensures Of(rows, h, w) == Of(Without(rows, i), h, w) + if rows[i].hotkey == h then w(rows[i]) else 0.0
  {
    assert rows == rows[..i] + ([rows[i]] + rows[i + 1..]);
    OfConcat(rows[..i], [rows[i]] + rows[i + 1..], h, w);
    OfConcat([rows[i]], rows[i + 1..], h, w);
    OfConcat(rows[..i], rows[i + 1..], h, w);
    assert Of([rows[i]], h, w) == if rows[i].hotkey == h then w(rows[i]) else 0.0;
  }

  lemma WithoutOne(rows: seq<Row>, i: nat)
    requires i < |rows|
    ensures multiset(Without(rows, i)) == multiset(rows) - multiset{rows[i]}
  {
    assert rows == rows[..i] + [rows[i]] + rows[i + 1..];
  }

  /** The order of the score rows does not matter to any per-hotkey sum. */
  lemma {:induction false} PermutationInvariant(a: seq<Row>, b: seq<Row>, h: string, w: Row -> real)
    requires multiset(a) == multiset(b)
    ensures Of(a, h, w) == Of(b, h, w)
    decreases |a|
  {
    if a == [] {
      assert |multiset(b)| == 0;
    } else {
      assert a[0] in multiset(b);
      var i :| 0 <= i < |b| && b[i] == a[0];
      assert a == [a[0]] + a[1..];
      assert Without(a, 0) == a[1..];
      hide Without, Of;
      WithoutOne(b, i);
      PermutationInvariant(a[1..], Without(b, i), h, w);
      OfWithout(a, 0, h, w);
      OfWithout(b, i, h, w);
    }
  }

  /** Damping keeps each hotkey's mass between (1 - damping) times its raw sum and its raw sum. */
  lemma {:induction false} MassBounds(rows: seq<Row>, h: string, setting: Option<real>)
    ensures Times(Of(rows, h, Raw), 1.0 - Damping(setting)) <= Of(rows, h, MassWeight(setting)) <= Of(rows, h, Raw)
    ensures Of(rows, h, MassWeight(setting)) >= 0.0
    ensures (forall r :: r in rows && r.hotkey == h ==> !r.selfDeal) ==>
              Of(rows, h, MassWeight(setting)) == Of(rows, h, Raw)
    decreases |rows|
  {
    var q := 1.0 - Damping(setting);
    ShrinkBounds(0.0, q);
    if rows != [] {
      var init, last := rows[..|rows| - 1], rows[|rows| - 1];
      MassBounds(init, h, setting);
      NoMassNoChange(last, setting);
      Distribute(Of(init, h, Raw), Raw(last), q);
      hide Damped, Raw, Times, Damping;
      assert forall r :: r in init ==> r in rows;
      assert last in rows;
    }
  }

  function PerKey(rows: seq<Row>, keys: set<string>, w: Row -> real): Mass {
    map h | h in keys :: Of(rows, h, w)
  }

  /** Nothing is lost or counted twice: the per-hotkey sums add up to the sum over all named rows. */
  lemma {:induction false} KeysAddUp(rows: seq<Row>, keys: set<string>, w: Row -> real)
    requires Hotkeys(rows) <= keys && "" !in keys
    ensures Sum(PerKey(rows, keys, w)) == Overall(rows, w)
    decreases |rows|
  {
    if rows == [] {
      AllZero(PerKey(rows, keys, w));
    } else {
      var init, last := rows[..|rows| - 1], rows[|rows| - 1];
      assert rows == init + [last];
      SnocRow(init, last, last.hotkey);
      KeysAddUp(init, keys, w);
      var all, before := PerKey(rows, keys, w), PerKey(init, keys, w);
      if last.hotkey == "" {
        assert all == before;
      } else {
        assert last in rows;
        SumSplit(all, last.hotkey);
        SumSplit(before, last.hotkey);
        assert all - {last.hotkey} == before - {last.hotkey};
      }
    }
  }

  lemma {:induction false} AllZero(m: Mass)
    requires forall k :: k in m ==> m[k] == 0.0
    ensures Sum(m) == 0.0
    decreases |m|
  {
    if m != map[] {
      var k :| k in m;
      SumSplit(m, k);
      AllZero(m - {k});
    }
  }

  lemma ScoresTotal(rows: seq<Row>, setting: Option<real>, out: map<string, Aggregate>)
    requires out.Keys == Hotkeys(rows) && forall h :: h in out ==> Describes(out[h], rows, h, setting)
    ensures Sum(map h | h in out :: out[h].scores as real) == Overall(rows, One)
  {
    hide Sum, Of, Overall;
    KeysAddUp(rows, out.Keys, One);
    assert (map h | h in out :: out[h].scores as real) == PerKey(rows, out.Keys, One);
  }

  lemma MassesAreSums(rows: seq<Row>, setting: Option<real>, out: map<string, Aggregate>)
    requires forall h :: h in out ==> Describes(out[h], rows, h, setting)
    ensures (map h | h in out :: out[h].total) == PerKey(rows, out.Keys, MassWeight(setting))
  {
    hide Of;
  }

  /** The score counts total the rows that name a hotkey, and the aggregates total their damped mass. */
  lemma AggregatesTotal(rows: seq<Row>, setting: Option<real>, out: map<string, Aggregate>)
    requires out.Keys == Hotkeys(rows) && forall h :: h in out ==> Describes(out[h], rows, h, setting)
    ensures Sum(map h | h in out :: out[h].scores as real) == Overall(rows, One)
    ensures Sum(map h | h in out :: out[h].total) == Overall(rows, MassWeight(setting))
  {
    hide Describes, Sum, Of, Overall;
    ScoresTotal(rows, setting, out);
    KeysAddUp(rows, out.Keys, MassWeight(setting));
    MassesAreSums(rows, setting, out);
  }
}
