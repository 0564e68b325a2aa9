/** Exclusive capacity under every interleaving: it rests on rents not running side by side, and on nothing else. */
module TenancyRaces {
  import opened Common
  import opened Sessions
  import opened MarketState
  import opened MarketRuns
  import opened MarketRaces
  import opened MarketScripts

  // ----- one renter at a time

  predicate Renter(pc: Pc) {
    pc.Asking? || pc.Choosing? || pc.Renting?
  }

  ghost predicate Unleased(m: Market, o: string) {
    forall l :: l in m.leases ==> m.leases[l].offer != o
  }

  /** A renting session's offer was never leased, and once it has read the live leases its nodes are free. */
  ghost predicate Reserves(m: Market, pc: Pc) {
    && (Renter(pc) ==> Unleased(m, pc.request.offer))
    && (pc.Renting? ==> pc.request.offer in m.offers && ExclusiveFree(m, m.offers[pc.request.offer].nodes))
  }

  /** Live leases hold disjoint nodes, no offer has two leases, and only session 0 is renting. */
  ghost predicate Alone(s: State) {
    && Exclusive(s.market) && OneLeasePerOffer(s.market)
    && forall i :: 0 <= i < |s.sessions| ==>
         Reserves(s.market, s.sessions[i]) && (Renter(s.sessions[i]) ==> i == 0)
  }

  /** A row or status changes, but no lease is added, revived or given other nodes. */
  ghost predicate NoNewLease(m: Market, m': Market) {
    Onward(m, m') && m'.leases.Keys == m.leases.Keys && m'.pods.Keys == m.pods.Keys
  }

  lemma NoNewLeaseKeeps(m: Market, m': Market, pc: Pc)
    requires NoNewLease(m, m')
    ensures Exclusive(m) ==> Exclusive(m')
    ensures OneLeasePerOffer(m) ==> OneLeasePerOffer(m')
    ensures Reserves(m, pc) ==> Reserves(m', pc)
  {
    assert LiveIds(m') <= LiveIds(m);
    hide LiveIds, Elems;
    if Exclusive(m) {
      forall a, b {:trigger m'.pods[a], m'.pods[b]} |
        a in LiveIds(m') && b in LiveIds(m') && a in m'.pods && b in m'.pods && a != b
        ensures Elems(m'.pods[a].nodes) !! Elems(m'.pods[b].nodes)
      {
        assert m'.pods[a].nodes == m.pods[a].nodes && m'.pods[b].nodes == m.pods[b].nodes;
      }
    }
    if Reserves(m, pc) && pc.Renting? {
      FreeStays(m, m', m.offers[pc.request.offer].nodes);
    }
  }

  lemma FreeStays(m: Market, m': Market, ids: seq<string>)
    requires NoNewLease(m, m') && ExclusiveFree(m, ids)
    ensures ExclusiveFree(m', ids)
  {
    hide Elems;
    forall l | l in m'.leases && Live(m'.leases[l].status) && l in m'.pods
      ensures Elems(m'.pods[l].nodes) !! Elems(ids)
    {
      assert Live(m.leases[l].status) && m'.pods[l].nodes == m.pods[l].nodes;
    }
  }

  lemma OtherWritesAddNoLease(m: Market, caps: Caps, pc: Pc, id: string, now: real)
    requires PendingOk(m, caps, pc) && Insertable(m, pc, id) && !pc.Renting?
    ensures NoNewLease(m, Written(m, pc, id, now))
  {
    WriteGoesOnward(m, caps, pc, id, now);
    hide Onward, Apply, Held, PendingOk;
  }

  lemma RentKeepsAlone(m: Market, r: RentRequest, marks: Marks, id: string, now: real)
    requires Exclusive(m) && OneLeasePerOffer(m) && Reserves(m, Renting(r, marks))
    requires Insertable(m, Renting(r, marks), id)
    ensures var m' := Written(m, Renting(r, marks), id, now); Exclusive(m') && OneLeasePerOffer(m')
  {
    hide Apply, Occupy, Exclusive, ExclusiveFree, LiveIds;
    var m' := Written(m, Renting(r, marks), id, now);
    LiveAfterRent(m, m', id);
    RentKeepsExclusive(m, m', id, m.offers[r.offer]);
  }

  /** An offer still on the list was never leased. */
  lemma ListedIsUnleased(m: Market, o: string)
    requires AllTermsOk(m) && o in m.offers && m.offers[o].status.Listed?
    ensures Unleased(m, o)
  {
    forall l | l in m.leases ensures m.leases[l].offer != o
    {
      assert TermsOk(m, l);
    }
  }

  lemma ReadReserves(m: Market, i: nat, pc: Pc, q: Query, site: Site)
    requires AllTermsOk(m) && Reserves(m, pc)
    ensures var r := Read(m, i, pc, q, site);
            Reserves(m, r) && (Renter(r) && !Renter(pc) ==> i < site.renters)
  {
    hide AllTermsOk, ExclusiveFree, Unleased, OfferFault, Heartbeat, Register, MarkStaleOffline, Occupy, Release,
      Dirty, NodesPass, Held, Covered, HasLiveLease, OfferRow;
    if q.OfferToRent? && OfferPasses(m, q.rent) {
      ListedIsUnleased(m, q.rent.offer);
    }
  }

  lemma DoKeepsAlone(s: State, step: Step, site: Site)
    requires Base(s, site.caps) && Alone(s) && (site.renters <= 1 || |s.sessions| <= 1)
    ensures Alone(Do(s, step, site))
  {
    hide Read, Written, Reserves, Exclusive, OneLeasePerOffer, PendingOk, Insertable, PodsFollowLeases, AllOffersOk,
      AllTermsOk;
    if step.session < |s.sessions| {
      var i, pc := step.session, s.sessions[step.session];
      IdleReserves(s.market);
      if step.Look? {
        ReadReserves(s.market, i, pc, step.query, site);
      } else if step.Write? && Ready(pc) && Insertable(s.market, pc, step.id) {
        var m' := Written(s.market, pc, step.id, step.now);
        IdleReserves(m');
        if pc.Renting? {
          RentKeepsAlone(s.market, pc.request, pc.marks, step.id, step.now);
          forall k | 0 <= k < |s.sessions| && k != i ensures Reserves(m', s.sessions[k])
          {
            NonRenterReserves(m', s.sessions[k]);
          }
        } else {
          OtherWritesAddNoLease(s.market, site.caps, pc, step.id, step.now);
          forall k | 0 <= k < |s.sessions| ensures Reserves(m', s.sessions[k])
          {
            NoNewLeaseKeeps(s.market, m', s.sessions[k]);
          }
          NoNewLeaseKeeps(s.market, m', Idle);
        }
      }
    }
  }

  lemma IdleReserves(m: Market)
    ensures Reserves(m, Idle) && !Renter(Idle)
  {
  }

  lemma NonRenterReserves(m: Market, pc: Pc)
    requires !Renter(pc)
    ensures Reserves(m, pc)
  {
  }

  /**
   With one renter at a time, whatever the others read and write in between: live leases never share a node, and
   no offer is ever leased twice.
   */
  lemma {:induction false} LoneRenterIsExclusive(s: State, steps: seq<Step>, site: Site)
    requires Base(s, site.caps) && Alone(s) && (site.renters <= 1 || |s.sessions| <= 1)
    ensures var e := RunAll(s, steps, site); Base(e, site.caps) && Alone(e) && |e.sessions| == |s.sessions|
    decreases |steps|
  {
    hide Do, Base, Alone;
    if steps != [] {
      DoKeepsBase(s, steps[0], site);
      DoKeepsAlone(s, steps[0], site);
      SameSessions(s, steps[0], site);
      LoneRenterIsExclusive(Do(s, steps[0], site), steps[1..], site);
    }
  }

  lemma SameSessions(s: State, step: Step, site: Site)
    ensures |Do(s, step, site).sessions| == |s.sessions|
  {
    hide Read, Written;
  }

  lemma StartIsAlone(owners: map<string, string>, n: nat)
    ensures Alone(Start(owners, n))
  {
  }

  // ----- a market with one offer

  function Under(cap: real): real {
    if cap > 0.0 then cap else 1.0
  }

  /** One node, silent since 0, and one listed offer over it. */
  function Stall(owners: map<string, string>, caps: Caps): Market {
    Market(map["n" := Node("p", Healthy, Some(0.0), false)],
           map["o" := Offer("p", ["n"], Under(caps.price), Under(caps.lifetime), false, Listed)], map[], map[], owners)
  }

  function StallOffer(caps: Caps): OfferRequest {
    OfferRequest("p", ["n"], Some(Under(caps.price)), Under(caps.lifetime), false, false, None, BandOff)
  }

  /** Session `i` registers the node and offers it. */
  function Setup(i: nat, caps: Caps): seq<Step> {
    Script(i, DoRegister("p", "n", None, 0.0), []) + Script(i, DoCreate("o", StallOffer(caps)), [])
  }

  function Ask(): RentRequest {
    RentRequest("r", "o", None, None, [], true)
  }

  /** The write of a rent that read the node while it was free. */
  function Taking(): Pc {
    Renting(Ask(), map["n" := Mark(Some(Rented), None, None)])
  }

  lemma OneNodeDedup(n: string)
    ensures Dedup([n]) == [n]
  {
    assert [n][..0] == [];
    assert Dedup([]) == [];
  }

  lemma StallIsAllowed(m: Market, caps: Caps)
    requires "n" in m.nodes && m.nodes["n"] == Node("p", Healthy, Some(0.0), false)
    ensures OfferFault(m, StallOffer(caps), caps).None?
  {
    hide Dedup;
    OneNodeDedup("n");
    assert |""| == 0 && |"n"| == 1;
  }

  lemma StallIsSet(owners: map<string, string>, caps: Caps)
    ensures Commit(Commit(Empty(owners), DoRegister("p", "n", None, 0.0), caps), DoCreate("o", StallOffer(caps)), caps)
         == Stall(owners, caps)
  {
    hide OfferFault, Dedup;
    OneNodeDedup("n");
    var one := Commit(Empty(owners), DoRegister("p", "n", None, 0.0), caps);
    assert one.nodes == map["n" := Node("p", Healthy, Some(0.0), false)];
    StallIsAllowed(one, caps);
  }

  lemma SetupRuns(owners: map<string, string>, n: nat, site: Site)
    requires n >= 1
    ensures RunAll(Start(owners, n), Setup(0, site.caps), site) == State(Stall(owners, site.caps), Alike(n, Idle))
  {
    hide RunAll, Script, Commit, Stall, StallOffer;
    var s := Start(owners, n);
    var register, create := DoRegister("p", "n", None, 0.0), DoCreate("o", StallOffer(site.caps));
    UninterruptedSessions(s, 0, register, [], site);
    var one := s.(market := Commit(s.market, register, site.caps));
    UninterruptedSessions(one, 0, create, [], site);
    RunConcat(s, Script(0, register, []), Script(0, create, []), site);
    StallIsSet(owners, site.caps);
  }

  lemma StallIsRentable(owners: map<string, string>, caps: Caps)
    ensures RentFault(Stall(owners, caps), Ask()).None?
  {
    assert "n" in Stall(owners, caps).nodes;
  }

  /** A session that asks for the listed offer is ready to take it. */
  lemma AskingTakes(owners: map<string, string>, sessions: seq<Pc>, i: nat, site: Site)
    requires i < |sessions| && i < site.renters && sessions[i].Idle?
    ensures var stall := Stall(owners, site.caps);
            RunAll(State(stall, sessions), Asks(i, Ask()), site) == State(stall, sessions[i := Taking()])
  {
    hide RunAll, RentFault, Asks;
    var stall := Stall(owners, site.caps);
    StallIsRentable(owners, site.caps);
    AskingReads(State(stall, sessions), i, Ask(), site);
    StallMarks(stall);
  }

  lemma StallMarks(stall: Market)
    requires stall.nodes == map["n" := Node("p", Healthy, Some(0.0), false)]
    ensures Dirty(stall.nodes, Occupy(stall.nodes, Elems(["n"]))) == map["n" := Mark(Some(Rented), None, None)]
  {
    assert "n" in Elems(["n"]);
  }

  // ----- two renters

  /** Both read everything before either commits. */
  function Collision(caps: Caps): seq<Step> {
    Setup(0, caps) + (Asks(0, Ask()) + (Asks(1, Ask()) + [Write(0, "a", 0.0), Write(1, "b", 0.0)]))
  }

  /** Two leases live on one offer and on the same node. */
  lemma CollisionBreaks(owners: map<string, string>, n: nat, site: Site)
    requires n >= 2 && site.renters >= 2
    ensures var m := RunAll(Start(owners, n), Collision(site.caps), site).market;
            && "a" in LiveIds(m) && "b" in LiveIds(m) && m.leases["a"].offer == m.leases["b"].offer
            && "a" in m.pods && "b" in m.pods && m.pods["a"].nodes == m.pods["b"].nodes == ["n"]
  {
    hide RunAll, Do, Start, Stall, Asks, Setup;
    var stall := Stall(owners, site.caps);
    var last := [Write(0, "a", 0.0), Write(1, "b", 0.0)];
    SetupRuns(owners, n, site);
    TwoAlike(Idle, n);
    TwoUpdate(Idle, Idle, Taking(), Idle, n);
    TwoUpdate(Taking(), Idle, Taking(), Idle, n);
    AskingTakes(owners, Two(Idle, Idle, Idle, n), 0, site);
    AskingTakes(owners, Two(Taking(), Idle, Idle, n), 1, site);
    RunConcat(Start(owners, n), Setup(0, site.caps), Asks(0, Ask()) + (Asks(1, Ask()) + last), site);
    RunConcat(State(stall, Two(Idle, Idle, Idle, n)), Asks(0, Ask()), Asks(1, Ask()) + last, site);
    RunConcat(State(stall, Two(Taking(), Idle, Idle, n)), Asks(1, Ask()), last, site);
    RunTwo(State(stall, Two(Taking(), Taking(), Idle, n)), last[0], last[1], site);
    StallShape(owners, site.caps);
    BothWritten(stall, n, site);
  }

  lemma StallShape(owners: map<string, string>, caps: Caps)
    ensures var stall := Stall(owners, caps);
            && stall.nodes == map["n" := Node("p", Healthy, Some(0.0), false)]
            && "o" in stall.offers && stall.offers["o"].nodes == ["n"] && stall.leases == map[] && stall.pods == map[]
  {
  }

  lemma BothWritten(stall: Market, n: nat, site: Site)
    requires n >= 2 && "o" in stall.offers && stall.offers["o"].nodes == ["n"] && stall.leases == map[]
             && stall.pods == map[]
    ensures var both := State(stall, Two(Taking(), Taking(), Idle, n));
            var m := Do(Do(both, Write(0, "a", 0.0), site), Write(1, "b", 0.0), site).market;
            && "a" in LiveIds(m) && "b" in LiveIds(m) && m.leases["a"].offer == m.leases["b"].offer
            && "a" in m.pods && "b" in m.pods && m.pods["a"].nodes == m.pods["b"].nodes == ["n"]
  {
    hide Apply, Occupy;
    assert "a"[0] != "b"[0];
  }

  lemma NotExclusive(m: Market)
    requires "a" in LiveIds(m) && "b" in LiveIds(m) && "a" in m.pods && "b" in m.pods
    requires m.pods["a"].nodes == m.pods["b"].nodes == ["n"]
    ensures !Exclusive(m)
  {
    assert "a"[0] != "b"[0];
    assert "n" in Elems(["n"]);
  }

  /** In every run of `n` sessions live leases hold disjoint nodes and no offer is leased twice. */
  ghost predicate AlwaysExclusive(n: nat, site: Site) {
    forall owners, steps {:trigger RunAll(Start(owners, n), steps, site)} ::
      var m := RunAll(Start(owners, n), steps, site).market; Exclusive(m) && OneLeasePerOffer(m)
  }

  /** Capacity is exclusive in every run exactly when at most one session rents, whatever all others do. */
  lemma AlwaysExclusiveIff(n: nat, site: Site)
    ensures AlwaysExclusive(n, site) <==> n <= 1 || site.renters <= 1
  {
    hide RunAll, Start, Collision, Exclusive, OneLeasePerOffer;
    if n <= 1 || site.renters <= 1 {
      forall owners, steps
        ensures var m := RunAll(Start(owners, n), steps, site).market; Exclusive(m) && OneLeasePerOffer(m)
      {
        StartIsBase(owners, n, site.caps);
        StartIsAlone(owners, n);
        StartSize(owners, n);
        LoneRenterIsExclusive(Start(owners, n), steps, site);
      }
    } else {
      CollisionBreaks(map[], n, site);
      NotExclusive(RunAll(Start(map[], n), Collision(site.caps), site).market);
    }
  }

  lemma StartSize(owners: map<string, string>, n: nat)
    ensures |Start(owners, n).sessions| == n
  {
  }
}
