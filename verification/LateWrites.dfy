/** Market runs with a single renter in which a commit falls on rows that have changed since they were read. */
module LateWrites {
  import opened Common
  import opened Sessions
  import opened MarketState
  import opened MarketRuns
  import opened MarketRaces
  import opened MarketScripts
  import opened TenancyRaces

  /** The first rent of the listed offer, in one go by session 0. */
  function TakeIt(): seq<Step> {
    Script(0, DoRent("a", Ask(), 0.0), [])
  }

  /** A sweep reads the node while it is free and silent, and marks it offline when it has a tenant. */
  function LateSweep(caps: Caps): seq<Step> {
    Setup(0, caps) + ([Look(1, StaleNodes(1.0))] + (TakeIt() + [Write(1, "", 1.0)]))
  }

  /** A withdraw finds no lease on the offer, and takes it off the list when it has one. */
  function LateWithdraw(caps: Caps): seq<Step> {
    Setup(0, caps) + ([Look(1, OfferToWithdraw("p", "o")), Look(1, LeasesOfOffer)] + (TakeIt() + [Write(1, "", 1.0)]))
  }

  /** The market once the offer is taken. */
  function Taken(owners: map<string, string>, caps: Caps): Market {
    var stall := Stall(owners, caps);
    Rent(stall, "a", Ask(), 0.0).0
  }

  lemma TakenIsRented(owners: map<string, string>, caps: Caps)
    ensures var m := Taken(owners, caps);
            && m.nodes == map["n" := Node("p", Rented, Some(0.0), false)] && "o" in m.offers
            && "a" in LiveIds(m) && m.leases["a"].offer == "o" && "a" in m.pods && m.pods["a"].nodes == ["n"]
  {
    hide RentFault;
    StallIsRentable(owners, caps);
    assert "n" in Elems(["n"]);
  }

  /** Session 0 rents while session 1 is about to write; then session 1 writes. */
  lemma LateWrite(owners: map<string, string>, n: nat, pc: Pc, looks: seq<Step>, site: Site)
    requires n >= 2 && site.renters >= 1 && Ready(pc) && (pc.Marking? || pc.Withdrawing?)
    requires RunAll(State(Stall(owners, site.caps), Two(Idle, Idle, Idle, n)), looks, site)
             == State(Stall(owners, site.caps), Two(Idle, pc, Idle, n))
    ensures RunAll(Start(owners, n), Setup(0, site.caps) + (looks + (TakeIt() + [Write(1, "", 1.0)])), site).market
            == Written(Taken(owners, site.caps), pc, "", 1.0)
  {
    hide RunAll, Do, Start, Stall, Setup, Commit, Rent, Written;
    var stall := Stall(owners, site.caps);
    var last := [Write(1, "", 1.0)];
    SetupRuns(owners, n, site);
    TwoAlike(Idle, n);
    var ready := State(stall, Two(Idle, pc, Idle, n));
    var taken := State(Taken(owners, site.caps), Two(Idle, pc, Idle, n));
    UninterruptedSessions(ready, 0, DoRent("a", Ask(), 0.0), [], site);
    CommitOfRent(stall, site);
    RunConcat(Start(owners, n), Setup(0, site.caps), looks + (TakeIt() + last), site);
    RunConcat(State(stall, Two(Idle, Idle, Idle, n)), looks, TakeIt() + last, site);
    RunConcat(ready, TakeIt(), last, site);
    RunOne(taken, last[0], site);
    DoWrite(taken, 1, "", 1.0, site);
  }

  lemma CommitOfRent(m: Market, site: Site)
    ensures Commit(m, DoRent("a", Ask(), 0.0), site.caps) == Rent(m, "a", Ask(), 0.0).0
  {
  }

  /** With a single renter, a live lease's node ends up offline. */
  lemma LateSweepBreaks(owners: map<string, string>, n: nat, site: Site)
    requires n >= 2 && site.renters >= 1
    ensures var m := RunAll(Start(owners, n), LateSweep(site.caps), site).market;
            && "a" in LiveIds(m) && "a" in m.pods && m.pods["a"].nodes == ["n"]
            && "n" in m.nodes && m.nodes["n"].status.Offline?
  {
    hide RunAll, Do, Start, Setup, Taken, LiveIds, TakeIt;
    var stall := Stall(owners, site.caps);
    var marks := map["n" := Mark(Some(Offline), None, None)];
    var two := Two(Idle, Idle, Idle, n);
    TwoUpdate(Idle, Idle, Marking(marks), Idle, n);
    assert Dirty(stall.nodes, MarkStaleOffline(stall, 1.0).nodes) == marks;
    RunOne(State(stall, two), Look(1, StaleNodes(1.0)), site);
    DoLook(State(stall, two), 1, StaleNodes(1.0), site);
    LateWrite(owners, n, Marking(marks), [Look(1, StaleNodes(1.0))], site);
    TakenIsRented(owners, site.caps);
    SameLeases(Taken(owners, site.caps), Written(Taken(owners, site.caps), Marking(marks), "", 1.0));
  }

  lemma SameLeases(m: Market, m': Market)
    requires m'.leases == m.leases
    ensures LiveIds(m') == LiveIds(m)
  {
  }

  /** With a single renter, a live lease's offer ends up withdrawn. */
  lemma LateWithdrawBreaks(owners: map<string, string>, n: nat, site: Site)
    requires n >= 2 && site.renters >= 1
    ensures var m := RunAll(Start(owners, n), LateWithdraw(site.caps), site).market;
            && "a" in LiveIds(m) && m.leases["a"].offer == "o" && "o" in m.offers && m.offers["o"].status.Withdrawn?
  {
    hide RunAll, Do, Start, Setup, Taken, LiveIds, TakeIt;
    var stall := Stall(owners, site.caps);
    var two := Two(Idle, Idle, Idle, n);
    var looks := [Look(1, OfferToWithdraw("p", "o")), Look(1, LeasesOfOffer)];
    TwoUpdate(Idle, Idle, Viewing("o", Listed), Idle, n);
    TwoUpdate(Idle, Viewing("o", Listed), Withdrawing("o"), Idle, n);
    RunTwo(State(stall, two), looks[0], looks[1], site);
    DoLook(State(stall, two), 1, OfferToWithdraw("p", "o"), site);
    DoLook(State(stall, Two(Idle, Viewing("o", Listed), Idle, n)), 1, LeasesOfOffer, site);
    LateWrite(owners, n, Withdrawing("o"), looks, site);
    TakenIsRented(owners, site.caps);
    SameLeases(Taken(owners, site.caps), Written(Taken(owners, site.caps), Withdrawing("o"), "", 1.0));
  }

  /** A second offer over the same node, made while the first tenant is in. */
  function AskAgain(): RentRequest {
    RentRequest("r", "q", None, None, [], true)
  }

  /** The renter reads the node while it is still rented, and the live leases after the tenant has left. */
  function LateRent(caps: Caps): seq<Step> {
    Setup(0, caps) + (TakeIt() + (Script(0, DoCreate("q", StallOffer(caps)), [])
    + ([Look(0, OfferToRent(AskAgain())), Look(0, NodesToRent)]
    + (Script(1, DoTerminate("r", "a"), []) + [Look(0, LiveLeases), Write(0, "b", 0.0)]))))
  }

  function Reoffered(owners: map<string, string>, caps: Caps): Market {
    CreateOffer(Taken(owners, caps), "q", StallOffer(caps), caps).0
  }

  lemma ReofferedIsRented(owners: map<string, string>, caps: Caps)
    ensures var m := Reoffered(owners, caps);
            && m.nodes == map["n" := Node("p", Rented, Some(0.0), false)]
            && "q" in m.offers && m.offers["q"].status.Listed? && m.offers["q"].nodes == ["n"]
            && !m.offers["q"].requireIb
            && m.leases.Keys == {"a"} && m.leases["a"].renter == "r" && Live(m.leases["a"].status)
            && m.pods.Keys == {"a"} && m.pods["a"].nodes == ["n"]
  {
    hide RentFault, Dedup;
    StallIsRentable(owners, caps);
    OneNodeDedup("n");
    assert "n" in Elems(["n"]);
    assert |""| == 0 && |"n"| == 1;
    assert "q"[0] != "o"[0];
  }

  /** The rented node passes the checks, and shows nothing to change. */
  lemma LateRentReads(m: Market)
    requires m.nodes == map["n" := Node("p", Rented, Some(0.0), false)]
    requires "q" in m.offers && m.offers["q"].status.Listed? && m.offers["q"].nodes == ["n"] && !m.offers["q"].requireIb
    ensures OfferPasses(m, AskAgain()) && NodesPass(m, AskAgain())
    ensures Dirty(m.nodes, Occupy(m.nodes, Elems(m.offers["q"].nodes))) == map[]
  {
    assert "n" in Elems(["n"]);
  }

  /** The first tenant leaves between the two readings. */
  lemma TenantLeaves(m: Market)
    requires m.nodes == map["n" := Node("p", Rented, Some(0.0), false)]
    requires "q" in m.offers && m.offers["q"].nodes == ["n"]
    requires m.leases.Keys == {"a"} && m.leases["a"].renter == "r" && Live(m.leases["a"].status)
    requires m.pods.Keys == {"a"} && m.pods["a"].nodes == ["n"]
    ensures var left := Terminate(m, "r", "a").0;
            && "q" in left.offers && left.offers["q"].nodes == ["n"] && ExclusiveFree(left, ["n"])
            && left.leases.Keys == {"a"} && left.pods.Keys == {"a"}
            && left.nodes == map["n" := Node("p", Healthy, Some(0.0), false)]
  {
    assert "n" in Held(m, {"a"}) by { assert "n" in m.pods["a"].nodes; }
    hide Held, Elems;
  }

  lemma RentsUnmarked(left: Market)
    requires "q" in left.offers && left.offers["q"].nodes == ["n"]
    requires left.leases.Keys == {"a"} && left.pods.Keys == {"a"}
    requires left.nodes == map["n" := Node("p", Healthy, Some(0.0), false)]
    ensures Insertable(left, Renting(AskAgain(), map[]), "b")
    ensures var last := Written(left, Renting(AskAgain(), map[]), "b", 0.0);
            && "b" in LiveIds(last) && "b" in last.pods && last.pods["b"].nodes == ["n"]
            && "n" in last.nodes && last.nodes["n"].status.Healthy?
  {
    hide Occupy;
    assert "a"[0] != "b"[0];
  }

  /** With a single renter, a live lease's node ends up healthy, as if it were free. */
  lemma LateRentBreaks(owners: map<string, string>, n: nat, site: Site)
    requires n >= 2 && site.renters >= 1
    ensures var m := RunAll(Start(owners, n), LateRent(site.caps), site).market;
            && "b" in LiveIds(m) && "b" in m.pods && m.pods["b"].nodes == ["n"]
            && "n" in m.nodes && m.nodes["n"].status.Healthy?
  {
    hide RunAll, Do, Start, Stall, Setup, Commit, Script, Rent, Terminate, CreateOffer, LiveIds, Dirty, Occupy,
      NodesPass, ExclusiveFree, OfferPasses, Written;
    var caps := site.caps;
    var create, leave := DoCreate("q", StallOffer(caps)), DoTerminate("r", "a");
    var asks := [Look(0, OfferToRent(AskAgain())), Look(0, NodesToRent)];
    var last := [Look(0, LiveLeases), Write(0, "b", 0.0)];
    var m := Reoffered(owners, caps);
    var s0 := Start(owners, n);
    var s1 := State(Stall(owners, caps), Alike(n, Idle));
    var s2 := State(Taken(owners, caps), Alike(n, Idle));
    var s3 := State(m, Alike(n, Idle));
    var s4 := State(m, Two(Choosing(AskAgain(), map[]), Idle, Idle, n));
    var s5 := State(Terminate(m, "r", "a").0, Two(Choosing(AskAgain(), map[]), Idle, Idle, n));
    ReofferedIsRented(owners, caps);
    LateRentReads(m);
    TenantLeaves(m);
    RentsUnmarked(Terminate(m, "r", "a").0);
    SetupRuns(owners, n, site);
    UninterruptedSessions(s1, 0, DoRent("a", Ask(), 0.0), [], site);
    CommitOfRent(s1.market, site);
    UninterruptedSessions(s2, 0, create, [], site);
    LateAsks(m, n, asks, site);
    UninterruptedSessions(s4, 1, leave, [], site);
    CommitOfOthers(s2.market, m, caps);
    LateCommit(s5, n, last, site);
    RunConcat(s0, Setup(0, caps), TakeIt() + (Script(0, create, []) + (asks + (Script(1, leave, []) + last))), site);
    RunConcat(s1, TakeIt(), Script(0, create, []) + (asks + (Script(1, leave, []) + last)), site);
    RunConcat(s2, Script(0, create, []), asks + (Script(1, leave, []) + last), site);
    RunConcat(s3, asks, Script(1, leave, []) + last, site);
    RunConcat(s4, Script(1, leave, []), last, site);
  }

  lemma CommitOfOthers(a: Market, b: Market, caps: Caps)
    ensures Commit(a, DoCreate("q", StallOffer(caps)), caps) == CreateOffer(a, "q", StallOffer(caps), caps).0
    ensures Commit(b, DoTerminate("r", "a"), caps) == Terminate(b, "r", "a").0
  {
  }

  lemma LateAsks(m: Market, n: nat, asks: seq<Step>, site: Site)
    requires n >= 2 && site.renters >= 1 && OfferPasses(m, AskAgain()) && NodesPass(m, AskAgain())
    requires Dirty(m.nodes, Occupy(m.nodes, Elems(m.offers["q"].nodes))) == map[]
    requires asks == [Look(0, OfferToRent(AskAgain())), Look(0, NodesToRent)]
    ensures RunAll(State(m, Alike(n, Idle)), asks, site)
            == State(m, Two(Choosing(AskAgain(), map[]), Idle, Idle, n))
  {
    hide RunAll, Do, Dirty, Occupy, NodesPass;
    var s := State(m, Alike(n, Idle));
    TwoAlike(Idle, n);
    TwoUpdate(Idle, Idle, Asking(AskAgain()), Idle, n);
    TwoUpdate(Asking(AskAgain()), Idle, Choosing(AskAgain(), map[]), Idle, n);
    RunTwo(s, asks[0], asks[1], site);
    DoLook(s, 0, OfferToRent(AskAgain()), site);
    DoLook(State(m, Two(Asking(AskAgain()), Idle, Idle, n)), 0, NodesToRent, site);
  }

  lemma LateCommit(s: State, n: nat, last: seq<Step>, site: Site)
    requires n >= 2 && s.sessions == Two(Choosing(AskAgain(), map[]), Idle, Idle, n)
    requires "q" in s.market.offers && ExclusiveFree(s.market, s.market.offers["q"].nodes)
    requires Insertable(s.market, Renting(AskAgain(), map[]), "b")
    requires last == [Look(0, LiveLeases), Write(0, "b", 0.0)]
    ensures RunAll(s, last, site).market == Written(s.market, Renting(AskAgain(), map[]), "b", 0.0)
  {
    hide RunAll, Do, ExclusiveFree, Written;
    RunTwo(s, last[0], last[1], site);
    DoLook(s, 0, LiveLeases, site);
    DoWrite(Do(s, last[0], site), 0, "b", 0.0, site);
  }
}
