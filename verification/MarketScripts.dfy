/** A marketplace session whose statements are not interleaved is the one-step session of `MarketRuns`. */
module MarketScripts {
  import opened Common
  import opened MarketState
  import opened MarketRuns
  import opened MarketRaces

  /** The statements of one session; `due` lists the leases of an expiry in the order it visits them. */
  function Script(i: nat, op: Op, due: seq<string>): seq<Step> {
    match op
    case DoRegister(p, id, ib, now) => [Look(i, NodeRow(p, id, ib, now)), Write(i, "", now)]
    case DoHeartbeat(p, t, now) => [Look(i, OwnedNodes(p, t, now)), Write(i, "", now)]
    case DoStale(cutoff) => [Look(i, StaleNodes(cutoff)), Write(i, "", cutoff)]
    case DoSweep(cutoff) =>
      [Look(i, Tenants), Look(i, TenantNodes), Write(i, "", cutoff), Look(i, StaleNodes(cutoff)), Write(i, "", cutoff)]
    case DoCreate(id, r) => [Look(i, OfferedNodes(r)), Write(i, id, 0.0)]
    case DoWithdraw(p, id) => [Look(i, OfferToWithdraw(p, id)), Look(i, LeasesOfOffer), Write(i, "", 0.0)]
    case DoRent(id, r, now) => Asks(i, r) + [Write(i, id, now)]
    case DoTerminate(hk, id) => [Look(i, LeaseRow(hk, id)), Look(i, PodNodes(id)), Write(i, "", 0.0)]
    case DoExpire(now) => [Look(i, DueLeases(now))] + Loads(i, due) + [Write(i, "", now)]
  }

  /** The reading statements of a rent. */
  function Asks(i: nat, r: RentRequest): seq<Step> {
    [Look(i, OfferToRent(r)), Look(i, NodesToRent), Look(i, LiveLeases)]
  }

  function Loads(i: nat, due: seq<string>): seq<Step> {
    seq(|due|, k requires 0 <= k < |due| => Look(i, PodNodes(due[k])))
  }

  // ----- columns

  /** Writing the differences to the rows as read gives the wanted rows. */
  lemma ApplyDirty(seen: map<string, Node>, next: map<string, Node>)
    requires next.Keys == seen.Keys && forall n :: n in seen ==> next[n].provider == seen[n].provider
    ensures Apply(seen, Dirty(seen, next)) == next
  {
    forall n | n in seen ensures Apply(seen, Dirty(seen, next))[n] == next[n]
    {
      if next[n] != seen[n] {
        assert Marked(seen[n], Diff(seen[n], next[n])) == next[n];
      }
    }
  }

  lemma ReleaseMore(nodes: map<string, Node>, a: set<string>, b: set<string>)
    ensures Dirty(nodes, Release(nodes, a)) + Dirty(nodes, Release(nodes, b)) == Dirty(nodes, Release(nodes, a + b))
  {
  }

  // ----- short scripts

  lemma RunTwo(s: State, a: Step, b: Step, site: Site)
    ensures RunAll(s, [a, b], site) == Do(Do(s, a, site), b, site)
  {
    hide Do, RunAll;
    assert [a, b] == [a] + [b];
    RunConcat(s, [a], [b], site);
    RunOne(s, a, site);
    RunOne(Do(s, a, site), b, site);
  }

  lemma RunThree(s: State, a: Step, b: Step, c: Step, site: Site)
    ensures RunAll(s, [a, b, c], site) == Do(Do(Do(s, a, site), b, site), c, site)
  {
    hide Do, RunAll;
    assert [a, b, c] == [a, b] + [c];
    RunConcat(s, [a, b], [c], site);
    RunTwo(s, a, b, site);
    RunOne(Do(Do(s, a, site), b, site), c, site);
  }

  /** A reading statement moves one session and no table. */
  lemma DoLook(s: State, i: nat, q: Query, site: Site)
    requires i < |s.sessions|
    ensures Do(s, Look(i, q), site) == s.(sessions := s.sessions[i := Read(s.market, i, s.sessions[i], q, site)])
  {
    hide Read;
  }

  lemma DoWrite(s: State, i: nat, id: string, now: real, site: Site)
    requires i < |s.sessions| && Ready(s.sessions[i]) && Insertable(s.market, s.sessions[i], id)
    ensures Do(s, Write(i, id, now), site)
            == State(Written(s.market, s.sessions[i], id, now), s.sessions[i := Idle])
  {
    hide Written;
  }

  /** Marks computed and written in one go. */
  lemma MarkScript(s: State, i: nat, q: Query, now: real, next: map<string, Node>, site: Site)
    requires i < |s.sessions| && s.sessions[i].Idle?
    requires Read(s.market, i, Idle, q, site) == Marking(Dirty(s.market.nodes, next))
    requires next.Keys == s.market.nodes.Keys
    requires forall n :: n in next ==> next[n].provider == s.market.nodes[n].provider
    ensures RunAll(s, [Look(i, q), Write(i, "", now)], site) == s.(market := s.market.(nodes := next))
  {
    hide Read, Apply, Dirty, RunAll, Do;
    RunTwo(s, Look(i, q), Write(i, "", now), site);
    DoLook(s, i, q, site);
    var read := Do(s, Look(i, q), site);
    DoWrite(read, i, "", now, site);
    ApplyDirty(s.market.nodes, next);
    assert read.sessions[i := Idle] == s.sessions;
  }

  lemma RegisterScript(s: State, i: nat, p: string, id: string, ib: Option<bool>, now: real, site: Site)
    requires i < |s.sessions| && s.sessions[i].Idle?
    ensures RunAll(s, [Look(i, NodeRow(p, id, ib, now)), Write(i, "", now)], site)
            == s.(market := Register(s.market, p, id, ib, now).0)
  {
    hide RunAll, Do, Dirty, Apply;
    var q := NodeRow(p, id, ib, now);
    if id in s.market.nodes {
      MarkScript(s, i, q, now, Register(s.market, p, id, ib, now).0.nodes, site);
    } else {
      RunTwo(s, Look(i, q), Write(i, "", now), site);
      DoLook(s, i, q, site);
      var read := Do(s, Look(i, q), site);
      DoWrite(read, i, "", now, site);
      assert read.sessions[i := Idle] == s.sessions;
    }
  }

  lemma HeartbeatScript(s: State, i: nat, p: string, t: Option<string>, now: real, site: Site)
    requires i < |s.sessions| && s.sessions[i].Idle?
    ensures RunAll(s, [Look(i, OwnedNodes(p, t, now)), Write(i, "", now)], site)
            == s.(market := Heartbeat(s.market, p, t, now).0)
  {
    hide RunAll, Do, Dirty, Apply;
    MarkScript(s, i, OwnedNodes(p, t, now), now, Heartbeat(s.market, p, t, now).0.nodes, site);
  }

  lemma StaleScript(s: State, i: nat, cutoff: real, site: Site)
    requires i < |s.sessions| && s.sessions[i].Idle?
    ensures RunAll(s, [Look(i, StaleNodes(cutoff)), Write(i, "", cutoff)], site)
            == s.(market := MarkStaleOffline(s.market, cutoff))
  {
    hide RunAll, Do, Dirty, Apply;
    MarkScript(s, i, StaleNodes(cutoff), cutoff, MarkStaleOffline(s.market, cutoff).nodes, site);
  }

  /** The reclaim's first half. */
  lemma ProtectScript(s: State, i: nat, now: real, site: Site)
    requires i < |s.sessions| && s.sessions[i].Idle?
    ensures RunAll(s, [Look(i, Tenants), Look(i, TenantNodes), Write(i, "", now)], site)
            == s.(market := s.market.(nodes := Occupy(s.market.nodes, Covered(s.market))))
  {
    hide RunAll, Do, Dirty, Apply, Covered;
    RunThree(s, Look(i, Tenants), Look(i, TenantNodes), Write(i, "", now), site);
    DoLook(s, i, Tenants, site);
    var one := Do(s, Look(i, Tenants), site);
    DoLook(one, i, TenantNodes, site);
    var two := Do(one, Look(i, TenantNodes), site);
    DoWrite(two, i, "", now, site);
    ApplyDirty(s.market.nodes, Occupy(s.market.nodes, Covered(s.market)));
    assert two.sessions[i := Idle] == s.sessions;
  }

  lemma SweepScript(s: State, i: nat, cutoff: real, site: Site)
    requires i < |s.sessions| && s.sessions[i].Idle?
    ensures RunAll(s, Script(i, DoSweep(cutoff), []), site) == s.(market := IdleReclaim(s.market, cutoff))
  {
    hide RunAll, Occupy, Covered, MarkStaleOffline;
    var first := [Look(i, Tenants), Look(i, TenantNodes), Write(i, "", cutoff)];
    var second := [Look(i, StaleNodes(cutoff)), Write(i, "", cutoff)];
    assert Script(i, DoSweep(cutoff), []) == first + second;
    RunConcat(s, first, second, site);
    ProtectScript(s, i, cutoff, site);
    StaleScript(RunAll(s, first, site), i, cutoff, site);
  }

  lemma CreateScript(s: State, i: nat, id: string, r: OfferRequest, site: Site)
    requires i < |s.sessions| && s.sessions[i].Idle?
    ensures RunAll(s, [Look(i, OfferedNodes(r)), Write(i, id, 0.0)], site)
            == s.(market := CreateOffer(s.market, id, r, site.caps).0)
  {
    hide RunAll, OfferFault, OfferRow;
    RunTwo(s, Look(i, OfferedNodes(r)), Write(i, id, 0.0), site);
    assert Do(s, Look(i, OfferedNodes(r)), site).sessions[i := Idle] == s.sessions;
  }

  lemma WithdrawScript(s: State, i: nat, p: string, id: string, site: Site)
    requires i < |s.sessions| && s.sessions[i].Idle?
    ensures RunAll(s, Script(i, DoWithdraw(p, id), []), site) == s.(market := Withdraw(s.market, p, id).0)
  {
    hide RunAll, HasLiveLease;
    RunThree(s, Look(i, OfferToWithdraw(p, id)), Look(i, LeasesOfOffer), Write(i, "", 0.0), site);
    var one := Do(s, Look(i, OfferToWithdraw(p, id)), site);
    var two := Do(one, Look(i, LeasesOfOffer), site);
    assert one.sessions[i := Idle] == s.sessions && two.sessions[i := Idle] == s.sessions;
  }

  lemma LeaseScript(s: State, i: nat, hk: string, id: string, site: Site)
    requires i < |s.sessions| && s.sessions[i].Idle?
    ensures RunAll(s, Script(i, DoTerminate(hk, id), []), site) == s.(market := Terminate(s.market, hk, id).0)
  {
    hide RunAll, Do, Dirty, Apply, Release, Held;
    var m := s.market;
    RunThree(s, Look(i, LeaseRow(hk, id)), Look(i, PodNodes(id)), Write(i, "", 0.0), site);
    DoLook(s, i, LeaseRow(hk, id), site);
    var one := Do(s, Look(i, LeaseRow(hk, id)), site);
    DoLook(one, i, PodNodes(id), site);
    var two := Do(one, Look(i, PodNodes(id)), site);
    if one.sessions[i].Closing? {
      DoWrite(two, i, "", 0.0, site);
      ReleaseKeepsOwners(m.nodes, Held(m, {id}));
      ApplyDirty(m.nodes, Release(m.nodes, Held(m, {id})));
      assert map[] + Dirty(m.nodes, Release(m.nodes, Held(m, {id}))) == Dirty(m.nodes, Release(m.nodes, Held(m, {id})));
      assert two.sessions[i := Idle] == s.sessions;
    } else {
      assert s.sessions[i := Idle] == s.sessions;
      StillIdle(s, i, "", 0.0, site);
    }
  }

  lemma StillIdle(s: State, i: nat, id: string, now: real, site: Site)
    requires i < |s.sessions| && s.sessions[i].Idle?
    ensures Do(s, Write(i, id, now), site) == s
  {
  }

  lemma ReleaseKeepsOwners(nodes: map<string, Node>, ids: set<string>)
    ensures forall n :: n in nodes ==> Release(nodes, ids)[n].provider == nodes[n].provider
    ensures forall n :: n in nodes ==> Occupy(nodes, ids)[n].provider == nodes[n].provider
  {
  }

  // ----- rents

  /** A request that passes every check is ready to commit when its reading statements are done. */
  lemma AskingReads(s: State, i: nat, r: RentRequest, site: Site)
    requires i < |s.sessions| && i < site.renters && s.sessions[i].Idle? && RentFault(s.market, r).None?
    ensures r.offer in s.market.offers
    ensures var wanted := Elems(s.market.offers[r.offer].nodes);
            RunAll(s, Asks(i, r), site)
            == s.(sessions := s.sessions[i := Renting(r, Dirty(s.market.nodes, Occupy(s.market.nodes, wanted)))])
  {
    hide RunAll, Do, Dirty, Occupy, NodesPass, ExclusiveFree, RentFault;
    RentChecksSplit(s.market, r);
    RunThree(s, Look(i, OfferToRent(r)), Look(i, NodesToRent), Look(i, LiveLeases), site);
    DoLook(s, i, OfferToRent(r), site);
    var one := Do(s, Look(i, OfferToRent(r)), site);
    DoLook(one, i, NodesToRent, site);
    var two := Do(one, Look(i, NodesToRent), site);
    DoLook(two, i, LiveLeases, site);
  }

  /** One that does not pass leaves no trace. */
  lemma AskingFails(s: State, i: nat, r: RentRequest, site: Site)
    requires i < |s.sessions| && s.sessions[i].Idle? && RentFault(s.market, r).Some?
    ensures RunAll(s, Asks(i, r), site) == s
  {
    hide RunAll, Do, Dirty, Occupy, NodesPass, ExclusiveFree, RentFault;
    RentChecksSplit(s.market, r);
    RunThree(s, Look(i, OfferToRent(r)), Look(i, NodesToRent), Look(i, LiveLeases), site);
    DoLook(s, i, OfferToRent(r), site);
    var one := Do(s, Look(i, OfferToRent(r)), site);
    DoLook(one, i, NodesToRent, site);
    var two := Do(one, Look(i, NodesToRent), site);
    DoLook(two, i, LiveLeases, site);
    assert Do(two, Look(i, LiveLeases), site).sessions == s.sessions;
  }

  lemma RentScript(s: State, i: nat, id: string, r: RentRequest, now: real, site: Site)
    requires i < |s.sessions| && i < site.renters && s.sessions[i].Idle?
    ensures RunAll(s, Script(i, DoRent(id, r, now), []), site) == s.(market := Rent(s.market, id, r, now).0)
  {
    hide RunAll, Do, Dirty, Apply, Occupy, RentFault;
    var m := s.market;
    RunConcat(s, Asks(i, r), [Write(i, id, now)], site);
    var asked := RunAll(s, Asks(i, r), site);
    RunOne(asked, Write(i, id, now), site);
    if RentFault(m, r).Some? {
      AskingFails(s, i, r, site);
      StillIdle(s, i, id, now, site);
    } else {
      AskingReads(s, i, r, site);
      ReleaseKeepsOwners(m.nodes, Elems(m.offers[r.offer].nodes));
      ApplyDirty(m.nodes, Occupy(m.nodes, Elems(m.offers[r.offer].nodes)));
      assert asked.sessions[i := Idle] == s.sessions;
      if Insertable(m, asked.sessions[i], id) {
        DoWrite(asked, i, id, now, site);
      } else {
        DoClash(asked, i, id, now, site);
      }
    }
  }

  lemma DoClash(s: State, i: nat, id: string, now: real, site: Site)
    requires i < |s.sessions| && Ready(s.sessions[i]) && !Insertable(s.market, s.sessions[i], id)
    ensures Do(s, Write(i, id, now), site) == s.(sessions := s.sessions[i := Idle])
  {
  }

  // ----- expiry

  /** A closing session that has read the nodes of the leases in `done`. */
  function Loaded(m: Market, ids: set<string>, done: set<string>): Pc {
    Closing(ids, Expired, ids - done, Dirty(m.nodes, Release(m.nodes, Held(m, done))))
  }

  lemma LoadOne(m: Market, i: nat, ids: set<string>, done: set<string>, l: string, site: Site)
    requires l in ids && done <= ids
    ensures Read(m, i, Loaded(m, ids, done), PodNodes(l), site) == Loaded(m, ids, done + {l})
  {
    hide Held, Dirty, Release;
    if l in done {
      assert done + {l} == done;
    } else {
      HeldMore(m, done, l);
      ReleaseMore(m.nodes, Held(m, done), Held(m, {l}));
      assert ids - done - {l} == ids - (done + {l});
    }
  }

  lemma HeldMore(m: Market, done: set<string>, l: string)
    ensures Held(m, done + {l}) == Held(m, done) + Held(m, {l})
  {
  }

  lemma {:induction false} LoadsRun(s: State, i: nat, ids: set<string>, done: set<string>, due: seq<string>, site: Site)
    requires i < |s.sessions| && done <= ids && Elems(due) <= ids && s.sessions[i] == Loaded(s.market, ids, done)
    ensures RunAll(s, Loads(i, due), site)
            == s.(sessions := s.sessions[i := Loaded(s.market, ids, done + Elems(due))])
    decreases |due|
  {
    hide Do, Loaded;
    if due == [] {
      assert done + Elems(due) == done && Loads(i, due) == [];
    } else {
      var rest := due[1..];
      assert due[0] in Elems(due) && Elems(due) == {due[0]} + Elems(rest);
      assert Loads(i, due)[0] == Look(i, PodNodes(due[0])) && Loads(i, due)[1..] == Loads(i, rest);
      DoLook(s, i, PodNodes(due[0]), site);
      LoadOne(s.market, i, ids, done, due[0], site);
      var next := Do(s, Loads(i, due)[0], site);
      LoadsRun(next, i, ids, done + {due[0]}, rest, site);
      assert done + {due[0]} + Elems(rest) == done + Elems(due);
    }
  }

  lemma ExpireScript(s: State, i: nat, now: real, due: seq<string>, site: Site)
    requires i < |s.sessions| && s.sessions[i].Idle? && Elems(due) == Due(s.market, now)
    ensures RunAll(s, Script(i, DoExpire(now), due), site) == s.(market := ExpireDue(s.market, now))
  {
    hide RunAll, Do, Loads, Dirty, Apply, Release, Due;
    var m, ids := s.market, Due(s.market, now);
    var look, write := Look(i, DueLeases(now)), Write(i, "", now);
    var one := Do(s, look, site);
    RunConcat(s, [look] + Loads(i, due), [write], site);
    RunConcat(s, [look], Loads(i, due), site);
    RunOne(s, look, site);
    DoLook(s, i, DueLeases(now), site);
    RunOne(RunAll(one, Loads(i, due), site), write, site);
    if ids == {} {
      SomeElem(due);
      NothingDue(s, i, now, site);
    } else {
      NoneLoaded(m, ids);
      LoadsRun(one, i, ids, {}, due, site);
      AllLoaded(m, ids);
      var read := RunAll(one, Loads(i, due), site);
      assert {} + Elems(due) == ids;
      DoWrite(read, i, "", now, site);
      assert read.sessions[i := Idle] == s.sessions;
    }
  }

  lemma SomeElem(s: seq<string>)
    ensures s != [] ==> Elems(s) != {}
  {
    if s != [] {
      assert s[0] in Elems(s);
    }
  }

  lemma NothingDue(s: State, i: nat, now: real, site: Site)
    requires i < |s.sessions| && s.sessions[i].Idle? && Due(s.market, now) == {}
    ensures RunAll(s, Loads(i, []), site) == s && ExpireDue(s.market, now) == s.market
    ensures Do(s, Look(i, DueLeases(now)), site) == s && Do(s, Write(i, "", now), site) == s
  {
    assert Release(s.market.nodes, Held(s.market, {})) == s.market.nodes;
    assert s.sessions[i := Idle] == s.sessions;
  }

  lemma NoneLoaded(m: Market, ids: set<string>)
    ensures Loaded(m, ids, {}) == Closing(ids, Expired, ids, map[])
  {
    assert Dirty(m.nodes, Release(m.nodes, Held(m, {}))) == map[];
  }

  lemma AllLoaded(m: Market, ids: set<string>)
    ensures Loaded(m, ids, ids).unread == {}
    ensures Apply(m.nodes, Loaded(m, ids, ids).marks) == Release(m.nodes, Held(m, ids))
  {
    hide Release, Dirty, Apply;
    ReleaseKeepsOwners(m.nodes, Held(m, ids));
    ApplyDirty(m.nodes, Release(m.nodes, Held(m, ids)));
  }

  /** Without interleaving, the statements of a session commit exactly what its one-step form does. */
  lemma UninterruptedSessions(s: State, i: nat, op: Op, due: seq<string>, site: Site)
    requires i < |s.sessions| && s.sessions[i].Idle?
    requires (op.DoRent? ==> i < site.renters) && (op.DoExpire? ==> Elems(due) == Due(s.market, op.now))
    ensures RunAll(s, Script(i, op, due), site) == s.(market := Commit(s.market, op, site.caps))
  {
    hide RunAll, Register, Heartbeat, MarkStaleOffline, IdleReclaim, CreateOffer, Withdraw, Rent, Terminate, ExpireDue;
    match op
    case DoRegister(p, id, ib, now) => RegisterScript(s, i, p, id, ib, now, site);
    case DoHeartbeat(p, t, now) => HeartbeatScript(s, i, p, t, now, site);
    case DoStale(cutoff) => StaleScript(s, i, cutoff, site);
    case DoSweep(cutoff) => SweepScript(s, i, cutoff, site);
    case DoCreate(id, r) => CreateScript(s, i, id, r, site);
    case DoWithdraw(p, id) => WithdrawScript(s, i, p, id, site);
    case DoRent(id, r, now) => RentScript(s, i, id, r, now, site);
    case DoTerminate(hk, id) => LeaseScript(s, i, hk, id, site);
    case DoExpire(now) => ExpireScript(s, i, now, due, site);
  }
}
