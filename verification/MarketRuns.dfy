/** What every marketplace session keeps, over every run. */
module MarketRuns {
  import opened Common
  import opened MarketState
  import Fabric = FabricGates

  // ----- the invariant

  /** Pods of live leases never share a node. */
  ghost predicate Exclusive(m: Market) {
    forall a, b {:trigger m.pods[a], m.pods[b]} ::
      a in LiveIds(m) && b in LiveIds(m) && a in m.pods && b in m.pods && a != b ==>
      Elems(m.pods[a].nodes) !! Elems(m.pods[b].nodes)
  }

  /** A node is rented exactly when a live lease's pod holds it. */
  ghost predicate RentedIffCovered(m: Market) {
    forall n :: n in m.nodes ==> (m.nodes[n].status.Rented? <==> n in Covered(m))
  }

  /** A pod is stopped exactly when its lease has ended. */
  ghost predicate PodsFollowLeases(m: Market) {
    && m.pods.Keys == m.leases.Keys
    && forall l :: l in m.leases ==> (m.pods[l].status.Stopped? <==> !Live(m.leases[l].status))
  }

  /** Lease `l` is the only one of its offer, holds the offer's nodes, and is within the offer's terms. */
  ghost predicate LeaseOk(m: Market, l: string)
    requires l in m.leases
  {
    var lease := m.leases[l];
    && lease.offer in m.offers
    && var o := m.offers[lease.offer];
       && !o.status.Listed?
       && (Live(lease.status) ==> o.status.Leased?)
       && (l in m.pods ==> m.pods[l].nodes == o.nodes)
       && 0.0 < lease.lifetime <= o.maxLifetime && lease.price == o.price
  }

  ghost predicate OneLeasePerOffer(m: Market) {
    forall a, b {:trigger m.leases[a], m.leases[b]} :: a in m.leases && b in m.leases && a != b ==>
      m.leases[a].offer != m.leases[b].offer
  }

  ghost predicate OfferOk(m: Market, o: Offer, caps: Caps) {
    && (forall n :: n in o.nodes ==> n in m.nodes)
    && o.price > 0.0 && UnderCap(o.price, caps.price)
    && o.maxLifetime > 0.0 && UnderCap(o.maxLifetime, caps.lifetime)
  }

  ghost predicate Inv(m: Market, caps: Caps) {
    && Exclusive(m) && RentedIffCovered(m) && PodsFollowLeases(m) && OneLeasePerOffer(m)
    && AllLeasesOk(m) && AllOffersOk(m, caps)
  }

  ghost predicate AllLeasesOk(m: Market) {
    forall l :: l in m.leases ==> LeaseOk(m, l)
  }

  ghost predicate AllOffersOk(m: Market, caps: Caps) {
    forall o :: o in m.offers ==> OfferOk(m, m.offers[o], caps)
  }

  // ----- sessions that only touch nodes or offers

  /** Sessions on nodes may add nodes and change free ones; they never add or remove `rented`. */
  ghost predicate OnlyFreeNodesChange(m: Market, m': Market) {
    && m'.offers == m.offers && m'.leases == m.leases && m'.pods == m.pods && m'.owners == m.owners
    && m.nodes.Keys <= m'.nodes.Keys
    && (forall n :: n in m.nodes ==> (m'.nodes[n].status.Rented? <==> m.nodes[n].status.Rented?))
    && (forall n :: n in m'.nodes && n !in m.nodes ==> !m'.nodes[n].status.Rented?)
  }

  lemma CoveredDependsOnTenancy(m: Market, m': Market)
    requires m'.leases == m.leases && m'.pods == m.pods
    ensures LiveIds(m') == LiveIds(m) && Covered(m') == Covered(m)
  {
  }

  lemma CoveredNodesExist(m: Market, caps: Caps)
    requires Inv(m, caps)
    ensures Covered(m) <= m.nodes.Keys
  {
  }

  lemma FreeNodeChangesKeepInv(m: Market, m': Market, caps: Caps)
    requires Inv(m, caps) && OnlyFreeNodesChange(m, m')
    ensures Inv(m', caps)
  {
  }

  lemma CreateGranted(m: Market, id: string, r: OfferRequest, caps: Caps)
    requires CreateOffer(m, id, r, caps).1.Done?
    ensures var m' := CreateOffer(m, id, r, caps).0;
            && id !in m.offers && id in m'.offers && m'.offers[id].status.Listed?
            && m' == m.(offers := m.offers[id := m'.offers[id]]) && OfferOk(m, m'.offers[id], caps)
  {
  }

  lemma CreateKeepsInv(m: Market, id: string, r: OfferRequest, caps: Caps)
    requires Inv(m, caps)
    ensures Inv(CreateOffer(m, id, r, caps).0, caps)
  {
    var (m', reply) := CreateOffer(m, id, r, caps);
    if reply.Done? {
      CreateGranted(m, id, r, caps);
      CoveredDependsOnTenancy(m, m');
      hide Covered, LiveIds, CreateOffer;
      forall l | l in m'.leases ensures LeaseOk(m', l)
      {
        assert LeaseOk(m, l);
      }
    }
  }

  lemma WithdrawKeepsInv(m: Market, provider: string, id: string, caps: Caps)
    requires Inv(m, caps)
    ensures Inv(Withdraw(m, provider, id).0, caps)
  {
  }

  // ----- rent

  /** In a consistent market the capacity check passes exactly when none of the offer's nodes is rented. */
  lemma ExclusiveFreeIffNoneRented(m: Market, caps: Caps, ids: seq<string>)
    requires Inv(m, caps) && forall n :: n in ids ==> n in m.nodes
    ensures ExclusiveFree(m, ids) <==> forall n :: n in ids ==> !m.nodes[n].status.Rented?
  {
    if n :| n in ids && n in Covered(m) {
      var l :| l in LiveIds(m) && l in m.pods && n in m.pods[l].nodes;
      assert n in Elems(m.pods[l].nodes) && n in Elems(ids);
    }
    if !ExclusiveFree(m, ids) {
      var l :| l in m.leases && Live(m.leases[l].status) && l in m.pods && !(Elems(m.pods[l].nodes) !! Elems(ids));
      var n :| n in Elems(m.pods[l].nodes) && n in Elems(ids);
      assert l in LiveIds(m) && n in Covered(m);
    }
  }

  /** What a rent has checked by the time it commits: the offer's nodes are free and no lease was ever made on it. */
  ghost predicate Reserved(m: Market, r: RentRequest) {
    && r.offer in m.offers && (forall n :: n in m.offers[r.offer].nodes ==> n in m.nodes)
    && ExclusiveFree(m, m.offers[r.offer].nodes)
    && (r.lifetime.Some? ==> 0.0 < r.lifetime.value <= m.offers[r.offer].maxLifetime)
    && (forall l :: l in m.leases ==> m.leases[l].offer != r.offer)
  }

  /** A request that passes every check has its offer reserved, in a consistent market. */
  lemma CheckedIsReserved(m: Market, r: RentRequest, caps: Caps)
    requires Inv(m, caps) && RentFault(m, r).None?
    ensures Reserved(m, r)
  {
    hide Exclusive, RentedIffCovered, PodsFollowLeases, OneLeasePerOffer, AllOffersOk;
    forall l | l in m.leases ensures m.leases[l].offer != r.offer
    {
      assert LeaseOk(m, l);
    }
  }

  /** Committing the rows of a reserved rent keeps the market consistent. */
  lemma RentRowsKeepInv(m: Market, id: string, r: RentRequest, now: real, caps: Caps)
    requires Inv(m, caps) && Reserved(m, r) && id !in m.leases && id !in m.pods
    ensures Inv(RentRows(m, id, r, now), caps)
  {
    hide Exclusive, AllLeasesOk, AllOffersOk, RentedIffCovered, PodsFollowLeases, OneLeasePerOffer, LiveIds, Covered;
    var m' := RentRows(m, id, r, now);
    var o := m.offers[r.offer];
    LifetimeFallsBack(m, r, caps);
    LiveAfterRent(m, m', id);
    RentKeepsExclusive(m, m', id, o);
    RentKeepsLeases(m, m', id, r, caps);
    RentKeepsOffers(m, m', r, caps);
    RentKeepsNodes(m, m', id, o);
  }

  lemma RentKeepsInv(m: Market, id: string, r: RentRequest, now: real, caps: Caps)
    requires Inv(m, caps)
    ensures Inv(Rent(m, id, r, now).0, caps)
  {
    hide Inv, RentFault, Reserved, RentRows;
    if Rent(m, id, r, now).1.Done? {
      CheckedIsReserved(m, r, caps);
      RentRowsKeepInv(m, id, r, now, caps);
    }
  }

  lemma LifetimeFallsBack(m: Market, r: RentRequest, caps: Caps)
    requires AllOffersOk(m, caps) && r.offer in m.offers
    ensures m.offers[r.offer].maxLifetime > 0.0
  {
  }

  lemma RentKeepsNodes(m: Market, m': Market, id: string, o: Offer)
    requires RentedIffCovered(m) && PodsFollowLeases(m) && id !in m.leases && id !in m.pods
    requires id in m'.leases && m'.leases == m.leases[id := m'.leases[id]] && Live(m'.leases[id].status)
    requires id in m'.pods && m'.pods == m.pods[id := m'.pods[id]] && m'.pods[id].nodes == o.nodes
    requires !m'.pods[id].status.Stopped? && m'.nodes == Occupy(m.nodes, Elems(o.nodes))
    ensures RentedIffCovered(m') && PodsFollowLeases(m')
  {
    LiveAfterRent(m, m', id);
    RentCovers(m, m', id, o);
    hide LiveIds, Covered;
  }

  lemma LiveAfterRent(m: Market, m': Market, id: string)
    requires id !in m.leases && id in m'.leases && m'.leases == m.leases[id := m'.leases[id]]
             && Live(m'.leases[id].status)
    ensures LiveIds(m') == LiveIds(m) + {id}
  {
  }

  lemma RentKeepsLeases(m: Market, m': Market, id: string, r: RentRequest, caps: Caps)
    requires Inv(m, caps) && id !in m.leases && id !in m.pods && Reserved(m, r)
    requires m'.offers == m.offers[r.offer := m.offers[r.offer].(status := Leased)]
    requires id in m'.leases && m'.leases == m.leases[id := m'.leases[id]] && m'.leases[id].offer == r.offer
    requires id in m'.pods && m'.pods == m.pods[id := m'.pods[id]] && m'.pods[id].nodes == m.offers[r.offer].nodes
    requires 0.0 < m'.leases[id].lifetime <= m.offers[r.offer].maxLifetime
    requires m'.leases[id].price == m.offers[r.offer].price
    ensures AllLeasesOk(m') && OneLeasePerOffer(m')
  {
  }

  lemma RentKeepsOffers(m: Market, m': Market, r: RentRequest, caps: Caps)
    requires AllOffersOk(m, caps) && r.offer in m.offers && m'.nodes.Keys == m.nodes.Keys
    requires m'.offers == m.offers[r.offer := m.offers[r.offer].(status := Leased)]
    ensures AllOffersOk(m', caps)
  {
  }

  lemma RentKeepsExclusive(m: Market, m': Market, id: string, o: Offer)
    requires Exclusive(m) && ExclusiveFree(m, o.nodes)
    requires LiveIds(m') == LiveIds(m) + {id}
    requires id in m'.pods && m'.pods == m.pods[id := m'.pods[id]] && m'.pods[id].nodes == o.nodes
    ensures Exclusive(m')
  {
  }

  lemma RentCovers(m: Market, m': Market, id: string, o: Offer)
    requires id !in m.leases && id !in m.pods && id in m'.pods && m'.pods[id].nodes == o.nodes
    requires LiveIds(m') == LiveIds(m) + {id} && m'.pods == m.pods[id := m'.pods[id]]
    ensures Covered(m') == Covered(m) + Elems(o.nodes)
  {
    forall n | n in Covered(m') ensures n in Covered(m) + Elems(o.nodes)
    {
      var l :| l in LiveIds(m') && l in m'.pods && n in m'.pods[l].nodes;
      if l != id {
        assert l in LiveIds(m) && l in m.pods;
      }
    }
    forall n | n in Covered(m) + Elems(o.nodes) ensures n in Covered(m')
    {
      if n in Covered(m) {
        var l :| l in LiveIds(m) && l in m.pods && n in m.pods[l].nodes;
        assert l in LiveIds(m') && l in m'.pods && n in m'.pods[l].nodes;
      }
    }
  }

  // ----- closing leases

  lemma CloseKeepsInv(m: Market, ids: set<string>, s: LeaseStatus, caps: Caps)
    requires Inv(m, caps) && ids <= LiveIds(m) && !Live(s)
    ensures Inv(Close(m, ids, s), caps)
  {
    CloseKeepsNodes(m, ids, s);
    CloseKeepsTenancy(m, ids, s, caps);
    hide Close, RentedIffCovered, Exclusive, PodsFollowLeases, OneLeasePerOffer, AllLeasesOk, AllOffersOk;
  }

  lemma CloseKeepsNodes(m: Market, ids: set<string>, s: LeaseStatus)
    requires RentedIffCovered(m) && Exclusive(m) && ids <= LiveIds(m) && !Live(s)
    ensures RentedIffCovered(Close(m, ids, s)) && Exclusive(Close(m, ids, s))
  {
    var m' := Close(m, ids, s);
    CloseEndsLeases(m, ids, s);
    CloseUncovers(m, ids, s);
    hide Covered, LiveIds, Held;
    assert forall l :: l in m.pods ==> m'.pods[l].nodes == m.pods[l].nodes;
  }

  lemma CloseKeepsTenancy(m: Market, ids: set<string>, s: LeaseStatus, caps: Caps)
    requires PodsFollowLeases(m) && OneLeasePerOffer(m) && AllLeasesOk(m) && AllOffersOk(m, caps) && !Live(s)
    ensures var m' := Close(m, ids, s);
            PodsFollowLeases(m') && OneLeasePerOffer(m') && AllLeasesOk(m') && AllOffersOk(m', caps)
  {
    CloseKeepsLeases(m, ids, s);
    CloseKeepsOffers(m, ids, s, caps);
    hide Held, LeaseOk, AllLeasesOk, AllOffersOk, OneLeasePerOffer;
  }

  lemma CloseKeepsOffers(m: Market, ids: set<string>, s: LeaseStatus, caps: Caps)
    requires OneLeasePerOffer(m) && AllOffersOk(m, caps)
    ensures OneLeasePerOffer(Close(m, ids, s)) && AllOffersOk(Close(m, ids, s), caps)
  {
  }

  lemma CloseKeepsLeases(m: Market, ids: set<string>, s: LeaseStatus)
    requires AllLeasesOk(m) && !Live(s)
    ensures AllLeasesOk(Close(m, ids, s))
  {
  }

  lemma CloseEndsLeases(m: Market, ids: set<string>, s: LeaseStatus)
    requires ids <= LiveIds(m) && !Live(s)
    ensures LiveIds(Close(m, ids, s)) == LiveIds(m) - ids
  {
  }

  /** Exactly the closed leases' nodes lose their tenant: no other live lease held any of them. */
  lemma CloseUncovers(m: Market, ids: set<string>, s: LeaseStatus)
    requires Exclusive(m) && ids <= LiveIds(m) && !Live(s)
    ensures Covered(Close(m, ids, s)) == Covered(m) - Held(m, ids)
  {
    var m' := Close(m, ids, s);
    CloseEndsLeases(m, ids, s);
    assert m'.pods.Keys == m.pods.Keys && forall l :: l in m.pods ==> m'.pods[l].nodes == m.pods[l].nodes;
    hide Close, LiveIds;
    forall n | n in Covered(m) - Held(m, ids) ensures n in Covered(m')
    {
      var l :| l in LiveIds(m) && l in m.pods && n in m.pods[l].nodes;
      assert l !in ids && l in LiveIds(m') && l in m'.pods && n in m'.pods[l].nodes;
    }
    forall n | n in Covered(m') ensures n in Covered(m) && n !in Held(m, ids)
    {
      var l :| l in LiveIds(m') && l in m'.pods && n in m'.pods[l].nodes;
      assert l in LiveIds(m) && l in m.pods && n in m.pods[l].nodes && n in Elems(m.pods[l].nodes);
      forall k | k in ids && k in m.pods ensures n !in m.pods[k].nodes
      {
        assert Elems(m.pods[l].nodes) !! Elems(m.pods[k].nodes);
        assert n !in Elems(m.pods[k].nodes);
      }
    }
  }

  /** The reclaim sweep's first phase never writes: it is exactly the stale-node sweep. */
  lemma SweepIsStaleSweep(m: Market, cutoff: real, caps: Caps)
    requires Inv(m, caps)
    ensures IdleReclaim(m, cutoff) == MarkStaleOffline(m, cutoff)
    ensures OnlyFreeNodesChange(m, IdleReclaim(m, cutoff))
  {
    assert Occupy(m.nodes, Covered(m)) == m.nodes;
  }

  // ----- runs

  datatype Op =
    | DoRegister(provider: string, id: string, ib: Option<bool>, now: real)
    | DoHeartbeat(provider: string, target: Option<string>, now: real)
    | DoStale(cutoff: real)
    | DoSweep(cutoff: real)
    | DoCreate(id: string, offer: OfferRequest)
    | DoWithdraw(provider: string, id: string)
    | DoRent(id: string, rent: RentRequest, now: real)
    | DoTerminate(hotkey: string, id: string)
    | DoExpire(now: real)

  function Commit(m: Market, op: Op, caps: Caps): Market {
    match op
    case DoRegister(p, id, ib, now) => Register(m, p, id, ib, now).0
    case DoHeartbeat(p, t, now) => Heartbeat(m, p, t, now).0
    case DoStale(cutoff) => MarkStaleOffline(m, cutoff)
    case DoSweep(cutoff) => IdleReclaim(m, cutoff)
    case DoCreate(id, r) => CreateOffer(m, id, r, caps).0
    case DoWithdraw(p, id) => Withdraw(m, p, id).0
    case DoRent(id, r, now) => Rent(m, id, r, now).0
    case DoTerminate(hk, id) => Terminate(m, hk, id).0
    case DoExpire(now) => ExpireDue(m, now)
  }

  function Run(m: Market, ops: seq<Op>, caps: Caps): Market
    decreases |ops|
  {
    if ops == [] then m else Run(Commit(m, ops[0], caps), ops[1..], caps)
  }

  /** A run is its sessions in order. */
  lemma {:induction false} RunIsInOrder(m: Market, ops: seq<Op>, next: Op, caps: Caps)
    ensures Run(m, ops + [next], caps) == Commit(Run(m, ops, caps), next, caps) && Run(m, [], caps) == m
    decreases |ops|
  {
    hide Commit;
    if ops == [] {
      assert ops + [next] == [next] && [next][1..] == [];
    } else {
      assert (ops + [next])[0] == ops[0] && (ops + [next])[1..] == ops[1..] + [next];
      RunIsInOrder(Commit(m, ops[0], caps), ops[1..], next, caps);
    }
  }

  predicate NodeOp(op: Op) {
    op.DoRegister? || op.DoHeartbeat? || op.DoStale? || op.DoSweep?
  }

  lemma NodeOpsChangeFreeNodes(m: Market, op: Op, caps: Caps)
    requires Inv(m, caps) && NodeOp(op)
    ensures OnlyFreeNodesChange(m, Commit(m, op, caps))
  {
    hide Inv, Register, Heartbeat, MarkStaleOffline, IdleReclaim, OnlyFreeNodesChange;
    match op
    case DoRegister(p, id, ib, now) => RegisterIsFree(m, p, id, ib, now);
    case DoHeartbeat(p, t, now) => HeartbeatIsFree(m, p, t, now);
    case DoStale(cutoff) => StaleSweepIsFree(m, cutoff);
    case DoSweep(cutoff) => SweepIsStaleSweep(m, cutoff, caps);
  }

  lemma RegisterIsFree(m: Market, p: string, id: string, ib: Option<bool>, now: real)
    ensures OnlyFreeNodesChange(m, Register(m, p, id, ib, now).0)
  {
  }

  lemma HeartbeatIsFree(m: Market, p: string, target: Option<string>, now: real)
    ensures OnlyFreeNodesChange(m, Heartbeat(m, p, target, now).0)
  {
  }

  lemma StaleSweepIsFree(m: Market, cutoff: real)
    ensures OnlyFreeNodesChange(m, MarkStaleOffline(m, cutoff))
  {
  }

  lemma CommitKeepsInv(m: Market, op: Op, caps: Caps)
    requires Inv(m, caps)
    ensures Inv(Commit(m, op, caps), caps)
  {
    hide Inv, Rent, Close, CreateOffer, Withdraw, IdleReclaim, Covered, Register, Heartbeat, MarkStaleOffline;
    match op
    case DoRegister(_, _, _, _) | DoHeartbeat(_, _, _) | DoStale(_) | DoSweep(_) =>
      NodeOpsChangeFreeNodes(m, op, caps);
      FreeNodeChangesKeepInv(m, Commit(m, op, caps), caps);
    case DoCreate(id, r) => CreateKeepsInv(m, id, r, caps);
    case DoWithdraw(p, id) => WithdrawKeepsInv(m, p, id, caps);
    case DoRent(id, r, now) => RentKeepsInv(m, id, r, now, caps);
    case DoTerminate(hk, id) =>
      if id in m.leases && Live(m.leases[id].status) {
        CloseKeepsInv(m, {id}, Terminated, caps);
      }
    case DoExpire(now) => CloseKeepsInv(m, Due(m, now), Expired, caps);
  }

  function Empty(owners: map<string, string>): Market {
    Market(map[], map[], map[], map[], owners)
  }

  lemma {:induction false} RunKeepsInv(m: Market, ops: seq<Op>, caps: Caps)
    requires Inv(m, caps)
    ensures Inv(Run(m, ops, caps), caps)
    decreases |ops|
  {
    hide Inv, Commit;
    if ops != [] {
      CommitKeepsInv(m, ops[0], caps);
      RunKeepsInv(Commit(m, ops[0], caps), ops[1..], caps);
    }
  }

  /**
   In every reachable market live leases hold disjoint nodes, a node is rented exactly when one holds it,
   pods stop exactly with their leases, and every lease is its offer's only one and within its terms.
   */
  lemma EveryRunIsConsistent(owners: map<string, string>, ops: seq<Op>, caps: Caps)
    ensures Inv(Run(Empty(owners), ops, caps), caps)
  {
    RunKeepsInv(Empty(owners), ops, caps);
  }

  // ----- history: what a session may not rewrite

  /** Offers and leases are never removed; an ended lease and the terms of all of them are frozen; an offer
      leaves `listed` for good; pods keep their nodes. */
  ghost predicate KeepsHistory(m: Market, m': Market) {
    && (forall o :: o in m.offers ==>
          && o in m'.offers && m'.offers[o].(status := m.offers[o].status) == m.offers[o]
          && (!m.offers[o].status.Listed? ==> !m'.offers[o].status.Listed?))
    && (forall l :: l in m.leases ==>
          && l in m'.leases && m'.leases[l].(status := m.leases[l].status) == m.leases[l]
          && (!Live(m.leases[l].status) ==> m'.leases[l] == m.leases[l]))
    && (forall l :: l in m.pods ==> l in m'.pods && m'.pods[l].nodes == m.pods[l].nodes)
  }

  lemma RentKeepsHistory(m: Market, id: string, r: RentRequest, now: real)
    ensures KeepsHistory(m, Rent(m, id, r, now).0)
  {
  }

  lemma CloseKeepsHistory(m: Market, ids: set<string>, s: LeaseStatus)
    requires ids <= LiveIds(m)
    ensures KeepsHistory(m, Close(m, ids, s))
  {
  }

  lemma CreateKeepsHistory(m: Market, id: string, r: OfferRequest, caps: Caps)
    ensures KeepsHistory(m, CreateOffer(m, id, r, caps).0)
  {
  }

  lemma WithdrawKeepsHistory(m: Market, provider: string, id: string)
    ensures KeepsHistory(m, Withdraw(m, provider, id).0)
  {
  }

  lemma SameRowsKeepHistory(m: Market, m': Market)
    requires m'.offers == m.offers && m'.leases == m.leases && m'.pods == m.pods
    ensures KeepsHistory(m, m')
  {
  }

  lemma CommitKeepsHistory(m: Market, op: Op, caps: Caps)
    ensures KeepsHistory(m, Commit(m, op, caps))
  {
    hide Held, Covered, Rent, Close, CreateOffer, Withdraw, KeepsHistory;
    match op
    case DoCreate(id, r) => CreateKeepsHistory(m, id, r, caps);
    case DoWithdraw(p, id) => WithdrawKeepsHistory(m, p, id);
    case DoRent(id, r, now) => RentKeepsHistory(m, id, r, now);
    case DoTerminate(hk, id) =>
      SameRowsKeepHistory(m, m);
      if id in m.leases && Live(m.leases[id].status) {
        CloseKeepsHistory(m, {id}, Terminated);
      }
    case DoExpire(now) => CloseKeepsHistory(m, Due(m, now), Expired);
    case _ => SameRowsKeepHistory(m, Commit(m, op, caps));
  }

  lemma {:induction false} RunKeepsHistory(m: Market, ops: seq<Op>, caps: Caps)
    ensures KeepsHistory(m, Run(m, ops, caps))
    decreases |ops|
  {
    hide Commit;
    if ops != [] {
      CommitKeepsHistory(m, ops[0], caps);
      RunKeepsHistory(Commit(m, ops[0], caps), ops[1..], caps);
    }
  }

  /** As long as its lease lives, a tenant keeps its pod running and every one of its nodes rented. */
  lemma TenantIsProtected(m: Market, ops: seq<Op>, caps: Caps, l: string)
    requires Inv(m, caps) && l in LiveIds(m) && l in LiveIds(Run(m, ops, caps))
    ensures var m' := Run(m, ops, caps);
            && l in m.pods && l in m'.pods && m'.pods[l].nodes == m.pods[l].nodes && !m'.pods[l].status.Stopped?
            && forall n :: n in m.pods[l].nodes ==> n in m'.nodes && m'.nodes[n].status.Rented?
  {
    var m' := Run(m, ops, caps);
    RunKeepsInv(m, ops, caps);
    RunKeepsHistory(m, ops, caps);
    hide Run;
    CoveredNodesExist(m', caps);
    forall n | n in m.pods[l].nodes ensures n in m'.nodes && m'.nodes[n].status.Rented?
    {
      assert l in m'.pods && n in m'.pods[l].nodes;
      assert n in Covered(m');
    }
  }

  /**
   A node that registered or beat at `now` is alive: no sweep with an earlier cutoff touches it, and it can be
   offered unless it is banned.
   */
  lemma BeatSurvivesSweep(m: Market, provider: string, target: Option<string>, n: string, now: real, cutoff: real)
    requires cutoff <= now && n in m.nodes && m.nodes[n].provider == provider && (target.None? || target == Some(n))
    ensures var (m', reply) := Heartbeat(m, provider, target, now);
            && reply.Done? && MarkStaleOffline(m', cutoff).nodes[n] == m'.nodes[n]
            && (Offerable(m'.nodes[n].status) <==> !m.nodes[n].status.Banned?)
            && forall k :: k in m.nodes && (m.nodes[k].provider != provider || (target.Some? && k != n)) ==>
                 m'.nodes[k] == m.nodes[k]
  {
  }

  lemma RegistrationSurvivesSweep(m: Market, provider: string, id: string, ib: Option<bool>, now: real, cutoff: real)
    requires cutoff <= now && (id in m.nodes ==> m.nodes[id].provider == provider)
    ensures var (m', reply) := Register(m, provider, id, ib, now);
            && reply.Done? && id in m'.nodes && m'.nodes[id].provider == provider
            && MarkStaleOffline(m', cutoff).nodes[id] == m'.nodes[id]
            && (Offerable(m'.nodes[id].status) <==> !(id in m.nodes && m.nodes[id].status.Banned?))
            && forall k :: k in m.nodes && k != id ==> m'.nodes[k] == m.nodes[k]
  {
  }

  /** A swept node is offline exactly if it was free, live and silent; it can then be neither offered nor rented. */
  lemma SweptNodesAreIdle(m: Market, cutoff: real, n: string)
    requires n in m.nodes && !m.nodes[n].status.Offline?
    ensures MarkStaleOffline(m, cutoff).nodes[n].status.Offline? <==>
            && m.nodes[n].status in {Healthy, NodeStatus.Registered, Draining}
            && m.nodes[n].heartbeat.Some? && m.nodes[n].heartbeat.value < cutoff
    ensures MarkStaleOffline(m, cutoff).nodes[n].status.Offline? ==>
            forall o, r: RentRequest :: o in m.offers && n in m.offers[o].nodes && r.offer == o ==>
              RentFault(MarkStaleOffline(m, cutoff), r).Some?
  {
  }

  /** An offer that was ever leased is never listed again, so it is never rented twice. */
  lemma LeasedOnceForever(m: Market, ops: seq<Op>, caps: Caps, l: string, id: string, r: RentRequest, now: real)
    requires Inv(m, caps) && l in m.leases && r.offer == m.leases[l].offer
    ensures !Rent(Run(m, ops, caps), id, r, now).1.Done?
  {
    var m' := Run(m, ops, caps);
    assert LeaseOk(m, l);
    RunKeepsHistory(m, ops, caps);
    hide Run, Inv;
  }

  /** Its owner's withdraw of an offer is refused exactly while the offer's lease is live. */
  lemma WithdrawRefusedIff(m: Market, caps: Caps, id: string)
    requires Inv(m, caps) && id in m.offers
    ensures Withdraw(m, m.offers[id].provider, id).1 == Refused("offer_active_lease") <==>
            exists l :: l in LiveIds(m) && m.leases[l].offer == id
    ensures HasLiveLease(m, id) ==> m.offers[id].status.Leased?
  {
  }

  // ----- what is undone

  /** The statuses that sessions write: nodes are live, offline or under a tenant. */
  ghost predicate PlainNodes(m: Market) {
    forall n :: n in m.nodes ==> m.nodes[n].status.Healthy? || m.nodes[n].status.Offline? || m.nodes[n].status.Rented?
  }

  lemma CommitKeepsPlain(m: Market, op: Op, caps: Caps)
    requires PlainNodes(m)
    ensures PlainNodes(Commit(m, op, caps))
  {
    hide OfferFault, RentFault, HasLiveLease, Held, Due;
  }

  lemma {:induction false} RunKeepsPlain(m: Market, ops: seq<Op>, caps: Caps)
    requires PlainNodes(m)
    ensures PlainNodes(Run(m, ops, caps))
    decreases |ops|
  {
    hide Commit, PlainNodes;
    if ops != [] {
      CommitKeepsPlain(m, ops[0], caps);
      RunKeepsPlain(Commit(m, ops[0], caps), ops[1..], caps);
    }
  }

  /** In every reachable market every node is healthy, offline or rented. */
  lemma EveryRunLeavesPlainNodes(owners: map<string, string>, ops: seq<Op>, caps: Caps)
    ensures PlainNodes(Run(Empty(owners), ops, caps))
  {
    hide Run;
    RunKeepsPlain(Empty(owners), ops, caps);
  }

  /** Freeing what was just occupied gives back nodes that were healthy. */
  lemma ReleaseUndoesOccupy(nodes: map<string, Node>, ids: seq<string>)
    requires forall n :: n in ids ==> n in nodes && nodes[n].status.Healthy?
    ensures Release(Occupy(nodes, Elems(ids)), Elems(ids)) == nodes
  {
  }

  lemma TerminateFreesRent(m: Market, id: string, r: RentRequest, now: real)
    requires id !in m.leases && id !in m.pods && r.offer in m.offers
    ensures var rented := RentRows(m, id, r, now);
            var ended := Terminate(rented, r.renter, id).0;
            && ended.nodes == Release(Occupy(m.nodes, Elems(m.offers[r.offer].nodes)), Elems(m.offers[r.offer].nodes))
            && ended.offers == rented.offers && ended.owners == m.owners
            && (forall l :: l in m.leases ==> l in ended.leases && ended.leases[l] == m.leases[l])
            && (forall l :: l in m.pods ==> l in ended.pods && ended.pods[l] == m.pods[l])
            && id in ended.leases && ended.leases[id].status.Terminated? && id in ended.pods
            && ended.pods[id].status.Stopped?
  {
    hide Release, Occupy;
    var rented := RentRows(m, id, r, now);
    assert Held(rented, {id}) == Elems(m.offers[r.offer].nodes) by {
      assert rented.pods[id].nodes == m.offers[r.offer].nodes;
    }
  }

  /**
   In every reachable market, renting and terminating at once gives the node table back exactly as it was, and
   leaves behind only the spent offer, the terminated lease and its stopped pod.
   */
  lemma TerminateUndoesRent(owners: map<string, string>, ops: seq<Op>, caps: Caps, id: string, r: RentRequest,
                            now: real)
    requires Rent(Run(Empty(owners), ops, caps), id, r, now).1.Done?
    ensures var m := Run(Empty(owners), ops, caps);
            var ended := Terminate(Rent(m, id, r, now).0, r.renter, id).0;
            && ended.nodes == m.nodes && r.offer in m.offers
            && ended.offers == m.offers[r.offer := m.offers[r.offer].(status := Leased)]
            && (forall l :: l in m.leases ==> l in ended.leases && ended.leases[l] == m.leases[l])
            && (forall l :: l in m.pods ==> l in ended.pods && ended.pods[l] == m.pods[l])
            && id in ended.leases && ended.leases[id].status.Terminated? && id in ended.pods
            && ended.pods[id].status.Stopped?
  {
    hide Run, Inv, Occupy, Release, Terminate, ExclusiveFree;
    var m := Run(Empty(owners), ops, caps);
    EveryRunIsConsistent(owners, ops, caps);
    EveryRunLeavesPlainNodes(owners, ops, caps);
    FreeNodesAreHealthy(m, r, caps);
    TerminateFreesRent(m, id, r, now);
    ReleaseUndoesOccupy(m.nodes, m.offers[r.offer].nodes);
  }

  lemma FreeNodesAreHealthy(m: Market, r: RentRequest, caps: Caps)
    requires Inv(m, caps) && PlainNodes(m) && RentFault(m, r).None?
    ensures r.offer in m.offers
            && forall n :: n in m.offers[r.offer].nodes ==> n in m.nodes && m.nodes[n].status.Healthy?
  {
    hide Inv;
    ExclusiveFreeIffNoneRented(m, caps, m.offers[r.offer].nodes);
  }

  /**
   In a consistent market a rent request is granted exactly when the offer is listed and affordable, the
   lifetime is within its maximum and every one of its nodes is live and free of tenants, and, for a require_ib
   offer, has InfiniBand both in the node table and in its latest report.
   */
  lemma RentGrantedIff(m: Market, id: string, r: RentRequest, now: real, caps: Caps)
    requires Inv(m, caps) && id !in m.leases
    ensures Rent(m, id, r, now).1.Done? <==>
            && r.renter != "" && r.offer in m.offers
            && var o := m.offers[r.offer];
               && o.status.Listed? && o.nodes != []
               && (r.maxPrice.Some? ==> o.price <= r.maxPrice.value)
               && (r.lifetime.Some? ==> 0.0 < r.lifetime.value <= o.maxLifetime)
               && (forall n :: n in o.nodes ==> m.nodes[n].status.Healthy? || m.nodes[n].status.Registered?)
               && (o.requireIb ==> forall n :: n in o.nodes ==> m.nodes[n].hasIb && Fabric.IbReported(r.reports, n))
  {
    hide Exclusive, RentedIffCovered, OneLeasePerOffer, AllLeasesOk, ExclusiveFree, Fabric.RequireIbFault,
      Fabric.IbReported;
    assert id !in m.pods;
    if r.offer in m.offers {
      var o := m.offers[r.offer];
      assert OfferOk(m, o, caps);
      ExclusiveFreeIffNoneRented(m, caps, o.nodes);
      Fabric.RentAgreesWithMode(r.reports, o.nodes);
    }
  }

  /**
   An offer is listed exactly when its nodes are the provider's own and live, their number fits the mode,
   and price and lifetime are positive and capped (and, in hard mode, inside the catalog band).
   */
  lemma OfferListedIff(m: Market, id: string, r: OfferRequest, caps: Caps)
    requires id !in m.offers
    ensures var price := if r.price.Some? then r.price.value else r.catalog.GetOr(Catalog(0.0, 0.0, 0.0)).price;
            CreateOffer(m, id, r, caps).1.Done? <==>
              && r.lifetime > 0.0 && UnderCap(r.lifetime, caps.lifetime)
              && r.ids != [] && "" !in r.ids
              && (forall n :: n in r.ids ==>
                    n in m.nodes && m.nodes[n].provider == r.provider && Offerable(m.nodes[n].status))
              && (if r.cluster then |Dedup(r.ids)| >= 2 else |Dedup(r.ids)| == 1)
              && (r.requireIb ==> forall n :: n in r.ids ==> m.nodes[n].hasIb)
              && price > 0.0 && UnderCap(price, caps.price)
              && (r.catalog.Some? && r.band.BandHard? ==> InBand(price, r.catalog.value))
  {
  }
}
