/** What each marketplace session writes, row by row and column by column, and what it refuses. */
module MarketEffects {
  import opened Common
  import opened MarketState
  import opened MarketRuns
  import Fabric = FabricGates

  // ----- nodes

  /** A registration refreshes the provider's node or adds one; a stranger's node is left alone. */
  lemma RegisterWrites(m: Market, provider: string, id: string, ib: Option<bool>, now: real)
    ensures var (m', reply) := Register(m, provider, id, ib, now);
            var foreign := id in m.nodes && m.nodes[id].provider != provider;
            && (reply == Refused("node_not_owned") <==> foreign) && (reply.Done? <==> !foreign)
            && (foreign ==> m' == m)
            && (!foreign ==>
                  && id in m'.nodes && m' == m.(nodes := m.nodes[id := m'.nodes[id]])
                  && m'.nodes[id].provider == provider && m'.nodes[id].heartbeat == Some(now)
                  && (id !in m.nodes ==> m'.nodes[id].status.Healthy? && m'.nodes[id].hasIb == (ib == Some(true)))
                  && (id in m.nodes ==>
                        && m'.nodes[id].hasIb == (if ib.Some? then ib.value else m.nodes[id].hasIb)
                        && m'.nodes[id].status ==
                             match m.nodes[id].status
                             case Rented => Rented
                             case Banned => Banned
                             case _ => Healthy))
  {
  }

  /** A beat reaches the named node, or all of the provider's, and revives what is neither rented nor banned. */
  lemma HeartbeatWrites(m: Market, provider: string, target: Option<string>, now: real)
    ensures var (m', reply) := Heartbeat(m, provider, target, now);
            && (reply == Refused("node_not_found") <==> target.Some? && target.value !in m.nodes)
            && (reply == Refused("node_not_owned") <==>
                  target.Some? && target.value in m.nodes && m.nodes[target.value].provider != provider)
            && (reply == Refused("no_nodes") <==>
                  target.None? && forall n :: n in m.nodes ==> m.nodes[n].provider != provider)
            && (!reply.Done? ==> m' == m)
            && (reply.Done? ==>
                  && m' == m.(nodes := m'.nodes) && m'.nodes.Keys == m.nodes.Keys
                  && forall n :: n in m.nodes ==>
                       m'.nodes[n] ==
                         if m.nodes[n].provider != provider || (target.Some? && n != target.value) then m.nodes[n]
                         else
                           match m.nodes[n].status
                           case Rented => m.nodes[n].(heartbeat := Some(now))
                           case Banned => m.nodes[n].(heartbeat := Some(now))
                           case _ => m.nodes[n].(heartbeat := Some(now), status := Healthy))
  {
  }

  /** The sweep touches exactly the live, free nodes that were silent since the cutoff. */
  lemma SweepWrites(m: Market, cutoff: real)
    ensures var m' := MarkStaleOffline(m, cutoff);
            && m' == m.(nodes := m'.nodes) && m'.nodes.Keys == m.nodes.Keys
            && forall n :: n in m.nodes ==>
                 var node := m.nodes[n];
                 m'.nodes[n] ==
                   if node.status in {Healthy, NodeStatus.Registered, Draining}
                      && node.heartbeat.Some? && node.heartbeat.value < cutoff
                   then node.(status := Offline) else node
  {
  }

  // ----- offers

  /** Where `x` first appears. */
  ghost function First(ids: seq<string>, x: string): (i: nat)
    requires x in ids
    ensures i < |ids| && ids[i] == x && forall k :: 0 <= k < i ==> ids[k] != x
  {
    if ids[0] == x then 0 else 1 + First(ids[1..], x)
  }

  /** The nodes are listed in the order in which they were first named. */
  ghost predicate InOrder(ids: seq<string>, r: seq<string>) {
    && (forall x :: x in r ==> x in ids)
    && forall i, k :: 0 <= i < k < |r| ==> First(ids, r[i]) < First(ids, r[k])
  }

  lemma {:induction false} DedupKeepsOrder(ids: seq<string>)
    ensures InOrder(ids, Dedup(ids))
    decreases |ids|
  {
    if ids != [] {
      DedupKeepsOrder(ids[..|ids| - 1]);
      OrderGrows(ids, Dedup(ids[..|ids| - 1]));
    }
  }

  lemma OrderGrows(ids: seq<string>, r: seq<string>)
    requires ids != [] && InOrder(ids[..|ids| - 1], r) && forall x :: x in r <==> x in ids[..|ids| - 1]
    ensures InOrder(ids, if ids[|ids| - 1] in r then r else r + [ids[|ids| - 1]])
  {
    hide First;
    forall x | x in r ensures x in ids && First(ids, x) == First(ids[..|ids| - 1], x)
    {
      FirstInInit(ids, x);
    }
    if ids[|ids| - 1] !in r {
      LastIsNew(ids);
    }
  }

  lemma LastIsNew(ids: seq<string>)
    requires ids != [] && ids[|ids| - 1] !in ids[..|ids| - 1]
    ensures First(ids, ids[|ids| - 1]) == |ids| - 1
  {
    var init := ids[..|ids| - 1];
    assert forall k :: 0 <= k < |init| ==> ids[k] == init[k] && init[k] in init;
  }

  lemma FirstInInit(ids: seq<string>, x: string)
    requires ids != [] && x in ids[..|ids| - 1]
    ensures First(ids, x) == First(ids[..|ids| - 1], x)
  {
    var init := ids[..|ids| - 1];
    assert init[First(init, x)] == ids[First(init, x)] == x;
  }

  /** The listed row carries the provider's distinct nodes, the asked or catalog price and the asked terms. */
  lemma CreateWrites(m: Market, id: string, r: OfferRequest, caps: Caps)
    ensures var (m', reply) := CreateOffer(m, id, r, caps);
            && (!reply.Done? ==> m' == m)
            && (reply.Done? ==>
                  && id !in m.offers && id in m'.offers && m' == m.(offers := m.offers[id := m'.offers[id]])
                  && m'.offers[id].provider == r.provider && m'.offers[id].status.Listed?
                  && m'.offers[id].nodes == Dedup(r.ids) && m'.offers[id].requireIb == r.requireIb
                  && m'.offers[id].maxLifetime == r.lifetime
                  && (r.price.Some? ==> m'.offers[id].price == r.price.value)
                  && (r.price.None? ==> r.catalog.Some? && m'.offers[id].price == r.catalog.value.price))
  {
    hide LoadFault, Dedup, PriceFault, BandFault;
  }

  /** The owner takes the offer off the list, unless a live lease is on it; nothing else changes. */
  lemma WithdrawWrites(m: Market, provider: string, id: string)
    ensures var (m', reply) := Withdraw(m, provider, id);
            var leased := exists l :: l in m.leases && m.leases[l].offer == id
                                      && (m.leases[l].status.Requested? || m.leases[l].status.Active?);
            && (reply == Refused("offer_not_found") <==> id !in m.offers)
            && (reply == Refused("offer_not_owned") <==> id in m.offers && m.offers[id].provider != provider)
            && (reply == Refused("offer_active_lease") <==>
                  id in m.offers && m.offers[id].provider == provider && leased)
            && (reply.Done? <==> id in m.offers && m.offers[id].provider == provider && !leased)
            && m' == if reply.Done? && id in m.offers
                     then m.(offers := m.offers[id := m.offers[id].(status := Withdrawn)]) else m
  {
  }

  // ----- rents and their expiry

  /** The lifetime of a granted rent: what the renter asked for, else the offer's maximum. */
  ghost function Hours(m: Market, r: RentRequest): real
    requires r.offer in m.offers
  {
    match r.lifetime
    case Some(h) => h
    case None => m.offers[r.offer].maxLifetime
  }

  /**
   A granted rent writes one lease on the renter's and the offer's terms, ending when its hours are over, and one pod
   over exactly the offer's nodes, marks those and the offer, and touches no other row; a refused one writes nothing.
   */
  lemma RentWrites(m: Market, id: string, r: RentRequest, now: real)
    ensures var (m', reply) := Rent(m, id, r, now);
            && (!reply.Done? ==> m' == m)
            && (reply.Done? ==>
                  && r.offer in m.offers && id !in m.leases && id !in m.pods
                  && var o := m.offers[r.offer];
                     && m'.leases == m.leases[id :=
                          Lease(r.offer, r.renter, o.provider, if r.simReady then Active else Requested,
                                now + 3600.0 * Hours(m, r), o.price, Hours(m, r))]
                     && m'.pods == m.pods[id := Pod(o.nodes, if r.simReady then Running else Provisioning)]
                     && m'.offers == m.offers[r.offer := o.(status := Leased)] && m'.owners == m.owners
                     && m'.nodes.Keys == m.nodes.Keys
                     && forall n :: n in m.nodes ==>
                          m'.nodes[n] == if n in o.nodes then m.nodes[n].(status := Rented) else m.nodes[n])
  {
    hide RentFault;
  }

  /** An expiry ends exactly the live leases whose end has come, stops their pods and frees their rented nodes. */
  lemma ExpireWrites(m: Market, now: real)
    ensures var m' := ExpireDue(m, now);
            && m'.offers == m.offers && m'.owners == m.owners
            && m'.leases.Keys == m.leases.Keys && m'.pods.Keys == m.pods.Keys && m'.nodes.Keys == m.nodes.Keys
            && (forall l :: l in m.leases ==>
                  m'.leases[l] == if RunsOut(m, l, now) then m.leases[l].(status := Expired) else m.leases[l])
            && (forall l :: l in m.pods ==>
                  m'.pods[l] == if RunsOut(m, l, now) then m.pods[l].(status := Stopped) else m.pods[l])
            && (forall n :: n in m.nodes ==>
                  m'.nodes[n] ==
                    if m.nodes[n].status.Rented?
                       && exists l :: RunsOut(m, l, now) && l in m.pods && n in m.pods[l].nodes
                    then m.nodes[n].(status := Healthy) else m.nodes[n])
  {
    ClosesHeld(m, Due(m, now), Expired);
  }

  ghost predicate RunsOut(m: Market, l: string, now: real) {
    l in m.leases && (m.leases[l].status.Requested? || m.leases[l].status.Active?) && m.leases[l].endsAt <= now
  }

  lemma ClosesHeld(m: Market, ids: set<string>, s: LeaseStatus)
    ensures forall n :: n in m.nodes ==>
              Close(m, ids, s).nodes[n] ==
                if m.nodes[n].status.Rented? && exists l :: l in ids && l in m.pods && n in m.pods[l].nodes
                then m.nodes[n].(status := Healthy) else m.nodes[n]
  {
  }

  /**
   A granted rent lives for its hours and no longer: an expiry at `t` leaves the lease live, with its pod running and
   its nodes rented, exactly if `t` is before the end, and otherwise expires it, stops the pod and frees the nodes.
   */
  lemma RentExpiresIff(m: Market, id: string, r: RentRequest, now: real, t: real, caps: Caps)
    requires Inv(m, caps) && Rent(m, id, r, now).1.Done?
    ensures var m' := ExpireDue(Rent(m, id, r, now).0, t);
            && r.offer in m.offers && id in m'.leases && id in m'.pods
            && var alive := t < now + 3600.0 * Hours(m, r);
               && (alive ==>
                     && m'.leases[id].status == (if r.simReady then Active else Requested)
                     && m'.pods[id].status == (if r.simReady then Running else Provisioning)
                     && forall n :: n in m.offers[r.offer].nodes ==> n in m'.nodes && m'.nodes[n].status.Rented?)
               && (!alive ==>
                     && m'.leases[id].status.Expired? && m'.pods[id].status.Stopped?
                     && forall n :: n in m.offers[r.offer].nodes ==> n in m'.nodes && m'.nodes[n].status.Healthy?)
  {
    hide Rent, ExpireDue, Inv;
    var m1 := Rent(m, id, r, now).0;
    RentWrites(m, id, r, now);
    RentKeepsInv(m, id, r, now, caps);
    OfferNodesThere(m, r.offer, caps);
    ExpireWrites(m1, t);
    if t < now + 3600.0 * Hours(m, r) {
      LiveKeepsNodes(m1, id, t, caps);
    } else {
      EndedFreesNodes(m1, id, t);
    }
  }

  lemma OfferNodesThere(m: Market, o: string, caps: Caps)
    requires Inv(m, caps) && o in m.offers
    ensures forall n :: n in m.offers[o].nodes ==> n in m.nodes
  {
    assert OfferOk(m, m.offers[o], caps);
  }

  lemma LiveKeepsNodes(m: Market, id: string, t: real, caps: Caps)
    requires Inv(m, caps) && id in LiveIds(m) && id in m.pods && !RunsOut(m, id, t)
    ensures var m' := ExpireDue(m, t);
            forall n :: n in m.pods[id].nodes && n in m.nodes && m.nodes[n].status.Rented? ==>
              n in m'.nodes && m'.nodes[n].status.Rented?
  {
    hide ExpireDue, Inv;
    ExpireWrites(m, t);
    forall n | n in m.pods[id].nodes && n in m.nodes && m.nodes[n].status.Rented?
      ensures ExpireDue(m, t).nodes[n].status.Rented?
    {
      OnlyTenant(m, id, n, t, caps);
    }
  }

  lemma EndedFreesNodes(m: Market, id: string, t: real)
    requires id in m.pods && RunsOut(m, id, t)
    ensures var m' := ExpireDue(m, t);
            forall n :: n in m.pods[id].nodes && n in m.nodes && m.nodes[n].status.Rented? ==>
              n in m'.nodes && m'.nodes[n].status.Healthy?
  {
    hide ExpireDue;
    ExpireWrites(m, t);
  }

  /** The node of a lease that does not run out is in no lease that does. */
  lemma OnlyTenant(m: Market, id: string, n: string, t: real, caps: Caps)
    requires Inv(m, caps) && id in LiveIds(m) && id in m.pods && n in m.pods[id].nodes && !RunsOut(m, id, t)
    ensures forall l :: RunsOut(m, l, t) && l in m.pods ==> n !in m.pods[l].nodes
  {
    hide RentedIffCovered, OneLeasePerOffer, AllLeasesOk, AllOffersOk, PodsFollowLeases;
    forall l | RunsOut(m, l, t) && l in m.pods ensures n !in m.pods[l].nodes
    {
      assert l in LiveIds(m) && l != id;
      assert Elems(m.pods[l].nodes) !! Elems(m.pods[id].nodes);
      assert n in Elems(m.pods[id].nodes);
      assert n !in Elems(m.pods[l].nodes);
    }
  }

  // ----- terminations

  /** Renter and provider end a live lease, an ended one is left as it is, and nobody else ends any. */
  lemma TerminateWrites(m: Market, hotkey: string, id: string)
    ensures var (m', reply) := Terminate(m, hotkey, id);
            var party := id in m.leases
                         && (hotkey == m.leases[id].renter
                             || (m.leases[id].provider in m.owners && m.owners[m.leases[id].provider] == hotkey));
            var ends := party && (m.leases[id].status.Requested? || m.leases[id].status.Active?);
            && (reply == Refused("lease_not_found") <==> id !in m.leases)
            && (reply == Refused("lease_not_owned") <==> id in m.leases && !party)
            && (reply.Done? <==> party)
            && (!ends ==> m' == m)
            && (ends ==>
                  && m'.offers == m.offers && m'.owners == m.owners
                  && m'.leases == m.leases[id := m.leases[id].(status := Terminated)]
                  && m'.pods == (if id in m.pods then m.pods[id := m.pods[id].(status := Stopped)] else m.pods)
                  && m'.nodes.Keys == m.nodes.Keys
                  && forall n :: n in m.nodes ==>
                       m'.nodes[n] == if m.nodes[n].status.Rented? && id in m.pods && n in m.pods[id].nodes
                                      then m.nodes[n].(status := Healthy) else m.nodes[n])
  {
    ClosesHeld(m, {id}, Terminated);
  }

  // ----- refusals

  /** A rent is refused for the first check that fails, in the order of its queries. */
  lemma RentRefusals(m: Market, r: RentRequest)
    ensures r.offer in m.offers ==>
              var o := m.offers[r.offer];
              var listed := r.renter != "" && o.status.Listed?;
              var affordable := listed && (r.maxPrice.Some? ==> 0.0 < r.maxPrice.value && o.price <= r.maxPrice.value);
              var timely := affordable && (r.lifetime.Some? ==> 0.0 < r.lifetime.value <= o.maxLifetime);
              var there := timely && o.nodes != [] && forall n :: n in o.nodes ==> n in m.nodes;
              var live := there && forall n :: n in o.nodes ==>
                                     m.nodes[n].status in {Healthy, NodeStatus.Registered, Rented};
              && (RentFault(m, r) == Some("offer_not_listed") <==> r.renter != "" && !o.status.Listed?)
              && (RentFault(m, r) == Some("invalid_max_price") <==> listed && r.maxPrice.GetOr(1.0) <= 0.0)
              && (RentFault(m, r) == Some("price_over_renter_max") <==>
                    listed && r.maxPrice.Some? && 0.0 < r.maxPrice.value < o.price)
              && (RentFault(m, r) == Some("invalid_lifetime_hours") <==> affordable && r.lifetime.GetOr(1.0) <= 0.0)
              && (RentFault(m, r) == Some("lifetime_over_offer_max") <==>
                    affordable && r.lifetime.Some? && r.lifetime.value > 0.0 && r.lifetime.value > o.maxLifetime)
              && (RentFault(m, r) == Some("offer_has_no_nodes") <==> timely && o.nodes == [])
              && (RentFault(m, r) == Some("offer_node_missing") <==> timely && o.nodes != [] && !there)
              && (RentFault(m, r) == Some("node_not_offerable") <==> there && !live)
              && (RentFault(m, r).None? ==> live && (o.requireIb ==> forall n :: n in o.nodes ==> m.nodes[n].hasIb))
    ensures RentFault(m, r) == Some("missing_renter") <==> r.renter == ""
    ensures RentFault(m, r) == Some("offer_not_found") <==> r.renter != "" && r.offer !in m.offers
  {
    hide ExclusiveFree, Fabric.RequireIbFault;
    FabricCodes(m, r);
  }

  lemma FabricCodes(m: Market, r: RentRequest)
    ensures forall ids :: Fabric.RequireIbFault(r.reports, ids)
                          in {None, Some("require_ib_not_satisfied"), Some("require_ib_fabric_inconsistent")}
  {
  }
}
