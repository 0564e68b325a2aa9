/**
 The marketplace tables as the service updates them, one session per method. The order in which a loop
 meets rows is arbitrary, as it is for an unordered query.
 */
module MarketStore {
  import opened Common
  import opened MarketState
  import opened MarketRuns
  import Fabric = FabricGates

  class MarketStore {
    const caps: Caps
    const owners: map<string, string>
    var nodes: map<string, Node>
    var offers: map<string, Offer>
    var leases: map<string, Lease>
    var pods: map<string, Pod>

    ghost function State(): Market
      reads this
    {
      Market(nodes, offers, leases, pods, owners)
    }

    ghost predicate Valid()
      reads this
    {
      Inv(State(), caps)
    }

    constructor (caps: Caps, owners: map<string, string>)
      ensures Valid() && State() == Empty(owners) && this.caps == caps
    {
      this.caps, this.owners := caps, owners;
      nodes, offers, leases, pods := map[], map[], map[], map[];
    }

    method RegisterNode(provider: string, id: string, ib: Option<bool>, now: real) returns (r: Reply)
      requires Valid()
      modifies this
      ensures Valid() && (State(), r) == Register(old(State()), provider, id, ib, now)
    {
      hide Inv;
      CommitKeepsInv(State(), DoRegister(provider, id, ib, now), caps);
      if id in nodes {
        var n := nodes[id];
        if n.provider != provider {
          return Refused("node_not_owned");
        }
        if ib.Some? {
          n := n.(hasIb := ib.value);
        }
        n := n.(heartbeat := Some(now));
        if n.status.Offline? || n.status.Draining? || n.status.Registered? {
          n := n.(status := Healthy);
        }
        nodes := nodes[id := n];
      } else {
        nodes := nodes[id := Node(provider, Healthy, Some(now), ib.GetOr(false))];
      }
      return Done;
    }

    /** Nodes free of rental and silent since `cutoff` go offline; returns how many. */
    method MarkStaleNodesOffline(cutoff: real) returns (count: nat)
      requires Valid()
      modifies this`nodes
      ensures Valid() && State() == MarkStaleOffline(old(State()), cutoff)
      ensures count == |set n | n in old(nodes) && Stale(old(nodes)[n], cutoff)|
    {
      hide Inv;
      CommitKeepsInv(State(), DoStale(cutoff), caps);
      var stale := set n | n in nodes && Stale(nodes[n], cutoff);
      var rows, todo := nodes, stale;
      while todo != {}
        invariant todo <= stale && rows.Keys == nodes.Keys
        invariant forall n :: n in nodes ==>
                    rows[n] == if n in stale && n !in todo then nodes[n].(status := Offline) else nodes[n]
        decreases |todo|
      {
        var n :| n in todo;
        rows := rows[n := rows[n].(status := Offline)];
        todo := todo - {n};
      }
      assert rows == MarkStaleOffline(State(), cutoff).nodes;
      nodes := rows;
      return |stale|;
    }

    method BeatNodes(chosen: set<string>, now: real)
      requires chosen <= nodes.Keys
      modifies this`nodes
      ensures nodes == map n | n in old(nodes) :: if n in chosen then Beat(old(nodes)[n], now) else old(nodes)[n]
    {
      var rows, todo := nodes, chosen;
      while todo != {}
        invariant todo <= chosen && rows.Keys == nodes.Keys
        invariant forall n :: n in nodes ==>
                    rows[n] == if n in chosen && n !in todo then Beat(nodes[n], now) else nodes[n]
        decreases |todo|
      {
        var n :| n in todo;
        var row := rows[n].(heartbeat := Some(now));
        if row.status != Rented && row.status != Banned {
          row := row.(status := Healthy);
        }
        rows := rows[n := row];
        todo := todo - {n};
      }
      nodes := rows;
    }

    method NodeHeartbeat(provider: string, target: Option<string>, now: real) returns (r: Reply)
      requires Valid()
      modifies this`nodes
      ensures Valid() && (State(), r) == Heartbeat(old(State()), provider, target, now)
    {
      hide Inv, Beat;
      CommitKeepsInv(State(), DoHeartbeat(provider, target, now), caps);
      var chosen: set<string>;
      if target.Some? {
        if target.value !in nodes {
          return Refused("node_not_found");
        }
        if nodes[target.value].provider != provider {
          return Refused("node_not_owned");
        }
        chosen := {target.value};
      } else {
        chosen := set n | n in nodes && nodes[n].provider == provider;
        if chosen == {} {
          assert forall n :: n in nodes && nodes[n].provider == provider ==> n in chosen;
          return Refused("no_nodes");
        }
        assert exists n :: n in chosen;
      }
      BeatNodes(chosen, now);
      assert nodes == Heartbeat(old(State()), provider, target, now).0.nodes;
      return Done;
    }

    /** Order kept, duplicates dropped. */
    static method DropDuplicates(ids: seq<string>) returns (ordered: seq<string>)
      ensures ordered == Dedup(ids)
    {
      ordered := [];
      for i := 0 to |ids|
        invariant ordered == Dedup(ids[..i])
      {
        assert ids[..i + 1][..i] == ids[..i];
        if ids[i] !in ordered {
          ordered := ordered + [ids[i]];
        }
      }
      assert ids[..|ids|] == ids;
    }

    /** The requested nodes without duplicates, or the first complaint. */
    method LoadOwnedNodes(provider: string, ids: seq<string>) returns (ordered: seq<string>, fault: Option<string>)
      ensures fault == LoadFault(State(), provider, ids)
      ensures fault.None? ==> ordered == Dedup(ids)
    {
      ordered := [];
      if ids == [] {
        return ordered, Some("missing_node_ids");
      }
      if "" in ids {
        return ordered, Some("invalid_node_ids");
      }
      ordered := DropDuplicates(ids);
      for i := 0 to |ordered|
        invariant forall k :: 0 <= k < i ==> NodeFault(State(), provider, ordered[k]).None?
      {
        var nid := ordered[i];
        fault := None;
        if nid !in nodes {
          fault := Some("node_not_found");
        } else if nodes[nid].provider != provider {
          fault := Some("node_not_owned");
        } else if nodes[nid].status != Healthy && nodes[nid].status != NodeStatus.Registered
          && nodes[nid].status != Rented {
          fault := Some("node_not_offerable");
        }
        if fault.Some? {
          FirstFaultAt(State(), provider, ordered, i);
          return;
        }
      }
      return ordered, None;
    }

    /** Whether every listed node carries the InfiniBand flag. */
    method AllHaveIb(ids: seq<string>) returns (all: bool)
      requires forall n :: n in ids ==> n in nodes
      ensures all <==> forall n :: n in ids ==> nodes[n].hasIb
    {
      for i := 0 to |ids|
        invariant forall k :: 0 <= k < i ==> nodes[ids[k]].hasIb
      {
        if !nodes[ids[i]].hasIb {
          return false;
        }
      }
      return true;
    }

    method CreateListedOffer(id: string, r: OfferRequest) returns (reply: Reply)
      requires Valid()
      modifies this`offers
      ensures Valid() && (State(), reply) == CreateOffer(old(State()), id, r, caps)
    {
      hide Inv, LoadFault, Dedup, BandFault, PriceFault, Commit;
      CreateKeepsInv(State(), id, r, caps);
      if r.lifetime <= 0.0 {
        return Refused("invalid_max_lifetime_hours");
      }
      if caps.lifetime > 0.0 && r.lifetime > caps.lifetime {
        return Refused("lifetime_over_cap");
      }
      var ids, fault := LoadOwnedNodes(r.provider, r.ids);
      if fault.Some? {
        return Refused(fault.value);
      }
      LoadedNodesExist(State(), r.provider, r.ids);
      if r.cluster == (|ids| == 1) {
        return Refused("invalid_mode_nodes");
      }
      if r.requireIb {
        var ib := AllHaveIb(ids);
        if !ib {
          return Refused("ib_required");
        }
      }
      if r.price.None? && r.catalog.None? {
        return Refused("missing_price_per_hour");
      }
      var price := if r.price.Some? then r.price.value else r.catalog.value.price;
      var priced := PriceFault(price, caps.price);
      if priced.Some? {
        return Refused(priced.value);
      }
      if r.catalog.Some? {
        var band := BandFault(price, r.catalog.value, r.band);
        if band.Some? {
          return Refused(band.value);
        }
      }
      if id in offers {
        return Refused("integrity_error");
      }
      offers := offers[id := Offer(r.provider, ids, price, r.lifetime, r.requireIb, Listed)];
      return Done;
    }

    method WithdrawOffer(provider: string, id: string) returns (reply: Reply)
      requires Valid()
      modifies this`offers
      ensures Valid() && (State(), reply) == Withdraw(old(State()), provider, id)
    {
      hide Inv;
      CommitKeepsInv(State(), DoWithdraw(provider, id), caps);
      if id !in offers {
        return Refused("offer_not_found");
      }
      if offers[id].provider != provider {
        return Refused("offer_not_owned");
      }
      if exists l :: l in leases && leases[l].offer == id && Live(leases[l].status) {
        return Refused("offer_active_lease");
      }
      if offers[id].status != Withdrawn {
        offers := offers[id := offers[id].(status := Withdrawn)];
      } else {
        assert offers[id := offers[id].(status := Withdrawn)] == offers;
      }
      return Done;
    }

    /** Set every listed node to `rented`. */
    method OccupyNodes(ids: seq<string>)
      requires forall n :: n in ids ==> n in nodes
      modifies this`nodes
      ensures nodes == Occupy(old(nodes), Elems(ids))
    {
      hide Occupy, Elems;
      var rows := nodes;
      ghost var before := nodes;
      OccupyNone(before, ids);
      for i := 0 to |ids|
        invariant rows == Occupy(before, Elems(ids[..i]))
      {
        OccupyOne(before, ids, i);
        rows := rows[ids[i] := rows[ids[i]].(status := Rented)];
      }
      assert ids[..|ids|] == ids;
      nodes := rows;
    }

    /** The offer's nodes must exist and be live; the first missing one is noticed before any status. */
    method OfferNodesFault(ids: seq<string>) returns (fault: Option<string>)
      ensures fault.None? <==> forall n :: n in ids ==> n in nodes && Offerable(nodes[n].status)
      ensures fault.Some? ==>
                fault.value == if exists n :: n in ids && n !in nodes
                  then "offer_node_missing" else "node_not_offerable"
    {
      for i := 0 to |ids|
        invariant forall k :: 0 <= k < i ==> ids[k] in nodes
      {
        if ids[i] !in nodes {
          return Some("offer_node_missing");
        }
      }
      for i := 0 to |ids|
        invariant forall k :: 0 <= k < i ==> Offerable(nodes[ids[k]].status)
      {
        var s := nodes[ids[i]].status;
        if s != Healthy && s != NodeStatus.Registered && s != Rented {
          return Some("node_not_offerable");
        }
      }
      return None;
    }

    /** No live lease's pod shares a node with the list. */
    method NodesExclusiveFree(ids: seq<string>) returns (free: bool)
      ensures free == ExclusiveFree(State(), ids)
    {
      hide Elems;
      var todo := leases.Keys;
      while todo != {}
        invariant todo <= leases.Keys
        invariant forall l :: l in leases && l !in todo && Live(leases[l].status) && l in pods ==>
                    Elems(pods[l].nodes) !! Elems(ids)
        decreases |todo|
      {
        var l :| l in todo;
        if Live(leases[l].status) && l in pods && !(Elems(pods[l].nodes) !! Elems(ids)) {
          return false;
        }
        todo := todo - {l};
      }
      return true;
    }

    /** Every check of a rent, in the order of the session's queries. */
    method CheckRent(r: RentRequest) returns (fault: Option<string>)
      ensures fault == RentFault(State(), r)
    {
      hide ExclusiveFree, Offerable, Fabric.RequireIbFault;
      if r.renter == "" {
        return Some("missing_renter");
      }
      if r.offer !in offers {
        return Some("offer_not_found");
      }
      var offer := offers[r.offer];
      if offer.status != Listed {
        return Some("offer_not_listed");
      }
      if r.maxPrice.Some? {
        if r.maxPrice.value <= 0.0 {
          return Some("invalid_max_price");
        }
        if offer.price > r.maxPrice.value {
          return Some("price_over_renter_max");
        }
      }
      if r.lifetime.Some? {
        if r.lifetime.value <= 0.0 {
          return Some("invalid_lifetime_hours");
        }
        if r.lifetime.value > offer.maxLifetime {
          return Some("lifetime_over_offer_max");
        }
      }
      if offer.nodes == [] {
        return Some("offer_has_no_nodes");
      }
      fault := OfferNodesFault(offer.nodes);
      if fault.Some? {
        return;
      }
      if offer.requireIb {
        var ib := AllHaveIb(offer.nodes);
        if !ib {
          return Some("require_ib_not_satisfied");
        }
        fault := Fabric.EvaluateRequireIb(true, r.reports, offer.nodes);
        if fault.Some? {
          return;
        }
      }
      var free := NodesExclusiveFree(offer.nodes);
      return if free then None else Some("capacity_unavailable");
    }

    method RentOffer(id: string, r: RentRequest, now: real) returns (reply: Reply)
      requires Valid()
      modifies this
      ensures Valid() && (State(), reply) == Rent(old(State()), id, r, now)
    {
      hide Inv, RentFault, Occupy, Elems;
      CommitKeepsInv(State(), DoRent(id, r, now), caps);
      var fault := CheckRent(r);
      if fault.Some? {
        return Refused(fault.value);
      }
      if id in leases || id in pods || r.offer !in offers {
        return Refused("integrity_error");
      }
      CheckedNodesExist(State(), r);
      var offer := offers[r.offer];
      var lifetime := if r.lifetime.Some? then r.lifetime.value else offer.maxLifetime;
      var lease := Lease(r.offer, r.renter, offer.provider, if r.simReady then Active else Requested,
                         now + lifetime * 3600.0, offer.price, lifetime);
      var pod := Pod(offer.nodes, if r.simReady then Running else Provisioning);
      offers := offers[r.offer := offer.(status := Leased)];
      OccupyNodes(offer.nodes);
      leases := leases[id := lease];
      pods := pods[id := pod];
      return Done;
    }

    /** Stop the lease's pod and give its nodes back. */
    method FreeCapacity(id: string)
      requires id in pods && forall n :: n in pods[id].nodes ==> n in nodes
      modifies this`nodes, this`pods
      ensures pods == old(pods)[id := old(pods)[id].(status := Stopped)]
      ensures nodes == Release(old(nodes), Elems(old(pods)[id].nodes))
    {
      hide Release, Elems;
      var ids, rows := pods[id].nodes, nodes;
      var stopped := pods[id := pods[id].(status := Stopped)];
      ghost var before := nodes;
      OccupyNone(before, ids);
      for i := 0 to |ids|
        invariant rows == Release(before, Elems(ids[..i]))
      {
        OccupyOne(before, ids, i);
        if rows[ids[i]].status == Rented {
          rows := rows[ids[i] := rows[ids[i]].(status := Healthy)];
        }
      }
      assert ids[..|ids|] == ids;
      nodes, pods := rows, stopped;
    }

    /** One lease to a terminal status, with its capacity. */
    method CloseLease(id: string, s: LeaseStatus)
      requires Valid() && id in leases && Live(leases[id].status) && !Live(s)
      modifies this`nodes, this`pods, this`leases
      ensures Valid() && State() == Close(old(State()), {id}, s)
    {
      hide Inv;
      CloseKeepsInv(State(), {id}, s, caps);
      PodNodesExist(State(), caps, id);
      assert Held(State(), {id}) == Elems(pods[id].nodes);
      leases := leases[id := leases[id].(status := s)];
      FreeCapacity(id);
      assert leases == Close(old(State()), {id}, s).leases && pods == Close(old(State()), {id}, s).pods;
    }

    method TerminateLease(hotkey: string, id: string) returns (reply: Reply)
      requires Valid()
      modifies this`nodes, this`pods, this`leases
      ensures Valid() && (State(), reply) == Terminate(old(State()), hotkey, id)
    {
      hide Inv, Close;
      if id !in leases {
        return Refused("lease_not_found");
      }
      if leases[id].renter != hotkey && !(leases[id].provider in owners && owners[leases[id].provider] == hotkey) {
        return Refused("lease_not_owned");
      }
      if Live(leases[id].status) {
        CloseLease(id, Terminated);
      }
      return Done;
    }

    /** Expire every due lease, one after the other; returns how many. */
    method ExpireDueLeases(now: real) returns (count: nat)
      requires Valid()
      modifies this`nodes, this`pods, this`leases
      ensures Valid() && State() == ExpireDue(old(State()), now)
      ensures count == |Due(old(State()), now)|
    {
      hide Inv, Close, Held;
      var due := set l | l in leases && Live(leases[l].status) && leases[l].endsAt <= now;
      ghost var start := State();
      assert due == Due(start, now) && due <= LiveIds(start);
      CloseNothing(start, Expired);
      hide LiveIds, Due;
      var todo := due;
      ghost var closed: set<string> := {};
      while todo != {}
        invariant Valid() && closed + todo == due && closed !! todo
        invariant State() == Close(start, closed, Expired)
        decreases |todo|
      {
        var l :| l in todo;
        assert l in due && closed <= due;
        CloseOneMore(start, closed, l, Expired, caps);
        CloseLease(l, Expired);
        todo := todo - {l};
        closed := closed + {l};
      }
      return |due|;
    }

    /** Idle-only reclaim: tenants' nodes are first forced to `rented`, then free stale nodes go offline. */
    method RunIdleReclaimSweep(cutoff: real) returns (count: nat)
      requires Valid()
      modifies this`nodes
      ensures Valid() && State() == MarkStaleOffline(old(State()), cutoff)
      ensures count == |set n | n in old(nodes) && Stale(old(nodes)[n], cutoff)|
      ensures forall n :: n in Covered(old(State())) ==> n in nodes && nodes[n] == old(nodes)[n]
    {
      hide Inv, Covered, Stale, MarkStaleOffline, Occupy;
      ghost var start := State();
      var todo := leases.Keys;
      while todo != {}
        invariant nodes == old(nodes) && todo <= leases.Keys
        decreases |todo|
      {
        var l :| l in todo;
        if Live(leases[l].status) && l in pods {
          TenantNodesAlreadyRented(State(), caps, l);
          OccupyNodes(pods[l].nodes);
        }
        todo := todo - {l};
      }
      count := MarkStaleNodesOffline(cutoff);
      CoveredStay(start, cutoff, caps);
    }
  }

  lemma {:induction false} FirstFaultAt(m: Market, provider: string, ids: seq<string>, i: nat)
    requires i < |ids| && NodeFault(m, provider, ids[i]).Some?
    requires forall k :: 0 <= k < i ==> NodeFault(m, provider, ids[k]).None?
    ensures FirstFault(m, provider, ids) == NodeFault(m, provider, ids[i])
    decreases i
  {
    if i > 0 {
      FirstFaultAt(m, provider, ids[1..], i - 1);
    }
  }

  lemma CheckedNodesExist(m: Market, r: RentRequest)
    requires RentFault(m, r).None? && r.offer in m.offers
    ensures forall n :: n in m.offers[r.offer].nodes ==> n in m.nodes
  {
  }

  lemma LoadedNodesExist(m: Market, provider: string, ids: seq<string>)
    requires LoadFault(m, provider, ids).None?
    ensures forall n :: n in Dedup(ids) ==> n in m.nodes
  {
  }

  lemma PodNodesExist(m: Market, caps: Caps, l: string)
    requires Inv(m, caps) && l in m.leases
    ensures l in m.pods && forall n :: n in m.pods[l].nodes ==> n in m.nodes
  {
  }

  lemma TenantNodesAlreadyRented(m: Market, caps: Caps, l: string)
    requires Inv(m, caps) && l in LiveIds(m) && l in m.pods
    ensures forall n :: n in m.pods[l].nodes ==> n in m.nodes
    ensures Live(m.leases[l].status) && Occupy(m.nodes, Elems(m.pods[l].nodes)) == m.nodes
  {
  }

  /** A stale sweep leaves the nodes under a tenant alone. */
  lemma CoveredStay(m: Market, cutoff: real, caps: Caps)
    requires Inv(m, caps)
    ensures var m' := MarkStaleOffline(m, cutoff);
            forall n :: n in Covered(m) ==> n in m.nodes && n in m'.nodes && m'.nodes[n] == m.nodes[n]
  {
    CoveredNodesExist(m, caps);
  }

  lemma OccupyNone(nodes: map<string, Node>, ids: seq<string>)
    ensures Occupy(nodes, Elems(ids[..0])) == nodes && Release(nodes, Elems(ids[..0])) == nodes
  {
  }

  /** One more listed node is rented, or released if it was rented. */
  lemma OccupyOne(nodes: map<string, Node>, ids: seq<string>, i: nat)
    requires i < |ids| && ids[i] in nodes
    ensures var rows := Occupy(nodes, Elems(ids[..i]));
            Occupy(nodes, Elems(ids[..i + 1])) == rows[ids[i] := rows[ids[i]].(status := Rented)]
    ensures var rows := Release(nodes, Elems(ids[..i]));
            Release(nodes, Elems(ids[..i + 1]))
            == if rows[ids[i]].status.Rented? then rows[ids[i] := rows[ids[i]].(status := Healthy)] else rows
  {
    assert ids[..i + 1] == ids[..i] + [ids[i]];
    assert Elems(ids[..i + 1]) == Elems(ids[..i]) + {ids[i]};
  }

  lemma CloseNothing(m: Market, s: LeaseStatus)
    ensures Close(m, {}, s) == m
  {
  }

  lemma CloseKeepsPods(m: Market, ids: set<string>, s: LeaseStatus)
    ensures var m' := Close(m, ids, s);
            m'.pods.Keys == m.pods.Keys && forall k :: k in m.pods ==> m'.pods[k].nodes == m.pods[k].nodes
  {
  }

  lemma HeldAdds(m: Market, m': Market, ids: set<string>, l: string)
    requires m'.pods.Keys == m.pods.Keys && forall k :: k in m.pods ==> m'.pods[k].nodes == m.pods[k].nodes
    ensures Held(m', {l}) == Held(m, {l})
    ensures Held(m, ids + {l}) == Held(m, ids) + Held(m, {l})
  {
  }

  lemma ReleaseTwice(nodes: map<string, Node>, a: set<string>, b: set<string>)
    ensures Release(Release(nodes, a), b) == Release(nodes, a + b)
  {
  }

  /** Closing leases one at a time is closing them together. */
  lemma CloseOneMore(m: Market, ids: set<string>, l: string, s: LeaseStatus, caps: Caps)
    requires Inv(m, caps) && ids <= LiveIds(m) && l in LiveIds(m) && l !in ids && !Live(s)
    ensures var m' := Close(m, ids, s);
            && l in m'.leases && Live(m'.leases[l].status)
            && Close(m', {l}, s) == Close(m, ids + {l}, s)
  {
    hide Inv, Held, Release;
    var m' := Close(m, ids, s);
    CloseKeepsPods(m, ids, s);
    HeldAdds(m, m', ids, l);
    ReleaseTwice(m.nodes, Held(m, ids), Held(m, {l}));
    assert Close(m', {l}, s).pods == Close(m, ids + {l}, s).pods;
    assert Close(m', {l}, s).leases == Close(m, ids + {l}, s).leases;
  }
}
