/** Nodes, offers, leases and pods, and what each marketplace session commits. */
module MarketState {
  import opened Common
  import Fabric = FabricGates

  datatype NodeStatus = Registered | Healthy | Offline | Draining | Rented | Banned

  datatype Node = Node(provider: string, status: NodeStatus, heartbeat: Option<real>, hasIb: bool)

  datatype OfferStatus = Listed | Withdrawn | Leased | OfferExpired

  datatype Offer = Offer(provider: string, nodes: seq<string>, price: real, maxLifetime: real,
                         requireIb: bool, status: OfferStatus)

  datatype LeaseStatus = Requested | Active | Expired | Terminated | LeaseFailed

  datatype Lease = Lease(offer: string, renter: string, provider: string, status: LeaseStatus,
                         endsAt: real, price: real, lifetime: real)

  datatype PodStatus = Provisioning | Running | Stopped

  datatype Pod = Pod(nodes: seq<string>, status: PodStatus)

  /** Pods are keyed by their lease (the column is unique); `owners` maps a provider to its hotkey. */
  datatype Market = Market(nodes: map<string, Node>, offers: map<string, Offer>, leases: map<string, Lease>,
                           pods: map<string, Pod>, owners: map<string, string>)

  /** System caps; 0 switches a cap off. */
  datatype Caps = Caps(price: real, lifetime: real)

  datatype Reply = Done | Refused(code: string)

  predicate Live(s: LeaseStatus) {
    s.Requested? || s.Active?
  }

  predicate Owns(m: Market, hotkey: string, provider: string) {
    provider in m.owners && m.owners[provider] == hotkey
  }

  // ----- nodes

  /** `id` is the node found by id or ssh endpoint, or a fresh one. */
  function Register(m: Market, provider: string, id: string, ib: Option<bool>, now: real): (Market, Reply) {
    if id in m.nodes && m.nodes[id].provider != provider then (m, Refused("node_not_owned"))
    else if id in m.nodes then
      var n := m.nodes[id];
      var s := if n.status.Offline? || n.status.Draining? || n.status.Registered? then Healthy else n.status;
      (m.(nodes := m.nodes[id := n.(status := s, heartbeat := Some(now), hasIb := ib.GetOr(n.hasIb))]), Done)
    else (m.(nodes := m.nodes[id := Node(provider, Healthy, Some(now), ib.GetOr(false))]), Done)
  }

  function Beat(n: Node, now: real): Node {
    n.(heartbeat := Some(now), status := if n.status.Rented? || n.status.Banned? then n.status else Healthy)
  }

  /** One owned node, or all nodes of the provider. */
  function Heartbeat(m: Market, provider: string, target: Option<string>, now: real): (Market, Reply) {
    if target.Some? && target.value !in m.nodes then (m, Refused("node_not_found"))
    else if target.Some? && m.nodes[target.value].provider != provider then (m, Refused("node_not_owned"))
    else if target.None? && forall n :: n in m.nodes ==> m.nodes[n].provider != provider then (m, Refused("no_nodes"))
    else
      (m.(nodes := map n | n in m.nodes ::
                     if (if target.Some? then n == target.value else m.nodes[n].provider == provider)
                     then Beat(m.nodes[n], now) else m.nodes[n]),
       Done)
  }

  predicate Stale(n: Node, cutoff: real) {
    && (n.status.Healthy? || n.status.Registered? || n.status.Draining?)
    && n.heartbeat.Some? && n.heartbeat.value < cutoff
  }

  function MarkStaleOffline(m: Market, cutoff: real): Market {
    m.(nodes := map n | n in m.nodes ::
                  if Stale(m.nodes[n], cutoff) then m.nodes[n].(status := Offline) else m.nodes[n])
  }

  // ----- offers

  datatype PriceBand = BandOff | BandSoft | BandHard

  /** What the catalog resolved for the offer's GPU: its price and the multipliers in force. */
  datatype Catalog = Catalog(price: real, low: real, high: real)

  datatype OfferRequest = OfferRequest(provider: string, ids: seq<string>, price: Option<real>, lifetime: real,
                                       cluster: bool, requireIb: bool, catalog: Option<Catalog>, band: PriceBand)

  function Dedup(ids: seq<string>): (r: seq<string>)
    ensures forall n :: n in r <==> n in ids
    ensures forall i, k :: 0 <= i < k < |r| ==> r[i] != r[k]
  {
    if ids == [] then []
    else
      var r := Dedup(ids[..|ids| - 1]);
      var last := ids[|ids| - 1];
      assert ids == ids[..|ids| - 1] + [last];
      if last in r then r else r + [last]
  }

  predicate Offerable(s: NodeStatus) {
    s.Healthy? || s.Registered? || s.Rented?
  }

  function NodeFault(m: Market, provider: string, id: string): Option<string> {
    if id !in m.nodes then Some("node_not_found")
    else if m.nodes[id].provider != provider then Some("node_not_owned")
    else if !Offerable(m.nodes[id].status) then Some("node_not_offerable")
    else None
  }

  /** The first complaint in list order. */
  function FirstFault(m: Market, provider: string, ids: seq<string>): (fault: Option<string>)
    ensures fault.None? <==> forall n :: n in ids ==> NodeFault(m, provider, n).None?
  {
    if ids == [] then None
    else if NodeFault(m, provider, ids[0]).Some? then NodeFault(m, provider, ids[0])
    else
      assert ids == [ids[0]] + ids[1..];
      FirstFault(m, provider, ids[1..])
  }

  /** The complaint about a requested node list, which is then used without duplicates. */
  function LoadFault(m: Market, provider: string, ids: seq<string>): Option<string> {
    if ids == [] then Some("missing_node_ids")
    else if "" in ids then Some("invalid_node_ids")
    else FirstFault(m, provider, Dedup(ids))
  }

  predicate UnderCap(x: real, cap: real) {
    cap > 0.0 ==> x <= cap
  }

  function PriceFault(price: real, cap: real): (fault: Option<string>)
    ensures fault.None? <==> price > 0.0 && UnderCap(price, cap)
  {
    if price <= 0.0 then Some("invalid_price_per_hour")
    else if cap > 0.0 && price > cap then Some("price_over_cap") else None
  }

  /** A catalog entry without a price bounds nothing. */
  predicate InBand(price: real, c: Catalog) {
    c.price > 0.0 ==> c.price * c.low <= price <= c.price * c.high
  }

  function BandFault(price: real, c: Catalog, band: PriceBand): (fault: Option<string>)
    ensures fault.None? <==> (band.BandHard? ==> InBand(price, c))
  {
    if !band.BandHard? || c.price <= 0.0 then None
    else if price > c.price * c.high then Some("price_over_catalog_band")
    else if price < c.price * c.low then Some("price_under_catalog_band")
    else None
  }

  function OfferFault(m: Market, r: OfferRequest, caps: Caps): Option<string> {
    var ids := Dedup(r.ids);
    if r.lifetime <= 0.0 then Some("invalid_max_lifetime_hours")
    else if caps.lifetime > 0.0 && r.lifetime > caps.lifetime then Some("lifetime_over_cap")
    else if LoadFault(m, r.provider, r.ids).Some? then LoadFault(m, r.provider, r.ids)
    else if r.cluster == (|ids| == 1) then Some("invalid_mode_nodes")
    else if r.requireIb && (exists n :: n in ids && n in m.nodes && !m.nodes[n].hasIb) then Some("ib_required")
    else if r.price.None? && r.catalog.None? then Some("missing_price_per_hour")
    else
      var price := if r.price.Some? then r.price.value else r.catalog.value.price;
      if PriceFault(price, caps.price).Some? then PriceFault(price, caps.price)
      else if r.catalog.Some? then BandFault(price, r.catalog.value, r.band)
      else None
  }

  /** The row of an admissible request; a price left out is the catalog's. */
  function OfferRow(r: OfferRequest): Offer {
    var price := if r.price.Some? then r.price.value else r.catalog.GetOr(Catalog(0.0, 0.0, 0.0)).price;
    Offer(r.provider, Dedup(r.ids), price, r.lifetime, r.requireIb, Listed)
  }

  /** `id` is the generated offer id; a clash with an existing row fails the insert. */
  function CreateOffer(m: Market, id: string, r: OfferRequest, caps: Caps): (Market, Reply) {
    if OfferFault(m, r, caps).Some? then (m, Refused(OfferFault(m, r, caps).value))
    else if id in m.offers then (m, Refused("integrity_error"))
    else (m.(offers := m.offers[id := OfferRow(r)]), Done)
  }

  predicate HasLiveLease(m: Market, offer: string) {
    exists l :: l in m.leases && m.leases[l].offer == offer && Live(m.leases[l].status)
  }

  function Withdraw(m: Market, provider: string, id: string): (Market, Reply) {
    if id !in m.offers then (m, Refused("offer_not_found"))
    else if m.offers[id].provider != provider then (m, Refused("offer_not_owned"))
    else if HasLiveLease(m, id) then (m, Refused("offer_active_lease"))
    else (m.(offers := m.offers[id := m.offers[id].(status := Withdrawn)]), Done)
  }

  // ----- leases

  /** No live lease's pod touches these nodes. */
  predicate ExclusiveFree(m: Market, ids: seq<string>) {
    forall l :: l in m.leases && Live(m.leases[l].status) && l in m.pods ==> Elems(m.pods[l].nodes) !! Elems(ids)
  }

  /** `reports` are the latest fabric reports of the offer's nodes. */
  datatype RentRequest = RentRequest(renter: string, offer: string, lifetime: Option<real>, maxPrice: Option<real>,
                                     reports: seq<Fabric.Report>, simReady: bool)

  function RentFault(m: Market, r: RentRequest): Option<string> {
    if r.renter == "" then Some("missing_renter")
    else if r.offer !in m.offers then Some("offer_not_found")
    else
      var o := m.offers[r.offer];
      if !o.status.Listed? then Some("offer_not_listed")
      else if r.maxPrice.Some? && r.maxPrice.value <= 0.0 then Some("invalid_max_price")
      else if r.maxPrice.Some? && o.price > r.maxPrice.value then Some("price_over_renter_max")
      else if r.lifetime.Some? && r.lifetime.value <= 0.0 then Some("invalid_lifetime_hours")
      else if r.lifetime.Some? && r.lifetime.value > o.maxLifetime then Some("lifetime_over_offer_max")
      else if o.nodes == [] then Some("offer_has_no_nodes")
      else if exists n :: n in o.nodes && n !in m.nodes then Some("offer_node_missing")
      else if exists n :: n in o.nodes && n in m.nodes && !Offerable(m.nodes[n].status) then Some("node_not_offerable")
      else if o.requireIb && exists n :: n in o.nodes && n in m.nodes && !m.nodes[n].hasIb then
        Some("require_ib_not_satisfied")
      else if o.requireIb && Fabric.RequireIbFault(r.reports, o.nodes).Some?
        then Fabric.RequireIbFault(r.reports, o.nodes)
      else if !ExclusiveFree(m, o.nodes) then Some("capacity_unavailable")
      else None
  }

  function Occupy(nodes: map<string, Node>, ids: set<string>): (r: map<string, Node>)
    ensures r.Keys == nodes.Keys
  {
    map n | n in nodes :: if n in ids then nodes[n].(status := Rented) else nodes[n]
  }

  function Release(nodes: map<string, Node>, ids: set<string>): (r: map<string, Node>)
    ensures r.Keys == nodes.Keys
  {
    map n | n in nodes :: if n in ids && nodes[n].status.Rented? then nodes[n].(status := Healthy) else nodes[n]
  }

  /** The rows a granted rent commits. */
  function RentRows(m: Market, id: string, r: RentRequest, now: real): Market
    requires r.offer in m.offers
  {
    var o := m.offers[r.offer];
    var hours := r.lifetime.GetOr(o.maxLifetime);
    Market(Occupy(m.nodes, Elems(o.nodes)),
           m.offers[r.offer := o.(status := Leased)],
           m.leases[id := Lease(r.offer, r.renter, o.provider, if r.simReady then Active else Requested,
                                now + hours * 3600.0, o.price, hours)],
           m.pods[id := Pod(o.nodes, if r.simReady then Running else Provisioning)],
           m.owners)
  }

  function Rent(m: Market, id: string, r: RentRequest, now: real): (Market, Reply) {
    if RentFault(m, r).Some? then (m, Refused(RentFault(m, r).value))
    else if id in m.leases || id in m.pods || r.offer !in m.offers then (m, Refused("integrity_error"))
    else (RentRows(m, id, r, now), Done)
  }

  /** The nodes held by the pods of `ids`. */
  function Held(m: Market, ids: set<string>): set<string> {
    set l, n | l in ids && l in m.pods && n in m.pods[l].nodes :: n
  }

  /** Close every lease in `ids`: terminal status, stopped pod, nodes freed. */
  function Close(m: Market, ids: set<string>, s: LeaseStatus): Market {
    m.(leases := map l | l in m.leases :: if l in ids then m.leases[l].(status := s) else m.leases[l],
       pods := map l | l in m.pods :: if l in ids then m.pods[l].(status := Stopped) else m.pods[l],
       nodes := Release(m.nodes, Held(m, ids)))
  }

  function Terminate(m: Market, hotkey: string, id: string): (Market, Reply) {
    if id !in m.leases then (m, Refused("lease_not_found"))
    else if m.leases[id].renter != hotkey && !Owns(m, hotkey, m.leases[id].provider)
      then (m, Refused("lease_not_owned"))
    else if !Live(m.leases[id].status) then (m, Done)
    else (Close(m, {id}, Terminated), Done)
  }

  function Due(m: Market, now: real): set<string> {
    set l | l in m.leases && Live(m.leases[l].status) && m.leases[l].endsAt <= now
  }

  function ExpireDue(m: Market, now: real): Market {
    Close(m, Due(m, now), Expired)
  }

  function LiveIds(m: Market): set<string> {
    set l | l in m.leases && Live(m.leases[l].status)
  }

  /** Nodes under a live tenant. */
  function Covered(m: Market): set<string> {
    Held(m, LiveIds(m))
  }

  /** The sweep first forces tenants' nodes back to `rented`, then marks stale nodes offline. */
  function IdleReclaim(m: Market, cutoff: real): Market {
    MarkStaleOffline(m.(nodes := Occupy(m.nodes, Covered(m))), cutoff)
  }
}
