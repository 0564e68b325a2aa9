/**
 Marketplace sessions side by side, one SQL statement at a time. A reading statement sees the committed rows; what a
 session writes it computes from the rows as it read them, and its commit writes the changed columns without
 comparing. Inserts are guarded by primary keys alone.
 */
module MarketRaces {
  import opened Columns
  import opened Common
  import opened Sessions
  import opened MarketState
  import opened MarketRuns
  import Fabric = FabricGates

  /** The columns of a node that a session is about to write; `None` leaves a column alone. */
  datatype Mark = Mark(status: Option<NodeStatus>, heartbeat: Option<Option<real>>, hasIb: Option<bool>)

  type Marks = map<string, Mark>

  /** What a session has read, and is about to write once it has read all it needs. */
  datatype Pc =
    | Idle
    | Marking(marks: Marks)                                    // heartbeat, registration, sweeps
    | Adding(id: string, node: Node)                           // first registration
    | Protecting(tenants: set<string>)                         // reclaim has read the live leases and their pods
    | Drafting(draft: Offer)                                   // create has read its nodes
    | Viewing(offer: string, seen: OfferStatus)                // withdraw has read the offer
    | Withdrawing(offer: string)                               // and found no live lease on it
    | Asking(request: RentRequest)                             // rent has read the offer
    | Choosing(request: RentRequest, marks: Marks)             // and its nodes
    | Renting(request: RentRequest, marks: Marks)              // and the live leases
    | Closing(ids: set<string>, to: LeaseStatus, unread: set<string>, marks: Marks)

  datatype State = State(market: Market, sessions: seq<Pc>)

  /** Only the first `renters` sessions serve rent requests; any session may do everything else. */
  datatype Site = Site(caps: Caps, renters: nat)

  datatype Query =
    | StaleNodes(cutoff: real)
    | Tenants
    | TenantNodes
    | OwnedNodes(provider: string, target: Option<string>, now: real)
    | NodeRow(provider: string, id: string, ib: Option<bool>, now: real)
    | OfferedNodes(offer: OfferRequest)
    | OfferToWithdraw(provider: string, id: string)
    | LeasesOfOffer
    | OfferToRent(rent: RentRequest)
    | NodesToRent
    | LiveLeases
    | LeaseRow(hotkey: string, id: string)
    | DueLeases(now: real)
    | PodNodes(lease: string)

  datatype Step =
    | Look(session: nat, query: Query)
    | Write(session: nat, id: string, now: real) // `id` is the generated id of an inserted offer or lease
    | Abandon(session: nat)

  // ----- columns

  function Diff(seen: Node, next: Node): Mark {
    Mark(Changed(seen.status, next.status), Changed(seen.heartbeat, next.heartbeat), Changed(seen.hasIb, next.hasIb))
  }

  function Marked(n: Node, k: Mark): Node {
    Node(n.provider, k.status.GetOr(n.status), k.heartbeat.GetOr(n.heartbeat), k.hasIb.GetOr(n.hasIb))
  }

  /** The columns that differ between the rows as read and the rows a session wants. */
  function Dirty(seen: map<string, Node>, next: map<string, Node>): Marks {
    map n | n in seen && n in next && next[n] != seen[n] :: Diff(seen[n], next[n])
  }

  function Apply(nodes: map<string, Node>, marks: Marks): (r: map<string, Node>)
    ensures r.Keys == nodes.Keys
  {
    map n | n in nodes :: if n in marks then Marked(nodes[n], marks[n]) else nodes[n]
  }

  // ----- the checks of a rent, statement by statement

  predicate OfferPasses(m: Market, r: RentRequest) {
    && r.renter != "" && r.offer in m.offers
    && var o := m.offers[r.offer];
       && o.status.Listed?
       && (r.maxPrice.Some? ==> 0.0 < r.maxPrice.value && o.price <= r.maxPrice.value)
       && (r.lifetime.Some? ==> 0.0 < r.lifetime.value <= o.maxLifetime)
  }

  predicate NodesPass(m: Market, r: RentRequest)
    requires r.offer in m.offers
  {
    var o := m.offers[r.offer];
    && o.nodes != []
    && (forall n :: n in o.nodes ==> n in m.nodes && Offerable(m.nodes[n].status))
    && (o.requireIb ==>
          (forall n :: n in o.nodes ==> m.nodes[n].hasIb) && Fabric.RequireIbFault(r.reports, o.nodes).None?)
  }

  /** The three statements together are the check of the one-step rent. */
  lemma RentChecksSplit(m: Market, r: RentRequest)
    ensures RentFault(m, r).None? <==>
            OfferPasses(m, r) && NodesPass(m, r) && ExclusiveFree(m, m.offers[r.offer].nodes)
  {
    hide Fabric.RequireIbFault, ExclusiveFree;
  }

  // ----- reading statements

  function Read(m: Market, i: nat, pc: Pc, q: Query, site: Site): Pc {
    match q
    case StaleNodes(cutoff) =>
      if pc.Idle? then Marking(Dirty(m.nodes, MarkStaleOffline(m, cutoff).nodes)) else pc
    case Tenants =>
      if pc.Idle? then Protecting(Covered(m)) else pc
    case TenantNodes =>
      if pc.Protecting? then Marking(Dirty(m.nodes, Occupy(m.nodes, pc.tenants))) else pc
    case OwnedNodes(p, t, now) =>
      if pc.Idle? then Marking(Dirty(m.nodes, Heartbeat(m, p, t, now).0.nodes)) else pc
    case NodeRow(p, id, ib, now) =>
      if !pc.Idle? then pc
      else if id in m.nodes then Marking(Dirty(m.nodes, Register(m, p, id, ib, now).0.nodes))
      else Adding(id, Node(p, Healthy, Some(now), ib.GetOr(false)))
    case OfferedNodes(r) =>
      if pc.Idle? && OfferFault(m, r, site.caps).None? then Drafting(OfferRow(r)) else pc
    case OfferToWithdraw(p, id) =>
      if pc.Idle? && id in m.offers && m.offers[id].provider == p then Viewing(id, m.offers[id].status) else pc
    case LeasesOfOffer =>
      if !pc.Viewing? then pc
      else if HasLiveLease(m, pc.offer) || pc.seen.Withdrawn? then Idle
      else Withdrawing(pc.offer)
    case OfferToRent(r) =>
      if pc.Idle? && i < site.renters && OfferPasses(m, r) then Asking(r) else pc
    case NodesToRent =>
      if !pc.Asking? || pc.request.offer !in m.offers then pc
      else if NodesPass(m, pc.request) then
        Choosing(pc.request, Dirty(m.nodes, Occupy(m.nodes, Elems(m.offers[pc.request.offer].nodes))))
      else Idle
    case LiveLeases =>
      if !pc.Choosing? || pc.request.offer !in m.offers then pc
      else if ExclusiveFree(m, m.offers[pc.request.offer].nodes) then Renting(pc.request, pc.marks)
      else Idle
    case LeaseRow(hk, id) =>
      if pc.Idle? && id in m.leases && (m.leases[id].renter == hk || Owns(m, hk, m.leases[id].provider))
         && Live(m.leases[id].status)
      then Closing({id}, Terminated, {id}, map[]) else pc
    case DueLeases(now) =>
      if pc.Idle? && Due(m, now) != {} then Closing(Due(m, now), Expired, Due(m, now), map[]) else pc
    case PodNodes(l) =>
      if pc.Closing? && l in pc.unread then
        pc.(unread := pc.unread - {l}, marks := pc.marks + Dirty(m.nodes, Release(m.nodes, Held(m, {l}))))
      else pc
  }

  // ----- commits

  /** The session has read all it needs. */
  predicate Ready(pc: Pc) {
    pc.Marking? || pc.Adding? || pc.Drafting? || pc.Withdrawing? || pc.Renting? || (pc.Closing? && pc.unread == {})
  }

  /** The row a session inserts has a primary key of its own. */
  predicate Insertable(m: Market, pc: Pc, id: string) {
    && (pc.Adding? ==> pc.id !in m.nodes)
    && (pc.Drafting? ==> id !in m.offers)
    && (pc.Renting? ==> id !in m.leases && id !in m.pods && pc.request.offer in m.offers)
  }

  function Written(m: Market, pc: Pc, id: string, now: real): Market
    requires Insertable(m, pc, id)
  {
    match pc
    case Marking(marks) => m.(nodes := Apply(m.nodes, marks))
    case Adding(n, node) => m.(nodes := m.nodes[n := node])
    case Drafting(o) => m.(offers := m.offers[id := o])
    case Withdrawing(o) =>
      if o in m.offers then m.(offers := m.offers[o := m.offers[o].(status := Withdrawn)]) else m
    case Renting(r, marks) => RentRows(m, id, r, now).(nodes := Apply(m.nodes, marks))
    case Closing(ids, to, _, marks) => Close(m, ids, to).(nodes := Apply(m.nodes, marks))
    case _ => m
  }

  function Do(s: State, step: Step, site: Site): State {
    if step.session >= |s.sessions| then s
    else
      var i, pc := step.session, s.sessions[step.session];
      match step
      case Look(_, q) => s.(sessions := s.sessions[i := Read(s.market, i, pc, q, site)])
      case Write(_, id, now) =>
        if !Ready(pc) then s
        else if !Insertable(s.market, pc, id) then s.(sessions := s.sessions[i := Idle])
        else State(Written(s.market, pc, id, now), s.sessions[i := Idle])
      case Abandon(_) => s.(sessions := s.sessions[i := Idle])
  }

  /** A session in the middle starts nothing new; giving up writes nothing. */
  lemma OneSessionAtATime(s: State, i: nat, q: Query, site: Site)
    requires i < |s.sessions|
    ensures Do(s, Abandon(i), site) == s.(sessions := s.sessions[i := Idle])
    ensures !s.sessions[i].Idle? && Starts(q) ==> Do(s, Look(i, q), site) == s
  {
    hide OfferPasses, NodesPass, ExclusiveFree;
    assert s.sessions[i := s.sessions[i]] == s.sessions;
  }

  /** The readings that a session begins with. */
  predicate Starts(q: Query) {
    !q.TenantNodes? && !q.LeasesOfOffer? && !q.NodesToRent? && !q.LiveLeases? && !q.PodNodes?
  }

  function RunAll(s: State, steps: seq<Step>, site: Site): State
    decreases |steps|
  {
    if steps == [] then s else RunAll(Do(s, steps[0], site), steps[1..], site)
  }

  function Start(owners: map<string, string>, n: nat): State {
    State(Empty(owners), Alike(n, Idle))
  }

  lemma RunOne(s: State, step: Step, site: Site)
    ensures RunAll(s, [step], site) == Do(s, step, site)
  {
    hide Do;
    assert [step][1..] == [];
    assert RunAll(Do(s, step, site), [], site) == Do(s, step, site);
  }

  lemma {:induction false} RunConcat(s: State, a: seq<Step>, b: seq<Step>, site: Site)
    ensures RunAll(s, a + b, site) == RunAll(RunAll(s, a, site), b, site)
    decreases |a|
  {
    hide Do;
    if a == [] {
      assert a + b == b;
    } else {
      assert (a + b)[0] == a[0] && (a + b)[1..] == a[1..] + b;
      RunConcat(Do(s, a[0], site), a[1..], b, site);
    }
  }

  lemma {:induction false} RunFollows(path: seq<State>, steps: seq<Step>, site: Site)
    requires |path| == |steps| + 1 && forall i :: 0 <= i < |steps| ==> Do(path[i], steps[i], site) == path[i + 1]
    ensures RunAll(path[0], steps, site) == path[|steps|]
    decreases |steps|
  {
    hide Do;
    if steps != [] {
      assert forall i :: 0 <= i < |steps[1..]| ==> Do(path[1..][i], steps[1..][i], site) == path[1..][i + 1] by {
        assert forall i :: 0 <= i < |steps[1..]| ==> path[1..][i] == path[i + 1] && steps[1..][i] == steps[i + 1];
      }
      RunFollows(path[1..], steps[1..], site);
    }
  }

  // ----- what every interleaving keeps

  /** Rows stay; terms, owners and pod nodes never change; nothing that ended, or left the list, comes back. */
  ghost predicate Onward(m: Market, m': Market) {
    && m.nodes.Keys <= m'.nodes.Keys
    && (forall o :: o in m.offers ==>
          && o in m'.offers && m'.offers[o].(status := m.offers[o].status) == m.offers[o]
          && (!m.offers[o].status.Listed? ==> !m'.offers[o].status.Listed?))
    && (forall l :: l in m.leases ==>
          && l in m'.leases && m'.leases[l].(status := m.leases[l].status) == m.leases[l]
          && (!Live(m.leases[l].status) ==> !Live(m'.leases[l].status)))
    && (forall l :: l in m.pods ==>
          && l in m'.pods && m'.pods[l].nodes == m.pods[l].nodes
          && (m.pods[l].status.Stopped? ==> m'.pods[l].status.Stopped?))
  }

  /** Lease `l` has its pod, and holds the nodes of its offer, off the list, on terms within the offer's. */
  ghost predicate TermsOk(m: Market, l: string)
    requires l in m.leases
  {
    var lease := m.leases[l];
    && lease.offer in m.offers
    && var o := m.offers[lease.offer];
       && !o.status.Listed?
       && (l in m.pods ==> m.pods[l].nodes == o.nodes)
       && 0.0 < lease.lifetime <= o.maxLifetime && lease.price == o.price
  }

  ghost predicate AllTermsOk(m: Market) {
    forall l :: l in m.leases ==> TermsOk(m, l)
  }

  ghost predicate Sound(m: Market, caps: Caps) {
    PodsFollowLeases(m) && AllTermsOk(m) && AllOffersOk(m, caps)
  }

  ghost predicate RequestOk(m: Market, r: RentRequest) {
    && r.offer in m.offers
    && (r.lifetime.Some? ==> 0.0 < r.lifetime.value <= m.offers[r.offer].maxLifetime)
  }

  /** The marks only write `s`, and only on these nodes. */
  ghost predicate Only(marks: Marks, s: NodeStatus, nodes: set<string>) {
    marks.Keys <= nodes && forall n :: n in marks ==> marks[n] == Mark(Some(s), None, None)
  }

  /** What a session holds fits the tables, however old its readings are. */
  ghost predicate PendingOk(m: Market, caps: Caps, pc: Pc) {
    match pc
    case Marking(marks) => marks.Keys <= m.nodes.Keys
    case Adding(_, node) => node.status.Healthy?
    case Drafting(o) => OfferOk(m, o, caps) && o.status.Listed?
    case Viewing(o, _) => o in m.offers
    case Withdrawing(o) => o in m.offers
    case Asking(r) => RequestOk(m, r)
    case Choosing(r, marks) => RequestOk(m, r) && m.offers[r.offer].nodes != []
                               && Only(marks, Rented, Elems(m.offers[r.offer].nodes))
    case Renting(r, marks) => RequestOk(m, r) && m.offers[r.offer].nodes != []
                              && Only(marks, Rented, Elems(m.offers[r.offer].nodes))
    case Closing(ids, to, unread, marks) =>
      !Live(to) && unread <= ids <= m.leases.Keys && Only(marks, Healthy, Held(m, ids))
    case _ => true
  }

  ghost predicate Base(s: State, caps: Caps) {
    Sound(s.market, caps) && forall i :: 0 <= i < |s.sessions| ==> PendingOk(s.market, caps, s.sessions[i])
  }

  lemma HeldGrows(m: Market, m': Market, ids: set<string>)
    requires Onward(m, m')
    ensures Held(m, ids) <= Held(m', ids)
  {
    forall n | n in Held(m, ids) ensures n in Held(m', ids)
    {
      var l :| l in ids && l in m.pods && n in m.pods[l].nodes;
      assert l in m'.pods && n in m'.pods[l].nodes;
    }
  }

  lemma PendingStaysOk(m: Market, m': Market, caps: Caps, pc: Pc)
    requires PendingOk(m, caps, pc) && Onward(m, m')
    ensures PendingOk(m', caps, pc)
  {
    hide Held;
    if pc.Closing? {
      HeldGrows(m, m', pc.ids);
    }
  }

  lemma CloseGoesOnward(m: Market, ids: set<string>, to: LeaseStatus, marks: Marks)
    requires !Live(to)
    ensures Onward(m, Close(m, ids, to).(nodes := Apply(m.nodes, marks)))
  {
    hide Held, Release;
  }

  lemma WriteGoesOnward(m: Market, caps: Caps, pc: Pc, id: string, now: real)
    requires PendingOk(m, caps, pc) && Insertable(m, pc, id)
    ensures Onward(m, Written(m, pc, id, now))
  {
    hide Close, Occupy, Apply, Held;
    if pc.Closing? {
      CloseGoesOnward(m, pc.ids, pc.to, pc.marks);
    }
  }

  /** No new lease, and the old ones on their old terms. */
  lemma TermsStay(m: Market, m': Market)
    requires AllTermsOk(m) && Onward(m, m') && m'.leases.Keys == m.leases.Keys && m'.pods.Keys == m.pods.Keys
    ensures AllTermsOk(m')
  {
    forall l | l in m'.leases ensures TermsOk(m', l)
    {
      assert TermsOk(m, l);
    }
  }

  lemma CloseKeepsSound(m: Market, caps: Caps, ids: set<string>, to: LeaseStatus, marks: Marks)
    requires Sound(m, caps) && !Live(to)
    ensures Sound(Close(m, ids, to).(nodes := Apply(m.nodes, marks)), caps)
  {
    hide Held, Release, Apply, AllTermsOk, Onward;
    CloseGoesOnward(m, ids, to, marks);
    TermsStay(m, Close(m, ids, to).(nodes := Apply(m.nodes, marks)));
  }

  lemma RentKeepsTerms(m: Market, m': Market, id: string, r: RentRequest)
    requires PodsFollowLeases(m) && AllTermsOk(m) && id !in m.leases && id !in m.pods && r.offer in m.offers
    requires m'.offers == m.offers[r.offer := m.offers[r.offer].(status := Leased)]
    requires id in m'.leases && m'.leases == m.leases[id := m'.leases[id]] && m'.leases[id].offer == r.offer
    requires id in m'.pods && m'.pods == m.pods[id := m'.pods[id]] && m'.pods[id].nodes == m.offers[r.offer].nodes
    requires Live(m'.leases[id].status) && !m'.pods[id].status.Stopped?
    requires 0.0 < m'.leases[id].lifetime <= m.offers[r.offer].maxLifetime
    requires m'.leases[id].price == m.offers[r.offer].price
    ensures PodsFollowLeases(m') && AllTermsOk(m')
  {
    forall l | l in m'.leases ensures TermsOk(m', l)
    {
      assert l != id ==> TermsOk(m, l);
    }
  }

  lemma RentKeepsSound(m: Market, caps: Caps, id: string, r: RentRequest, now: real, marks: Marks)
    requires Sound(m, caps) && RequestOk(m, r) && id !in m.leases && id !in m.pods
    ensures Sound(RentRows(m, id, r, now).(nodes := Apply(m.nodes, marks)), caps)
  {
    hide Occupy, AllTermsOk, AllOffersOk, PodsFollowLeases;
    var m' := RentRows(m, id, r, now).(nodes := Apply(m.nodes, marks));
    LifetimeFallsBack(m, r, caps);
    RentKeepsTerms(m, m', id, r);
    RentKeepsOffers(m, m', r, caps);
  }

  lemma WriteKeepsSound(m: Market, caps: Caps, pc: Pc, id: string, now: real)
    requires Sound(m, caps) && PendingOk(m, caps, pc) && Insertable(m, pc, id)
    ensures Sound(Written(m, pc, id, now), caps)
  {
    hide Close, RentRows, Held, Only;
    match pc
    case Renting(r, marks) => RentKeepsSound(m, caps, id, r, now, marks);
    case Closing(ids, to, _, marks) => CloseKeepsSound(m, caps, ids, to, marks);
    case _ => OffersKeepSound(m, caps, pc, id, now);
  }

  lemma OffersKeepSound(m: Market, caps: Caps, pc: Pc, id: string, now: real)
    requires Sound(m, caps) && PendingOk(m, caps, pc) && Insertable(m, pc, id) && !pc.Renting? && !pc.Closing?
    ensures Sound(Written(m, pc, id, now), caps)
  {
    hide Apply, AllTermsOk, Onward;
    WriteGoesOnward(m, caps, pc, id, now);
    TermsStay(m, Written(m, pc, id, now));
  }

  lemma AdmittedOfferOk(m: Market, r: OfferRequest, caps: Caps)
    requires OfferFault(m, r, caps).None?
    ensures OfferOk(m, OfferRow(r), caps)
  {
  }

  lemma OccupyMarks(m: Market, ids: set<string>)
    ensures Only(Dirty(m.nodes, Occupy(m.nodes, ids)), Rented, ids)
  {
  }

  lemma ReleaseMarks(m: Market, ids: set<string>)
    ensures Only(Dirty(m.nodes, Release(m.nodes, ids)), Healthy, ids)
  {
  }

  lemma ReadKeepsPending(m: Market, i: nat, pc: Pc, q: Query, site: Site)
    requires Sound(m, site.caps) && PendingOk(m, site.caps, pc)
    ensures PendingOk(m, site.caps, Read(m, i, pc, q, site))
  {
    hide OfferFault, Heartbeat, Register, MarkStaleOffline, Occupy, Release, NodesPass, ExclusiveFree, HasLiveLease,
      Covered, Sound, OfferRow, OfferOk, Held;
    match q
    case OfferedNodes(r) =>
      if OfferFault(m, r, site.caps).None? {
        AdmittedOfferOk(m, r, site.caps);
        assert OfferRow(r).status.Listed? by { RowIsListed(r); }
      }
    case NodesToRent =>
      if pc.Asking? {
        ChosenNodes(m, pc.request);
      }
    case PodNodes(l) =>
      if pc.Closing? && l in pc.unread {
        ReleaseMarks(m, Held(m, {l}));
        HeldOfOne(m, pc.ids, l);
      }
    case _ =>
  }

  lemma RowIsListed(r: OfferRequest)
    ensures OfferRow(r).status.Listed?
  {
  }

  lemma ChosenNodes(m: Market, r: RentRequest)
    requires r.offer in m.offers
    ensures NodesPass(m, r) ==> m.offers[r.offer].nodes != []
    ensures Only(Dirty(m.nodes, Occupy(m.nodes, Elems(m.offers[r.offer].nodes))), Rented,
                 Elems(m.offers[r.offer].nodes))
  {
    hide Only;
    OccupyMarks(m, Elems(m.offers[r.offer].nodes));
  }

  lemma HeldOfOne(m: Market, ids: set<string>, l: string)
    requires l in ids
    ensures Held(m, {l}) <= Held(m, ids)
  {
  }

  lemma DoKeepsBase(s: State, step: Step, site: Site)
    requires Base(s, site.caps)
    ensures Base(Do(s, step, site), site.caps) && Onward(s.market, Do(s, step, site).market)
  {
    hide Read, Written, Sound, PendingOk, Onward;
    StaysOnward(s.market);
    if step.session < |s.sessions| {
      var pc := s.sessions[step.session];
      assert PendingOk(s.market, site.caps, Idle) by { IdleIsOk(s.market, site.caps); }
      if step.Look? {
        ReadKeepsPending(s.market, step.session, pc, step.query, site);
      } else if step.Write? && Ready(pc) && Insertable(s.market, pc, step.id) {
        var m' := Written(s.market, pc, step.id, step.now);
        WriteGoesOnward(s.market, site.caps, pc, step.id, step.now);
        WriteKeepsSound(s.market, site.caps, pc, step.id, step.now);
        IdleIsOk(m', site.caps);
        forall i | 0 <= i < |s.sessions| ensures PendingOk(m', site.caps, s.sessions[i])
        {
          PendingStaysOk(s.market, m', site.caps, s.sessions[i]);
        }
      }
    }
  }

  lemma IdleIsOk(m: Market, caps: Caps)
    ensures PendingOk(m, caps, Idle)
  {
  }

  lemma StaysOnward(m: Market)
    ensures Onward(m, m)
  {
  }

  lemma OnwardChains(a: Market, b: Market, c: Market)
    requires Onward(a, b) && Onward(b, c)
    ensures Onward(a, c)
  {
  }

  /**
   Under every interleaving of any number of sessions: pods stop exactly with their leases, every lease holds the
   nodes of an offer that is off the list, on its terms, and nothing that ended or left the list comes back.
   */
  lemma {:induction false} EveryRunGoesOnward(s: State, steps: seq<Step>, site: Site)
    requires Base(s, site.caps)
    ensures Base(RunAll(s, steps, site), site.caps) && Onward(s.market, RunAll(s, steps, site).market)
    decreases |steps|
  {
    hide Do, Base, Onward;
    if steps == [] {
      StaysOnward(s.market);
    } else {
      DoKeepsBase(s, steps[0], site);
      EveryRunGoesOnward(Do(s, steps[0], site), steps[1..], site);
      OnwardChains(s.market, Do(s, steps[0], site).market, RunAll(s, steps, site).market);
    }
  }

  lemma StartIsBase(owners: map<string, string>, n: nat, caps: Caps)
    ensures Base(Start(owners, n), caps)
  {
  }
}
