/**
 When interleaved sessions leave the marketplace consistent: exactly as long as every commit still fits the rows as
 they stand, which for all runs means a single session, or no rent.
 */
module ConsistencyRaces {
  import opened Common
  import opened Sessions
  import opened MarketState
  import opened MarketRuns
  import opened MarketRaces
  import opened MarketScripts
  import opened TenancyRaces
  import opened LateWrites

  // ----- one commit

  /** The offer of a live lease shows it. */
  ghost predicate LeasedWhileLive(m: Market) {
    forall l :: l in LiveIds(m) ==> m.leases[l].offer in m.offers && m.offers[m.leases[l].offer].status.Leased?
  }

  lemma InvSplits(m: Market, caps: Caps)
    ensures Inv(m, caps) <==>
            Sound(m, caps) && Exclusive(m) && OneLeasePerOffer(m) && RentedIffCovered(m) && LeasedWhileLive(m)
  {
    hide Exclusive, OneLeasePerOffer, RentedIffCovered, AllOffersOk;
    if Inv(m, caps) {
      forall l | l in m.leases ensures TermsOk(m, l)
      {
        assert LeaseOk(m, l);
      }
      forall l | l in LiveIds(m)
        ensures m.leases[l].offer in m.offers && m.offers[m.leases[l].offer].status.Leased?
      {
        assert LeaseOk(m, l);
      }
    }
    if Sound(m, caps) && LeasedWhileLive(m) {
      forall l | l in m.leases ensures LeaseOk(m, l)
      {
        assert TermsOk(m, l);
        assert Live(m.leases[l].status) ==> l in LiveIds(m);
      }
    }
  }

  /**
   What a session is about to write still fits: a node it marks is rented now exactly if the mark says so; the offer
   it withdraws has no live lease; the offer it rents was never leased, its nodes are free, and were so when read;
   of the nodes now under a tenant, it frees exactly those of the leases it is the first to close.
   */
  ghost predicate Harmless(m: Market, pc: Pc) {
    match pc
    case Marking(marks) =>
      forall n :: n in marks && n in m.nodes && marks[n].status.Some? ==>
        (marks[n].status.value.Rented? <==> m.nodes[n].status.Rented?)
    case Withdrawing(o) => !HasLiveLease(m, o)
    case Renting(r, marks) =>
      && r.offer in m.offers && Unleased(m, r.offer) && ExclusiveFree(m, m.offers[r.offer].nodes)
      && marks.Keys == Elems(m.offers[r.offer].nodes)
    case Closing(ids, _, _, marks) => marks.Keys * Covered(m) == Held(m, ids * LiveIds(m))
    case _ => true
  }

  lemma MarkingIff(m: Market, caps: Caps, marks: Marks)
    requires Inv(m, caps) && marks.Keys <= m.nodes.Keys
    ensures RentedIffCovered(m.(nodes := Apply(m.nodes, marks))) <==> Harmless(m, Marking(marks))
  {
    var m' := m.(nodes := Apply(m.nodes, marks));
    CoveredDependsOnTenancy(m, m');
    hide Covered, LiveIds, Exclusive, PodsFollowLeases, OneLeasePerOffer, AllLeasesOk, AllOffersOk;
    assert forall n :: n in marks && marks[n].status.Some? ==> m'.nodes[n].status == marks[n].status.value;
    assert forall n :: n in m.nodes && !(n in marks && marks[n].status.Some?) ==>
                         m'.nodes[n].status == m.nodes[n].status;
  }

  lemma WithdrawingIff(m: Market, o: string)
    requires LeasedWhileLive(m) && o in m.offers
    ensures LeasedWhileLive(m.(offers := m.offers[o := m.offers[o].(status := Withdrawn)])) <==> !HasLiveLease(m, o)
  {
    var m' := m.(offers := m.offers[o := m.offers[o].(status := Withdrawn)]);
    assert LiveIds(m') == LiveIds(m);
    if HasLiveLease(m, o) {
      var l :| l in m.leases && m.leases[l].offer == o && Live(m.leases[l].status);
      assert l in LiveIds(m');
    }
  }

  lemma RentingIff(m: Market, caps: Caps, r: RentRequest, marks: Marks, id: string, now: real)
    requires Inv(m, caps) && PendingOk(m, caps, Renting(r, marks)) && Insertable(m, Renting(r, marks), id)
    ensures var m' := Written(m, Renting(r, marks), id, now);
            Exclusive(m') && OneLeasePerOffer(m') && RentedIffCovered(m') && LeasedWhileLive(m')
            <==> Harmless(m, Renting(r, marks))
  {
    hide Apply, Occupy, Exclusive, OneLeasePerOffer, RentedIffCovered, LeasedWhileLive, ExclusiveFree, LiveIds,
      Covered, AllLeasesOk, PodsFollowLeases, AllOffersOk, Inv, Unleased, Only;
    var m' := Written(m, Renting(r, marks), id, now);
    var o := m.offers[r.offer];
    InvSplits(m, caps);
    LiveAfterRent(m, m', id);
    if !ExclusiveFree(m, o.nodes) {
      SharedNode(m, m', id, o.nodes);
    } else if !Unleased(m, r.offer) {
      LeasedTwice(m, m', id, r.offer);
    } else {
      assert Reserves(m, Renting(r, marks));
      RentKeepsAlone(m, r, marks, id, now);
      RentCovers(m, m', id, o);
      OfferNodesExist(m, caps, r.offer);
      RentedAfterRent(m, m', marks, o.nodes);
      RentKeepsLeased(m, m', id, r);
    }
  }

  lemma OfferNodesExist(m: Market, caps: Caps, o: string)
    requires AllOffersOk(m, caps) && o in m.offers
    ensures Elems(m.offers[o].nodes) <= m.nodes.Keys
  {
    assert OfferOk(m, m.offers[o], caps);
  }

  lemma SharedNode(m: Market, m': Market, id: string, nodes: seq<string>)
    requires !ExclusiveFree(m, nodes) && id !in m.leases && id !in m.pods && LiveIds(m') == LiveIds(m) + {id}
    requires id in m'.pods && m'.pods == m.pods[id := m'.pods[id]] && m'.pods[id].nodes == nodes
    ensures !Exclusive(m')
  {
    hide Elems;
    var l :| l in m.leases && Live(m.leases[l].status) && l in m.pods && !(Elems(m.pods[l].nodes) !! Elems(nodes));
    assert l in LiveIds(m') && l in m'.pods && m'.pods[l] == m.pods[l] && l != id;
  }

  lemma LeasedTwice(m: Market, m': Market, id: string, o: string)
    requires !Unleased(m, o) && id !in m.leases && id in m'.leases
    requires m'.leases == m.leases[id := m'.leases[id]] && m'.leases[id].offer == o
    ensures !OneLeasePerOffer(m')
  {
    var l :| l in m.leases && m.leases[l].offer == o;
    assert m'.leases[l].offer == m'.leases[id].offer;
  }

  lemma RentedAfterRent(m: Market, m': Market, marks: Marks, nodes: seq<string>)
    requires RentedIffCovered(m) && ExclusiveFree(m, nodes) && Elems(nodes) <= m.nodes.Keys
    requires Covered(m') == Covered(m) + Elems(nodes) && m'.nodes == Apply(m.nodes, marks)
    requires Only(marks, Rented, Elems(nodes))
    ensures RentedIffCovered(m') <==> marks.Keys == Elems(nodes)
  {
    FreeIsUncovered(m, nodes);
    hide Covered, ExclusiveFree;
    assert forall n :: n in m.nodes ==>
                         m'.nodes[n].status == if n in marks then Rented else m.nodes[n].status;
  }

  lemma FreeIsUncovered(m: Market, nodes: seq<string>)
    requires ExclusiveFree(m, nodes)
    ensures Elems(nodes) !! Covered(m)
  {
    forall n | n in Covered(m) ensures n !in Elems(nodes)
    {
      var l :| l in LiveIds(m) && l in m.pods && n in m.pods[l].nodes;
      assert n in Elems(m.pods[l].nodes);
    }
  }

  lemma RentKeepsLeased(m: Market, m': Market, id: string, r: RentRequest)
    requires LeasedWhileLive(m) && LiveIds(m') == LiveIds(m) + {id} && id !in m.leases && r.offer in m.offers
    requires id in m'.leases && m'.leases == m.leases[id := m'.leases[id]] && m'.leases[id].offer == r.offer
    requires m'.offers == m.offers[r.offer := m.offers[r.offer].(status := Leased)]
    ensures LeasedWhileLive(m')
  {
    assert LiveIds(m) <= m.leases.Keys;
    hide LiveIds;
  }

  /** Closing leaves tenants exactly where it was not the one to end a live lease. */
  lemma CloseUncoversLive(m: Market, ids: set<string>, to: LeaseStatus, marks: Marks)
    requires Exclusive(m) && !Live(to)
    ensures var m' := Close(m, ids, to).(nodes := Apply(m.nodes, marks));
            && LiveIds(m') == LiveIds(m) - ids && Covered(m') == Covered(m) - Held(m, ids * LiveIds(m))
  {
    hide Exclusive, Apply, Release;
    var m' := Close(m, ids, to).(nodes := Apply(m.nodes, marks));
    var live := ids * LiveIds(m);
    CloseUncovers(m, live, to);
    CloseEndsLeases(m, live, to);
    assert LiveIds(m') == LiveIds(m) - ids == LiveIds(m) - live;
    CoverageDepends(Close(m, live, to), m');
  }

  lemma CoverageDepends(a: Market, b: Market)
    requires LiveIds(a) == LiveIds(b) && a.pods.Keys == b.pods.Keys
    requires forall l :: l in a.pods ==> a.pods[l].nodes == b.pods[l].nodes
    ensures Covered(a) == Covered(b)
  {
    hide LiveIds;
  }

  lemma FreedNodes(m: Market, m': Market, marks: Marks, gone: set<string>)
    requires RentedIffCovered(m) && gone <= Covered(m) <= m.nodes.Keys && Covered(m') == Covered(m) - gone
    requires m'.nodes == Apply(m.nodes, marks) && forall n :: n in marks ==> marks[n] == Mark(Some(Healthy), None, None)
    ensures RentedIffCovered(m') <==> marks.Keys * Covered(m) == gone
  {
    hide Covered;
    assert forall n :: n in m.nodes ==>
                         m'.nodes[n].status == if n in marks then Healthy else m.nodes[n].status;
    if RentedIffCovered(m') {
      assert forall n :: n in Covered(m) ==> (n in marks <==> n in gone);
      assert marks.Keys * Covered(m) == gone;
    }
  }

  lemma ClosingIff(m: Market, caps: Caps, ids: set<string>, to: LeaseStatus, unread: set<string>, marks: Marks)
    requires Inv(m, caps) && PendingOk(m, caps, Closing(ids, to, unread, marks))
    ensures var m' := Close(m, ids, to).(nodes := Apply(m.nodes, marks));
            && LeasedWhileLive(m')
            && (RentedIffCovered(m') <==> Harmless(m, Closing(ids, to, unread, marks)))
  {
    hide Exclusive, OneLeasePerOffer, AllLeasesOk, AllOffersOk, PodsFollowLeases, Release, Covered, LiveIds, Held,
      RentedIffCovered, Apply, Inv;
    InvSplits(m, caps);
    CloseUncoversLive(m, ids, to, marks);
    LiveNodesExist(m, caps);
    HeldIsCovered(m, ids * LiveIds(m));
    FreedNodes(m, Close(m, ids, to).(nodes := Apply(m.nodes, marks)), marks, Held(m, ids * LiveIds(m)));
  }

  lemma LiveNodesExist(m: Market, caps: Caps)
    requires Inv(m, caps)
    ensures Covered(m) <= m.nodes.Keys
  {
    CoveredNodesExist(m, caps);
  }

  lemma HeldIsCovered(m: Market, ids: set<string>)
    requires ids <= LiveIds(m)
    ensures Held(m, ids) <= Covered(m)
  {
  }

  /** A commit keeps a consistent market consistent exactly if what it writes still fits. */
  lemma CommitKeepsInvIff(m: Market, caps: Caps, pc: Pc, id: string, now: real)
    requires Inv(m, caps) && PendingOk(m, caps, pc) && Insertable(m, pc, id)
    ensures Inv(Written(m, pc, id, now), caps) <==> Harmless(m, pc)
  {
    hide Inv, Exclusive, OneLeasePerOffer, RentedIffCovered, LeasedWhileLive, Sound, Close, RentRows, Apply, Covered,
      Held, HasLiveLease, ExclusiveFree, LiveIds, NoNewLease, Only, OfferOk;
    var m' := Written(m, pc, id, now);
    InvSplits(m, caps);
    InvSplits(m', caps);
    WriteKeepsSound(m, caps, pc, id, now);
    if pc.Renting? {
      RentingIff(m, caps, pc.request, pc.marks, id, now);
    } else {
      OtherWritesAddNoLease(m, caps, pc, id, now);
      NoNewLeaseKeeps(m, m', Idle);
      match pc
      case Marking(marks) =>
        MarkingIff(m, caps, marks);
        SameOffersLeased(m, m');
      case Withdrawing(o) =>
        WithdrawingIff(m, o);
        SameNodesRented(m, m');
      case Closing(ids, to, unread, marks) => ClosingIff(m, caps, ids, to, unread, marks);
      case _ => AddingIsHarmless(m, caps, pc, id, now);
    }
  }

  lemma SameOffersLeased(m: Market, m': Market)
    requires m'.offers == m.offers && m'.leases == m.leases
    ensures LeasedWhileLive(m') <==> LeasedWhileLive(m)
  {
    assert LiveIds(m') == LiveIds(m);
  }

  lemma SameNodesRented(m: Market, m': Market)
    requires m'.nodes == m.nodes && m'.leases == m.leases && m'.pods == m.pods
    ensures RentedIffCovered(m') <==> RentedIffCovered(m)
  {
    CoveredDependsOnTenancy(m, m');
    hide Covered;
  }

  /** A new node or offer is nobody's. */
  lemma AddingIsHarmless(m: Market, caps: Caps, pc: Pc, id: string, now: real)
    requires Inv(m, caps) && PendingOk(m, caps, pc) && Insertable(m, pc, id)
    requires !pc.Marking? && !pc.Withdrawing? && !pc.Renting? && !pc.Closing?
    ensures var m' := Written(m, pc, id, now); RentedIffCovered(m') && LeasedWhileLive(m')
  {
    var m' := Written(m, pc, id, now);
    InvSplits(m, caps);
    CoveredNodesExist(m, caps);
    CoveredDependsOnTenancy(m, m');
    hide Covered, LiveIds, Exclusive, PodsFollowLeases, OneLeasePerOffer, AllLeasesOk, AllOffersOk, OfferOk;
  }

  // ----- whole runs

  /** The step does not commit anything that no longer fits. */
  ghost predicate SafeStep(s: State, step: Step) {
    && step.Write? && step.session < |s.sessions| && Ready(s.sessions[step.session])
    && Insertable(s.market, s.sessions[step.session], step.id)
    ==> Harmless(s.market, s.sessions[step.session])
  }

  ghost predicate Careful(s: State, steps: seq<Step>, site: Site)
    decreases |steps|
  {
    steps != [] ==> SafeStep(s, steps[0]) && Careful(Do(s, steps[0], site), steps[1..], site)
  }

  /** The market is consistent at every moment of the run. */
  ghost predicate StaysConsistent(s: State, steps: seq<Step>, site: Site)
    decreases |steps|
  {
    Inv(s.market, site.caps) && (steps != [] ==> StaysConsistent(Do(s, steps[0], site), steps[1..], site))
  }

  lemma StepKeepsInvIff(s: State, step: Step, site: Site)
    requires Base(s, site.caps) && Inv(s.market, site.caps)
    ensures Inv(Do(s, step, site).market, site.caps) <==> SafeStep(s, step)
  {
    hide Inv, Read, Written, Harmless, Sound, PendingOk;
    if step.Write? && step.session < |s.sessions| && Ready(s.sessions[step.session]) {
      if Insertable(s.market, s.sessions[step.session], step.id) {
        CommitKeepsInvIff(s.market, site.caps, s.sessions[step.session], step.id, step.now);
      }
    }
  }

  /** A run leaves the market consistent at every moment exactly if each of its commits fits the rows it meets. */
  lemma {:induction false} StaysConsistentIff(s: State, steps: seq<Step>, site: Site)
    requires Base(s, site.caps) && Inv(s.market, site.caps)
    ensures StaysConsistent(s, steps, site) <==> Careful(s, steps, site)
    decreases |steps|
  {
    hide Inv, Base, Do, SafeStep;
    if steps != [] {
      StepKeepsInvIff(s, steps[0], site);
      DoKeepsBase(s, steps[0], site);
      if SafeStep(s, steps[0]) {
        StaysConsistentIff(Do(s, steps[0], site), steps[1..], site);
      } else {
        BreaksAtOnce(Do(s, steps[0], site), steps[1..], site);
      }
    }
  }

  lemma BreaksAtOnce(s: State, steps: seq<Step>, site: Site)
    requires !Inv(s.market, site.caps)
    ensures !StaysConsistent(s, steps, site)
  {
  }

  lemma {:induction false} EndsConsistent(s: State, steps: seq<Step>, site: Site)
    requires StaysConsistent(s, steps, site)
    ensures Inv(RunAll(s, steps, site).market, site.caps)
    decreases |steps|
  {
    hide Inv, Do;
    if steps != [] {
      EndsConsistent(Do(s, steps[0], site), steps[1..], site);
    }
  }

  // ----- a single session

  /** What a lone session has read still stands. */
  ghost predicate Fresh(m: Market, pc: Pc) {
    match pc
    case Protecting(tenants) => tenants == Covered(m)
    case Choosing(r, marks) =>
      r.offer in m.offers && forall n :: n in m.offers[r.offer].nodes && n !in marks ==>
                                           n in m.nodes && m.nodes[n].status.Rented?
    case Closing(ids, _, unread, marks) => unread <= ids <= LiveIds(m) && marks.Keys == Held(m, ids - unread)
    case _ => Harmless(m, pc)
  }

  ghost predicate AllFresh(s: State) {
    |s.sessions| <= 1 && forall i :: 0 <= i < |s.sessions| ==> Fresh(s.market, s.sessions[i])
  }

  lemma ReadNodesFresh(m: Market, q: Query, i: nat, pc: Pc, site: Site)
    requires Inv(m, site.caps) && Fresh(m, pc)
    requires q.StaleNodes? || q.Tenants? || q.TenantNodes? || q.OwnedNodes? || q.NodeRow?
    ensures Fresh(m, Read(m, i, pc, q, site))
  {
    hide Covered, Exclusive, PodsFollowLeases, OneLeasePerOffer, AllLeasesOk, AllOffersOk, ExclusiveFree, HasLiveLease,
      Held, LiveIds;
  }

  lemma RentReadsFresh(m: Market, q: Query, i: nat, pc: Pc, site: Site)
    requires Inv(m, site.caps) && PendingOk(m, site.caps, pc) && Fresh(m, pc) && Reserves(m, pc)
    requires q.OfferToRent? || q.NodesToRent? || q.LiveLeases?
    ensures Fresh(m, Read(m, i, pc, q, site))
  {
    hide Covered, Exclusive, PodsFollowLeases, OneLeasePerOffer, AllLeasesOk, AllOffersOk, HasLiveLease, Held, LiveIds,
      RentedIffCovered, Unleased, ExclusiveFree;
    if q.LiveLeases? && pc.Choosing? && pc.request.offer in m.offers {
      var nodes := m.offers[pc.request.offer].nodes;
      if ExclusiveFree(m, nodes) {
        InvSplits(m, site.caps);
        OfferNodesExist(m, site.caps, pc.request.offer);
        ExclusiveFreeIffNoneRented(m, site.caps, nodes);
        assert pc.marks.Keys == Elems(nodes);
      }
    }
  }

  lemma ClosingReadsFresh(m: Market, q: Query, i: nat, pc: Pc, site: Site)
    requires Fresh(m, pc) && (q.LeaseRow? || q.DueLeases?)
    ensures Fresh(m, Read(m, i, pc, q, site))
  {
    hide Covered, HasLiveLease, Harmless;
    NothingHeld(m);
    match q
    case LeaseRow(_, id) => assert {id} - {id} == {};
    case DueLeases(now) => assert Due(m, now) - Due(m, now) == {};
  }

  lemma NothingHeld(m: Market)
    ensures Held(m, {}) == {}
  {
  }

  lemma PodReadsFresh(m: Market, l: string, i: nat, pc: Pc, site: Site)
    requires Inv(m, site.caps) && Fresh(m, pc)
    ensures Fresh(m, Read(m, i, pc, PodNodes(l), site))
  {
    hide Inv, Covered, LiveIds, Harmless, Release, Held, Dirty;
    if pc.Closing? && l in pc.unread {
      LiveTenantMarks(m, site.caps, l);
      HeldMore(m, pc.ids - pc.unread, l);
      assert pc.ids - (pc.unread - {l}) == pc.ids - pc.unread + {l};
    }
  }

  /** All nodes of a live lease are read as rented. */
  lemma LiveTenantMarks(m: Market, caps: Caps, l: string)
    requires Inv(m, caps) && l in LiveIds(m)
    ensures Dirty(m.nodes, Release(m.nodes, Held(m, {l}))).Keys == Held(m, {l})
  {
    hide Exclusive, OneLeasePerOffer, AllLeasesOk, AllOffersOk, PodsFollowLeases;
    CoveredNodesExist(m, caps);
    HeldIsCovered(m, {l});
    hide Covered, LiveIds, Held;
  }

  lemma OtherReadsFresh(m: Market, q: Query, i: nat, pc: Pc, site: Site)
    requires Fresh(m, pc) && (q.OfferedNodes? || q.OfferToWithdraw? || q.LeasesOfOffer?)
    ensures Fresh(m, Read(m, i, pc, q, site))
  {
    hide Covered, LiveIds, Held, ExclusiveFree, OfferFault, OfferRow, HasLiveLease, Unleased;
  }

  lemma ReadsStayFresh(m: Market, q: Query, i: nat, pc: Pc, site: Site)
    requires Inv(m, site.caps) && PendingOk(m, site.caps, pc) && Fresh(m, pc) && Reserves(m, pc)
    ensures Fresh(m, Read(m, i, pc, q, site))
  {
    hide Inv, Fresh, PendingOk, Reserves, Read;
    match q
    case StaleNodes(_) | Tenants | TenantNodes | OwnedNodes(_, _, _) | NodeRow(_, _, _, _) =>
      ReadNodesFresh(m, q, i, pc, site);
    case OfferToRent(_) | NodesToRent | LiveLeases => RentReadsFresh(m, q, i, pc, site);
    case LeaseRow(_, _) | DueLeases(_) => ClosingReadsFresh(m, q, i, pc, site);
    case PodNodes(l) => PodReadsFresh(m, l, i, pc, site);
    case _ => OtherReadsFresh(m, q, i, pc, site);
  }

  /** A lone session commits what it has just read. */
  lemma FreshIsHarmless(m: Market, caps: Caps, pc: Pc)
    requires Fresh(m, pc) && Ready(pc)
    ensures Harmless(m, pc)
  {
    hide LiveIds, HasLiveLease, ExclusiveFree, Unleased;
    if pc.Closing? {
      assert pc.ids - pc.unread == pc.ids && pc.ids * LiveIds(m) == pc.ids;
      HeldIsCovered(m, pc.ids);
      hide Covered, Held;
    }
  }

  lemma IdleIsFresh(m: Market)
    ensures Fresh(m, Idle)
  {
  }

  lemma LoneStep(s: State, step: Step, site: Site)
    requires Base(s, site.caps) && Alone(s) && Inv(s.market, site.caps) && AllFresh(s)
    ensures SafeStep(s, step) && AllFresh(Do(s, step, site))
  {
    hide Inv, Fresh, Sound, PendingOk, Reserves, Read, Written, Harmless, Insertable;
    if step.session < |s.sessions| {
      var pc := s.sessions[step.session];
      assert Fresh(s.market, pc);
      IdleIsFresh(s.market);
      IdleIsFresh(Do(s, step, site).market);
      if step.Look? {
        ReadsStayFresh(s.market, step.query, step.session, pc, site);
      } else if Ready(pc) {
        FreshIsHarmless(s.market, site.caps, pc);
      }
    }
  }

  lemma {:induction false} LoneSessionIsCareful(s: State, steps: seq<Step>, site: Site)
    requires Base(s, site.caps) && Alone(s) && Inv(s.market, site.caps) && AllFresh(s)
    ensures Careful(s, steps, site)
    decreases |steps|
  {
    hide Inv, Base, Alone, AllFresh, SafeStep, Do;
    if steps != [] {
      assert |s.sessions| <= 1 by { AtMostOne(s); }
      LoneStep(s, steps[0], site);
      StepKeepsInvIff(s, steps[0], site);
      DoKeepsBase(s, steps[0], site);
      DoKeepsAlone(s, steps[0], site);
      LoneSessionIsCareful(Do(s, steps[0], site), steps[1..], site);
    }
  }

  lemma AtMostOne(s: State)
    requires AllFresh(s)
    ensures |s.sessions| <= 1
  {
  }

  // ----- no renter at all

  /** No lease was ever made, so no node is rented and nobody will mark one so. */
  ghost predicate Vacant(s: State) {
    && s.market.leases == map[] && s.market.pods == map[]
    && forall i :: 0 <= i < |s.sessions| ==> VacantPc(s.sessions[i])
  }

  ghost predicate VacantPc(pc: Pc) {
    && !Renter(pc) && !pc.Closing? && (pc.Protecting? ==> pc.tenants == {})
    && (pc.Marking? ==> forall n :: n in pc.marks && pc.marks[n].status.Some? ==> !pc.marks[n].status.value.Rented?)
  }

  lemma VacantReads(m: Market, q: Query, i: nat, pc: Pc, site: Site)
    requires m.leases == map[] && m.pods == map[] && site.renters == 0 && VacantPc(pc)
    requires forall n :: n in m.nodes ==> !m.nodes[n].status.Rented?
    ensures VacantPc(Read(m, i, pc, q, site))
  {
    hide OfferFault, OfferRow, NodesPass, ExclusiveFree, HasLiveLease, OfferPasses;
    if q.DueLeases? {
      assert Due(m, q.now) == {};
    }
    if q.Tenants? {
      assert Covered(m) == {};
    }
  }

  lemma VacantStep(s: State, step: Step, site: Site)
    requires Base(s, site.caps) && Inv(s.market, site.caps) && Vacant(s) && site.renters == 0
    ensures SafeStep(s, step) && Vacant(Do(s, step, site))
  {
    NoneRented(s.market, site.caps);
    hide Inv, Sound, Read, PendingOk, Covered, Apply;
    if step.session < |s.sessions| {
      var pc := s.sessions[step.session];
      assert VacantPc(pc);
      if step.Look? {
        VacantReads(s.market, step.query, step.session, pc, site);
      }
    }
  }

  lemma NoneRented(m: Market, caps: Caps)
    requires Inv(m, caps) && m.leases == map[]
    ensures forall n :: n in m.nodes ==> !m.nodes[n].status.Rented?
  {
    assert Covered(m) == {};
  }

  lemma {:induction false} NoRenterIsCareful(s: State, steps: seq<Step>, site: Site)
    requires Base(s, site.caps) && Inv(s.market, site.caps) && Vacant(s) && site.renters == 0
    ensures Careful(s, steps, site)
    decreases |steps|
  {
    hide Inv, Base, Vacant, SafeStep, Do;
    if steps != [] {
      VacantStep(s, steps[0], site);
      StepKeepsInvIff(s, steps[0], site);
      DoKeepsBase(s, steps[0], site);
      NoRenterIsCareful(Do(s, steps[0], site), steps[1..], site);
    }
  }

  // ----- how many sessions

  /** Every run of `n` sessions leaves the market consistent. */
  ghost predicate AlwaysConsistent(n: nat, site: Site) {
    forall owners, steps {:trigger RunAll(Start(owners, n), steps, site)} ::
      Inv(RunAll(Start(owners, n), steps, site).market, site.caps)
  }

  lemma StartIsConsistent(owners: map<string, string>, n: nat, site: Site)
    ensures Inv(Start(owners, n).market, site.caps) && Vacant(Start(owners, n))
    ensures n <= 1 ==> AllFresh(Start(owners, n))
  {
  }

  lemma OfflineBreaks(m: Market, caps: Caps)
    requires "a" in LiveIds(m) && "a" in m.pods && m.pods["a"].nodes == ["n"]
    requires "n" in m.nodes && m.nodes["n"].status.Offline?
    ensures !Inv(m, caps)
  {
    assert "n" in m.pods["a"].nodes;
    assert "n" in Covered(m);
  }

  /** The market is consistent after every run exactly with a single session, or without any renter. */
  lemma AlwaysConsistentIff(n: nat, site: Site)
    ensures AlwaysConsistent(n, site) <==> n <= 1 || site.renters == 0
  {
    hide RunAll, Start, LateSweep, Inv, Base, Alone, AllFresh, Vacant, Careful, StaysConsistent;
    if n <= 1 || site.renters == 0 {
      forall owners, steps ensures Inv(RunAll(Start(owners, n), steps, site).market, site.caps)
      {
        var s := Start(owners, n);
        StartIsBase(owners, n, site.caps);
        StartIsAlone(owners, n);
        StartIsConsistent(owners, n, site);
        if n <= 1 {
          LoneSessionIsCareful(s, steps, site);
        } else {
          NoRenterIsCareful(s, steps, site);
        }
        StaysConsistentIff(s, steps, site);
        EndsConsistent(s, steps, site);
      }
    } else {
      LateSweepBreaks(map[], n, site);
      OfflineBreaks(RunAll(Start(map[], n), LateSweep(site.caps), site).market, site.caps);
    }
  }
}
