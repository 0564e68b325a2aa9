/** Which readings in flight can take the marks of a live lease, its rented nodes and its leased offer, away. */
module TenantMarks {
  import opened Common
  import opened Sessions
  import opened MarketState
  import opened MarketRuns
  import opened MarketRaces
  import opened MarketScripts
  import opened TenancyRaces
  import opened ConsistencyRaces

  // ----- nodes

  /** The session may take node `n` from the tenant of lease `l` without ending the lease. */
  ghost predicate Threat(m: Market, pc: Pc, l: string, n: string) {
    match pc
    case Marking(marks) => n in marks && marks[n].status.Some? && !marks[n].status.value.Rented?
    case Renting(r, _) => r.offer in m.offers && n in m.offers[r.offer].nodes
    case Closing(ids, _, unread, marks) => l !in ids && (n in marks || n in Held(m, unread))
    case _ => false
  }

  /** Lease `l` is live, and alone in holding node `n`, which shows it. */
  ghost predicate Tenant(m: Market, l: string, n: string) {
    && l in LiveIds(m) && l in m.pods && n in m.pods[l].nodes
    && n in m.nodes && m.nodes[n].status.Rented?
    && forall k :: k in LiveIds(m) && k in m.pods && k != l ==> n !in m.pods[k].nodes
  }

  ghost predicate Unthreatened(s: State, l: string, n: string) {
    forall i :: 0 <= i < |s.sessions| ==> !Threat(s.market, s.sessions[i], l, n)
  }

  lemma HeldSplits(m: Market, ids: set<string>, k: string)
    requires k in ids
    ensures Held(m, ids) == Held(m, {k}) + Held(m, ids - {k})
  {
  }

  lemma OthersHoldNot(m: Market, l: string, n: string, ids: set<string>)
    requires Tenant(m, l, n) && l !in ids && ids <= LiveIds(m)
    ensures n !in Held(m, ids)
  {
  }

  /** Whoever reads the node now sees it rented, and leaves it so. */
  lemma NodeReadIsNoThreat(m: Market, i: nat, pc: Pc, q: Query, site: Site, l: string, n: string)
    requires Tenant(m, l, n) && !Threat(m, pc, l, n)
    requires q.StaleNodes? || q.Tenants? || q.TenantNodes? || q.OwnedNodes? || q.NodeRow?
    ensures !Threat(m, Read(m, i, pc, q, site), l, n)
  {
    hide Covered, Held, LiveIds;
  }

  /** Whoever closes leases now and not `l` has no claim on the node. */
  lemma CloserIsNoThreat(m: Market, i: nat, pc: Pc, q: Query, site: Site, l: string, n: string)
    requires Tenant(m, l, n) && !Threat(m, pc, l, n)
    requires q.LeaseRow? || q.DueLeases? || q.PodNodes?
    ensures !Threat(m, Read(m, i, pc, q, site), l, n)
  {
    hide Held;
    match q
    case PodNodes(k) =>
      if pc.Closing? && k in pc.unread && l !in pc.ids {
        HeldSplits(m, pc.unread, k);
      }
    case LeaseRow(_, id) =>
      if id in LiveIds(m) && id != l {
        OthersHoldNot(m, l, n, {id});
      }
    case DueLeases(now) =>
      if l !in Due(m, now) {
        OthersHoldNot(m, l, n, Due(m, now));
      }
  }

  lemma ReadIsNoThreat(m: Market, i: nat, pc: Pc, q: Query, site: Site, l: string, n: string)
    requires Tenant(m, l, n) && !Threat(m, pc, l, n)
    ensures !Threat(m, Read(m, i, pc, q, site), l, n)
  {
    hide OfferFault, OfferRow, NodesPass, OfferPasses, HasLiveLease, Covered, Held, Dirty, Heartbeat, Register,
      MarkStaleOffline, Occupy, Release;
    match q
    case StaleNodes(_) | Tenants | TenantNodes | OwnedNodes(_, _, _) | NodeRow(_, _, _, _) =>
      NodeReadIsNoThreat(m, i, pc, q, site, l, n);
    case LeaseRow(_, _) | DueLeases(_) | PodNodes(_) => CloserIsNoThreat(m, i, pc, q, site, l, n);
    case LiveLeases =>
      if pc.Choosing? && pc.request.offer in m.offers && n in m.offers[pc.request.offer].nodes {
        assert n in Elems(m.pods[l].nodes) && n in Elems(m.offers[pc.request.offer].nodes);
      }
    case _ =>
  }

  lemma MarksLeaveTenant(m: Market, marks: Marks, l: string, n: string)
    requires Tenant(m, l, n) && (n in marks && marks[n].status.Some? ==> marks[n].status.value.Rented?)
    ensures Tenant(m.(nodes := Apply(m.nodes, marks)), l, n)
  {
  }

  lemma RentLeavesTenant(m: Market, caps: Caps, pc: Pc, id: string, now: real, l: string, n: string)
    requires Tenant(m, l, n) && !Threat(m, pc, l, n) && pc.Renting?
    requires PendingOk(m, caps, pc) && Insertable(m, pc, id)
    ensures Tenant(Written(m, pc, id, now), l, n)
  {
    hide Occupy;
  }

  lemma CloseLeavesTenant(m: Market, caps: Caps, pc: Pc, id: string, now: real, l: string, n: string)
    requires Tenant(m, l, n) && !Threat(m, pc, l, n) && pc.Closing? && PendingOk(m, caps, pc)
    ensures var m' := Written(m, pc, id, now); l in LiveIds(m') ==> Tenant(m', l, n)
  {
    hide Held, Release;
    var m' := Written(m, pc, id, now);
    assert LiveIds(m') == LiveIds(m) - pc.ids;
  }

  lemma WriteLeavesTenant(m: Market, caps: Caps, pc: Pc, id: string, now: real, l: string, n: string)
    requires Tenant(m, l, n) && !Threat(m, pc, l, n) && PendingOk(m, caps, pc) && Insertable(m, pc, id)
    ensures var m' := Written(m, pc, id, now); l in LiveIds(m') ==> Tenant(m', l, n)
  {
    hide Apply, Held, RentRows, Close;
    match pc
    case Marking(marks) => MarksLeaveTenant(m, marks, l, n);
    case Renting(_, _) => RentLeavesTenant(m, caps, pc, id, now, l, n);
    case Closing(_, _, _, _) => CloseLeavesTenant(m, caps, pc, id, now, l, n);
    case _ =>
  }

  /** A session is no more of a threat after others have written. */
  lemma ThreatsDoNotGrow(m: Market, m': Market, caps: Caps, pc: Pc, l: string, n: string)
    requires Sound(m, caps) && PendingOk(m, caps, pc) && Onward(m, m') && !Threat(m, pc, l, n)
    ensures !Threat(m', pc, l, n)
  {
    if pc.Closing? {
      assert forall k :: k in pc.unread ==> k in m.pods && m'.pods[k].nodes == m.pods[k].nodes;
      assert Held(m', pc.unread) == Held(m, pc.unread);
    }
  }

  lemma StepLeavesTenant(s: State, step: Step, site: Site, l: string, n: string)
    requires Base(s, site.caps) && Tenant(s.market, l, n) && Unthreatened(s, l, n)
    ensures var e := Do(s, step, site); l in LiveIds(e.market) ==> Tenant(e.market, l, n) && Unthreatened(e, l, n)
  {
    hide Read, Written, Sound, PendingOk, Threat, Tenant, LiveIds, Insertable, Onward;
    DoKeepsBase(s, step, site);
    IdleIsNoThreat(s.market, l, n);
    if step.session < |s.sessions| {
      var i, pc := step.session, s.sessions[step.session];
      assert !Threat(s.market, pc, l, n);
      if step.Look? {
        ReadIsNoThreat(s.market, i, pc, step.query, site, l, n);
      } else if step.Write? && Ready(pc) && Insertable(s.market, pc, step.id) {
        var m' := Written(s.market, pc, step.id, step.now);
        WriteLeavesTenant(s.market, site.caps, pc, step.id, step.now, l, n);
        IdleIsNoThreat(m', l, n);
        forall k | 0 <= k < |s.sessions| ensures !Threat(m', s.sessions[k], l, n)
        {
          ThreatsDoNotGrow(s.market, m', site.caps, s.sessions[k], l, n);
        }
      }
    }
  }

  lemma IdleIsNoThreat(m: Market, l: string, n: string)
    ensures !Threat(m, Idle, l, n)
  {
  }

  lemma EndedStaysEnded(s: State, steps: seq<Step>, site: Site, l: string)
    requires Base(s, site.caps) && l in s.market.leases && l !in LiveIds(s.market)
    ensures l !in LiveIds(RunAll(s, steps, site).market)
  {
    hide RunAll;
    EveryRunGoesOnward(s, steps, site);
  }

  lemma {:induction false} UnthreatenedStays(s: State, steps: seq<Step>, site: Site, l: string, n: string)
    requires Base(s, site.caps) && Tenant(s.market, l, n) && Unthreatened(s, l, n)
    ensures var e := RunAll(s, steps, site); l in LiveIds(e.market) ==> Tenant(e.market, l, n)
    decreases |steps|
  {
    hide Do, Base, Tenant, Unthreatened;
    if steps != [] {
      var next := Do(s, steps[0], site);
      StepLeavesTenant(s, steps[0], site, l, n);
      DoKeepsBase(s, steps[0], site);
      if l in LiveIds(next.market) {
        UnthreatenedStays(next, steps[1..], site, l, n);
      } else {
        assert l in next.market.leases by { LeasesStay(s.market, next.market, l, n); }
        EndedStaysEnded(next, steps[1..], site, l);
      }
    }
  }

  lemma LeasesStay(m: Market, m': Market, l: string, n: string)
    requires Tenant(m, l, n) && Onward(m, m')
    ensures l in m'.leases
  {
  }

  // ----- how a threat comes true

  /** The lease still lives and the node no longer shows it. */
  ghost predicate Lost(m: Market, l: string, n: string) {
    l in LiveIds(m) && n in m.nodes && !m.nodes[n].status.Rented?
  }

  lemma MarkTakes(s: State, i: nat, site: Site, l: string, n: string)
    requires i < |s.sessions| && s.sessions[i].Marking? && Tenant(s.market, l, n)
    requires Threat(s.market, s.sessions[i], l, n)
    ensures Lost(Do(s, Write(i, "", 0.0), site).market, l, n)
  {
  }

  lemma CloserTakes(s: State, i: nat, site: Site, l: string, n: string)
    requires Base(s, site.caps) && i < |s.sessions| && Ready(s.sessions[i]) && s.sessions[i].Closing?
    requires Tenant(s.market, l, n) && Threat(s.market, s.sessions[i], l, n)
    ensures Lost(Do(s, Write(i, "", 0.0), site).market, l, n)
  {
    hide Sound, Release;
    assert PendingOk(s.market, site.caps, s.sessions[i]);
    assert n !in Held(s.market, {}) && n in s.sessions[i].marks;
  }

  /** A closer reads the nodes of its remaining leases. */
  lemma {:induction false} CloserReads(s: State, i: nat, site: Site, l: string, n: string) returns (steps: seq<Step>)
    requires Base(s, site.caps) && i < |s.sessions| && s.sessions[i].Closing? && Tenant(s.market, l, n)
    requires Threat(s.market, s.sessions[i], l, n)
    ensures var e := RunAll(s, steps, site);
            && Base(e, site.caps) && e.market == s.market && |e.sessions| == |s.sessions|
            && Ready(e.sessions[i]) && e.sessions[i].Closing? && Threat(s.market, e.sessions[i], l, n)
    decreases |s.sessions[i].unread|
  {
    hide Base, Tenant, Read, Do, RunAll;
    var pc := s.sessions[i];
    if pc.unread == {} {
      steps := [];
      NoSteps(s, site);
    } else {
      var k :| k in pc.unread;
      var next := Do(s, Look(i, PodNodes(k)), site);
      DoLook(s, i, PodNodes(k), site);
      ReadOnePod(s.market, i, pc, k, site, l, n);
      DoKeepsBase(s, Look(i, PodNodes(k)), site);
      var rest := CloserReads(next, i, site, l, n);
      steps := [Look(i, PodNodes(k))] + rest;
      RunConcat(s, [Look(i, PodNodes(k))], rest, site);
      RunOne(s, Look(i, PodNodes(k)), site);
    }
  }

  lemma NoSteps(s: State, site: Site)
    ensures RunAll(s, [], site) == s
  {
  }

  lemma ReadOnePod(m: Market, i: nat, pc: Pc, k: string, site: Site, l: string, n: string)
    requires pc.Closing? && k in pc.unread && Tenant(m, l, n) && Threat(m, pc, l, n)
    ensures var r := Read(m, i, pc, PodNodes(k), site);
            r.Closing? && |r.unread| < |pc.unread| && Threat(m, r, l, n)
  {
    HeldSplits(m, pc.unread, k);
    hide Held, LiveIds;
  }

  /** There is always an unused id. */
  lemma FreshId(m: Market) returns (id: string)
    ensures id !in m.leases && id !in m.pods
  {
    var k := LongerThanAll(m.leases.Keys + m.pods.Keys);
    id := seq(k, _ => 'x');
  }

  lemma LongerThanAll(ids: set<string>) returns (k: nat)
    ensures forall id :: id in ids ==> |id| < k
    decreases |ids|
  {
    if ids == {} {
      k := 0;
    } else {
      var id :| id in ids;
      var r := LongerThanAll(ids - {id});
      k := if |id| < r then r else |id| + 1;
    }
  }

  /** A second tenant moves in, and frees the node by moving out. */
  lemma RenterTakes(s: State, i: nat, site: Site, l: string, n: string) returns (steps: seq<Step>)
    requires Base(s, site.caps) && i < |s.sessions| && s.sessions[i].Renting?
    requires Tenant(s.market, l, n) && Threat(s.market, s.sessions[i], l, n)
    ensures Lost(RunAll(s, steps, site).market, l, n)
  {
    hide Base, Tenant, Threat, Do, RunAll, Terminate, Written;
    var r := s.sessions[i].request;
    var id := FreshId(s.market);
    var write := Write(i, id, 0.0);
    var op := DoTerminate(r.renter, id);
    var rented := Do(s, write, site);
    RentingIsPending(s, i, site.caps);
    DoWrite(s, i, id, 0.0, site);
    UninterruptedSessions(rented, i, op, [], site);
    RunOne(s, write, site);
    steps := [write] + Script(i, op, []);
    RunConcat(s, [write], Script(i, op, []), site);
    RentThenTerminate(s.market, site.caps, s.sessions[i], id, l, n);
  }
  lemma RentingIsPending(s: State, i: nat, caps: Caps)
    requires Base(s, caps) && i < |s.sessions| && s.sessions[i].Renting?
    ensures PendingOk(s.market, caps, s.sessions[i]) && s.sessions[i].request.offer in s.market.offers
  {
  }

  lemma RentThenTerminate(m: Market, caps: Caps, pc: Pc, id: string, l: string, n: string)
    requires pc.Renting? && PendingOk(m, caps, pc) && Insertable(m, pc, id) && Tenant(m, l, n) && Threat(m, pc, l, n)
    ensures Lost(Terminate(Written(m, pc, id, 0.0), pc.request.renter, id).0, l, n)
  {
    hide Occupy;
    var m' := Written(m, pc, id, 0.0);
    assert l in LiveIds(m') && m'.nodes[n].status.Rented?;
    assert n in Held(m', {id}) by { assert n in m'.pods[id].nodes; }
    hide Held;
  }

  /** A lease's node shows its tenant in every run, for as long as the lease lives. */
  ghost predicate StaysRented(s: State, site: Site, l: string, n: string) {
    forall steps {:trigger RunAll(s, steps, site)} :: !Lost(RunAll(s, steps, site).market, l, n)
  }

  /**
   As long as its lease lives, a tenant's node stays rented through every later run exactly if no session still
   holds an older reading under which it would mark or free the node, or rent it a second time.
   */
  lemma StaysRentedIff(s: State, site: Site, l: string, n: string)
    requires Base(s, site.caps) && Tenant(s.market, l, n)
    ensures StaysRented(s, site, l, n) <==> Unthreatened(s, l, n)
  {
    hide RunAll, Do, Base, Threat, Tenant, Lost;
    if Unthreatened(s, l, n) {
      forall steps ensures !Lost(RunAll(s, steps, site).market, l, n)
      {
        UnthreatenedStays(s, steps, site, l, n);
        TenantHasNotLost(RunAll(s, steps, site).market, l, n);
      }
    } else {
      var i :| 0 <= i < |s.sessions| && Threat(s.market, s.sessions[i], l, n);
      ThreatTakes(s, i, site, l, n);
    }
  }

  lemma TenantHasNotLost(m: Market, l: string, n: string)
    ensures Tenant(m, l, n) || l !in LiveIds(m) ==> !Lost(m, l, n)
  {
  }

  lemma ThreatTakes(s: State, i: nat, site: Site, l: string, n: string)
    requires Base(s, site.caps) && Tenant(s.market, l, n)
    requires i < |s.sessions| && Threat(s.market, s.sessions[i], l, n)
    ensures exists steps :: Lost(RunAll(s, steps, site).market, l, n)
  {
    hide RunAll, Do, Base, Tenant, Lost, Held;
    var write := Write(i, "", 0.0);
    match s.sessions[i]
    case Marking(_) =>
      RunOne(s, write, site);
      MarkTakes(s, i, site, l, n);
    case Closing(_, _, _, _) =>
      var before := CloserReads(s, i, site, l, n);
      var read := RunAll(s, before, site);
      CloserTakes(read, i, site, l, n);
      RunOne(read, write, site);
      RunConcat(s, before, [write], site);
    case Renting(_, _) =>
      var steps := RenterTakes(s, i, site, l, n);
  }

  // ----- offers

  /** No session has found `o` without a live lease and is about to withdraw it. */
  ghost predicate NoWithdraw(s: State, o: string) {
    forall i :: 0 <= i < |s.sessions| ==> s.sessions[i] != Withdrawing(o)
  }

  ghost predicate ShowsLease(m: Market, l: string) {
    && l in LiveIds(m) && m.leases[l].offer in m.offers && m.offers[m.leases[l].offer].status.Leased?
  }

  /** A withdraw that looks now finds the lease. */
  lemma WithdrawIsRefused(m: Market, i: nat, pc: Pc, q: Query, site: Site, l: string)
    requires ShowsLease(m, l) && pc != Withdrawing(m.leases[l].offer)
    ensures Read(m, i, pc, q, site) != Withdrawing(m.leases[l].offer)
  {
    hide OfferFault, OfferRow, NodesPass, OfferPasses, Covered, Held, Dirty, Heartbeat, Register, MarkStaleOffline,
      Occupy, Release, ExclusiveFree;
    if pc.Viewing? && pc.offer == m.leases[l].offer {
      assert HasLiveLease(m, pc.offer);
    }
  }

  lemma WriteKeepsShown(m: Market, pc: Pc, id: string, now: real, l: string)
    requires ShowsLease(m, l) && pc != Withdrawing(m.leases[l].offer) && Insertable(m, pc, id)
    ensures var m' := Written(m, pc, id, now);
            l in LiveIds(m') ==> ShowsLease(m', l) && m'.leases[l].offer == m.leases[l].offer
  {
    hide Apply, Occupy, Release, Held;
  }

  lemma StepKeepsShown(s: State, step: Step, site: Site, l: string)
    requires ShowsLease(s.market, l) && NoWithdraw(s, s.market.leases[l].offer)
    ensures var e := Do(s, step, site);
            l in LiveIds(e.market) ==> ShowsLease(e.market, l) && e.market.leases[l].offer == s.market.leases[l].offer
                                       && NoWithdraw(e, e.market.leases[l].offer)
  {
    hide Read, Written, Insertable;
    if step.session < |s.sessions| {
      var pc := s.sessions[step.session];
      match step
      case Look(i, q) => WithdrawIsRefused(s.market, i, pc, q, site, l);
      case Write(_, id, now) =>
        if Ready(pc) && Insertable(s.market, pc, id) {
          WriteKeepsShown(s.market, pc, id, now, l);
        }
      case Abandon(_) =>
    }
  }

  lemma {:induction false} NoWithdrawStays(s: State, steps: seq<Step>, site: Site, l: string)
    requires Base(s, site.caps) && ShowsLease(s.market, l) && NoWithdraw(s, s.market.leases[l].offer)
    ensures var m := RunAll(s, steps, site).market; l in LiveIds(m) ==> ShowsLease(m, l)
    decreases |steps|
  {
    hide Do, Base;
    if steps != [] {
      var next := Do(s, steps[0], site);
      StepKeepsShown(s, steps[0], site, l);
      DoKeepsBase(s, steps[0], site);
      if l in LiveIds(next.market) {
        NoWithdrawStays(next, steps[1..], site, l);
      } else {
        EndedStaysEnded(next, steps[1..], site, l);
      }
    }
  }

  /** As long as its lease lives, an offer stays leased in every run. */
  ghost predicate StaysLeased(s: State, site: Site, l: string) {
    forall steps {:trigger RunAll(s, steps, site)} ::
      l in LiveIds(RunAll(s, steps, site).market) ==> ShowsLease(RunAll(s, steps, site).market, l)
  }

  /** It does exactly if no session looked for a live lease on it before there was one, and may still withdraw it. */
  lemma StaysLeasedIff(s: State, site: Site, l: string)
    requires Base(s, site.caps) && ShowsLease(s.market, l)
    ensures StaysLeased(s, site, l) <==> NoWithdraw(s, s.market.leases[l].offer)
  {
    hide RunAll, Do, Base;
    var o := s.market.leases[l].offer;
    if NoWithdraw(s, o) {
      forall steps | l in LiveIds(RunAll(s, steps, site).market)
        ensures ShowsLease(RunAll(s, steps, site).market, l)
      {
        NoWithdrawStays(s, steps, site, l);
      }
    } else {
      var i :| 0 <= i < |s.sessions| && s.sessions[i] == Withdrawing(o);
      RunOne(s, Write(i, "", 0.0), site);
      WithdrawTakes(s, i, site, l);
    }
  }

  lemma WithdrawTakes(s: State, i: nat, site: Site, l: string)
    requires ShowsLease(s.market, l) && i < |s.sessions| && s.sessions[i] == Withdrawing(s.market.leases[l].offer)
    ensures var m := Do(s, Write(i, "", 0.0), site).market; l in LiveIds(m) && !ShowsLease(m, l)
  {
  }
}
