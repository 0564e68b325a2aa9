/** The InfiniBand admission checks: fabric mode, rate consistency, require_ib at rent, and the NCCL matrix. */
module FabricGates {
  import opened Common

  /** `state` is trimmed and lower-cased; an empty one was missing. Rates are non-negative by schema. */
  datatype Device = Device(name: string, state: string, rate: real)

  datatype Report = Report(node: string, devices: seq<Device>, rate: Option<real>)

  datatype Mode = Auto | Ib | Eth | NvlinkOnly | Unsupported

  datatype Policy = Soft | Flag | Strict

  const RATE_POLICY := Soft
  const STRICT_RATE_RATIO := 4.0

  predicate Usable(d: Device) {
    && d.name != "" && d.rate > 0.0
    && d.state != "down" && d.state != "disabled" && d.state != "inactive" && d.state != "error"
  }

  predicate HasActiveIb(r: Report) {
    exists i :: 0 <= i < |r.devices| && Usable(r.devices[i])
  }

  // ----- rates

  function MaxRate(devices: seq<Device>): (r: Option<real>)
    ensures r.Some? <==> exists i :: 0 <= i < |devices| && devices[i].rate > 0.0
    ensures r.Some? ==> r.value > 0.0
  {
    if devices == [] then None
    else
      var init, last := MaxRate(devices[..|devices| - 1]), devices[|devices| - 1];
      assert forall i :: 0 <= i < |devices| - 1 ==> devices[..|devices| - 1][i] == devices[i];
      if last.rate > 0.0 && (init.None? || last.rate > init.value) then Some(last.rate) else init
  }

  function NodeRate(r: Report): Option<real> {
    if r.rate.Some? && r.rate.value > 0.0 then r.rate else MaxRate(r.devices)
  }

  /** Positive rates of the nodes that have active devices. */
  function Rates(reports: seq<Report>): (rs: seq<real>)
    ensures forall i :: 0 <= i < |rs| ==> rs[i] > 0.0
  {
    if reports == [] then []
    else
      var init := Rates(reports[..|reports| - 1]);
      var last := reports[|reports| - 1];
      if HasActiveIb(last) && NodeRate(last).Some? && NodeRate(last).value > 0.0
        then init + [NodeRate(last).value] else init
  }

  function MinOf(rs: seq<real>): (x: real)
    requires rs != []
    ensures x in rs && forall y :: y in rs ==> x <= y
  {
    assert rs == rs[..|rs| - 1] + [rs[|rs| - 1]];
    if |rs| == 1 then rs[0]
    else
      var x := MinOf(rs[..|rs| - 1]);
      if rs[|rs| - 1] < x then rs[|rs| - 1] else x
  }

  function MaxOf(rs: seq<real>): (x: real)
    requires rs != []
    ensures x in rs && forall y :: y in rs ==> y <= x
  {
    assert rs == rs[..|rs| - 1] + [rs[|rs| - 1]];
    if |rs| == 1 then rs[0]
    else
      var x := MaxOf(rs[..|rs| - 1]);
      if rs[|rs| - 1] > x then rs[|rs| - 1] else x
  }

  predicate AllActive(reports: seq<Report>) {
    forall i :: 0 <= i < |reports| ==> HasActiveIb(reports[i])
  }

  /** Whether the reports may form one IB domain under a rate policy. */
  predicate MayPlaceIb(reports: seq<Report>, policy: Policy) {
    if reports == [] || !AllActive(reports) then false
    else
      var rs := Rates(reports);
      if rs == [] then false
      else
        var lo, hi := MinOf(rs), MaxOf(rs);
        !(hi != lo && policy == Strict && hi > STRICT_RATE_RATIO * lo)
  }

  // ----- fabric mode

  datatype Verdict = Verdict(maySucceed: bool, transport: string, failure: Option<string>)

  function EvaluateMode(mode: Mode, reports: seq<Report>): Verdict {
    if mode.Unsupported? then Verdict(false, "unknown", Some("invalid_fabric_mode"))
    else if reports == [] then
      if mode.Ib? then Verdict(false, "ib", Some("missing_ib"))
      else Verdict(true, if mode.Eth? then "eth" else "auto-eth", None)
    else
      match mode
      case Ib =>
        if !AllActive(reports) then Verdict(false, "ib", Some("missing_ib"))
        else if !MayPlaceIb(reports, RATE_POLICY) then Verdict(false, "ib", Some("ib_rate_mismatch"))
        else Verdict(true, "ib", None)
      case Eth => Verdict(true, "eth", None)
      case NvlinkOnly => Verdict(true, "nvlink", None)
      case _ =>
        if AllActive(reports) && MayPlaceIb(reports, RATE_POLICY) then Verdict(true, "ib", None)
        else Verdict(true, "auto-eth", None)
  }

  // ----- require_ib at rent

  /** Last report of a node. */
  function ById(reports: seq<Report>, node: string): (r: Option<Report>)
    ensures r.Some? ==> r.value.node == node && r.value in reports
  {
    if reports == [] then None
    else if reports[|reports| - 1].node == node then Some(reports[|reports| - 1])
    else ById(reports[..|reports| - 1], node)
  }

  /** The reports of the listed nodes that have one, in list order. */
  function Selected(reports: seq<Report>, ids: seq<string>): seq<Report> {
    if ids == [] then []
    else
      var init := Selected(reports, ids[..|ids| - 1]);
      var found := ById(reports, ids[|ids| - 1]);
      if found.Some? then init + [found.value] else init
  }

  function MissingIb(reports: seq<Report>, ids: seq<string>): seq<string> {
    if ids == [] then []
    else
      var init := MissingIb(reports, ids[..|ids| - 1]);
      var found := ById(reports, ids[|ids| - 1]);
      if found.None? || !HasActiveIb(found.value) then init + [ids[|ids| - 1]] else init
  }

  /** The answer of the rent-time check for a require_ib offer. */
  function RequireIbFault(reports: seq<Report>, ids: seq<string>): Option<string> {
    if MissingIb(reports, ids) != [] then Some("require_ib_not_satisfied")
    else if !MayPlaceIb(Selected(reports, ids), RATE_POLICY) then Some("require_ib_fabric_inconsistent")
    else None
  }

  /** The rent-time check with its loop over the nodes. */
  method EvaluateRequireIb(requireIb: bool, reports: seq<Report>, ids: seq<string>) returns (fault: Option<string>)
    ensures fault == if requireIb then RequireIbFault(reports, ids) else None
  {
    if !requireIb {
      return None;
    }
    var missing: seq<string>, chosen: seq<Report> := [], [];
    for i := 0 to |ids|
      invariant missing == MissingIb(reports, ids[..i]) && chosen == Selected(reports, ids[..i])
    {
      assert ids[..i + 1][..i] == ids[..i];
      var found := ById(reports, ids[i]);
      if found.None? || !HasActiveIb(found.value) {
        missing := missing + [ids[i]];
      }
      if found.Some? {
        chosen := chosen + [found.value];
      }
    }
    assert ids[..|ids|] == ids;
    if missing != [] {
      return Some("require_ib_not_satisfied");
    }
    if !MayPlaceIb(chosen, RATE_POLICY) {
      return Some("require_ib_fabric_inconsistent");
    }
    return None;
  }

  // ----- NCCL

  /** `NCCL_NET` of the environment matrix. */
  function NcclNet(mode: Mode, reports: seq<Report>): string {
    var v := EvaluateMode(mode, reports);
    if mode.Ib? && v.maySucceed && v.transport == "ib" then "IB"
    else if mode.Auto? && v.transport == "ib" then "IB"
    else "Socket"
  }

  // ----- agreement

  /** Under the module's soft policy a rate never rejects: every active node has a positive rate. */
  lemma {:induction false} ActiveNodesHaveRates(reports: seq<Report>)
    requires AllActive(reports)
    ensures |Rates(reports)| == |reports|
    decreases |reports|
  {
    if reports != [] {
      var init, last := reports[..|reports| - 1], reports[|reports| - 1];
      assert HasActiveIb(reports[|reports| - 1]);
      assert forall i :: 0 <= i < |init| ==> init[i] == reports[i];
      ActiveNodesHaveRates(init);
    }
  }

  lemma SoftPolicyNeverRejects(reports: seq<Report>)
    ensures MayPlaceIb(reports, RATE_POLICY) <==> reports != [] && AllActive(reports)
  {
  }

  /** Only the strict policy can reject an all-active domain, exactly when the rates spread beyond the ratio. */
  lemma StrictRejectsIff(reports: seq<Report>)
    requires reports != [] && AllActive(reports)
    ensures |Rates(reports)| == |reports|
    ensures !MayPlaceIb(reports, Strict) <==>
            exists a, b :: a in Rates(reports) && b in Rates(reports) && a > STRICT_RATE_RATIO * b
    ensures MayPlaceIb(reports, Strict) ==> MayPlaceIb(reports, Soft) && MayPlaceIb(reports, Flag)
  {
  }

  /** The fabric-mode check for `ib` is: there are reports and every node has an active device. */
  lemma IbModeIff(reports: seq<Report>)
    ensures EvaluateMode(Ib, reports).maySucceed <==> reports != [] && AllActive(reports)
    ensures EvaluateMode(Ib, reports).failure != Some("ib_rate_mismatch")
  {
  }

  /** Only mode `ib` can fail on a supported mode; every other one falls back to sockets. */
  lemma OnlyIbModeFails(mode: Mode, reports: seq<Report>)
    ensures EvaluateMode(mode, reports).maySucceed <==>
            !mode.Unsupported? && (mode.Ib? ==> reports != [] && AllActive(reports))
    ensures EvaluateMode(mode, reports).maySucceed <==> EvaluateMode(mode, reports).failure.None?
  {
  }

  /** The node's last report shows an active device. */
  predicate IbReported(reports: seq<Report>, node: string) {
    ById(reports, node).Some? && HasActiveIb(ById(reports, node).value)
  }

  lemma {:induction false} NoneMissing(reports: seq<Report>, ids: seq<string>)
    ensures MissingIb(reports, ids) == [] <==> forall n :: n in ids ==> IbReported(reports, n)
    ensures MissingIb(reports, ids) == [] ==> AllActive(Selected(reports, ids)) && |Selected(reports, ids)| == |ids|
    ensures (forall n :: n in ids ==> ById(reports, n).Some?) && AllActive(Selected(reports, ids)) ==>
              MissingIb(reports, ids) == []
    decreases |ids|
  {
    if ids != [] {
      var init, last := ids[..|ids| - 1], ids[|ids| - 1];
      NoneMissing(reports, init);
      assert ids == init + [last];
      var s, s' := Selected(reports, init), Selected(reports, ids);
      assert forall i :: 0 <= i < |s| ==> s'[i] == s[i];
      if ById(reports, last).Some? {
        assert s'[|s|] == ById(reports, last).value;
      }
      assert forall n :: n in ids <==> n in init || n == last;
      assert MissingIb(reports, ids) == [] <==> MissingIb(reports, init) == [] && IbReported(reports, last);
    }
  }

  /**
   Three independent checks agree. Renting a require_ib offer is allowed exactly when every node has a
   report and fabric mode `ib` accepts the selected reports, which is when each node's last report is active;
   the rates never decide.
   */
  lemma RentAgreesWithMode(reports: seq<Report>, ids: seq<string>)
    ensures ids != [] ==>
              (RequireIbFault(reports, ids).None? <==> forall n :: n in ids ==> IbReported(reports, n))
    ensures RequireIbFault(reports, ids).None? <==>
            && (forall n :: n in ids ==> ById(reports, n).Some?)
            && EvaluateMode(Ib, Selected(reports, ids)).maySucceed
    ensures ids != [] ==> RequireIbFault(reports, ids) != Some("require_ib_fabric_inconsistent")
  {
    NoneMissing(reports, ids);
    SoftPolicyNeverRejects(Selected(reports, ids));
    IbModeIff(Selected(reports, ids));
  }

  /** NCCL is told to use IB exactly in mode `ib` or `auto`, on reports that mode `ib` accepts. */
  lemma NcclAgreesWithMode(mode: Mode, reports: seq<Report>)
    ensures NcclNet(mode, reports) == "IB" <==> (mode.Ib? || mode.Auto?) && EvaluateMode(Ib, reports).maySucceed
    ensures NcclNet(mode, reports) == "IB" <==>
            EvaluateMode(mode, reports).maySucceed && EvaluateMode(mode, reports).transport == "ib"
  {
  }

  // ----- the pieces, from the reports themselves

  /** A node counts as active exactly for a named device with a rate whose state is none of the four bad ones. */
  lemma ActiveIff(r: Report)
    ensures HasActiveIb(r) <==>
            exists d :: d in r.devices && d.name != "" && d.rate > 0.0
                        && d.state !in {"down", "disabled", "inactive", "error"}
  {
    if HasActiveIb(r) {
      var i :| 0 <= i < |r.devices| && Usable(r.devices[i]);
      assert r.devices[i] in r.devices;
    }
  }

  lemma {:induction false} MaxRateIs(devices: seq<Device>)
    ensures MaxRate(devices).Some? ==>
              && (exists d :: d in devices && d.rate == MaxRate(devices).value)
              && forall d :: d in devices ==> d.rate <= MaxRate(devices).value
    ensures MaxRate(devices).None? <==> forall d :: d in devices ==> d.rate <= 0.0
    decreases |devices|
  {
    if devices != [] {
      var init, last := devices[..|devices| - 1], devices[|devices| - 1];
      MaxRateIs(init);
      assert devices == init + [last];
      assert forall d :: d in devices <==> d in init || d == last;
    }
  }

  /** The reported rate counts, else the best device's. */
  lemma NodeRateIs(r: Report)
    ensures r.rate.Some? && r.rate.value > 0.0 ==> NodeRate(r) == r.rate
    ensures !(r.rate.Some? && r.rate.value > 0.0) && NodeRate(r).Some? ==>
              && (exists d :: d in r.devices && d.rate == NodeRate(r).value)
              && forall d :: d in r.devices ==> d.rate <= NodeRate(r).value
  {
    MaxRateIs(r.devices);
  }

  /** The rates compared are those of the active nodes, in report order. */
  lemma {:induction false} RatesAre(reports: seq<Report>)
    requires AllActive(reports)
    ensures |Rates(reports)| == |reports|
    ensures forall i :: 0 <= i < |reports| ==> NodeRate(reports[i]) == Some(Rates(reports)[i])
    decreases |reports|
  {
    if reports != [] {
      var init, last := reports[..|reports| - 1], reports[|reports| - 1];
      ActiveNodesHaveRates(reports);
      ActiveNodesHaveRates(init);
      assert HasActiveIb(reports[|reports| - 1]);
      assert forall i :: 0 <= i < |init| ==> init[i] == reports[i];
      RatesAre(init);
      assert |Rates(reports)| == |Rates(init)| + 1;
    }
  }

  /** The strict policy allows a spread of four, and no more. */
  lemma StrictRatioIs(a: Report, b: Report)
    requires HasActiveIb(a) && HasActiveIb(b) && NodeRate(a).Some? && NodeRate(b).Some?
    ensures MayPlaceIb([a, b], Strict) <==>
            NodeRate(a).value <= 4.0 * NodeRate(b).value && NodeRate(b).value <= 4.0 * NodeRate(a).value
  {
    var reports := [a, b];
    RatesAre(reports);
    StrictRejectsIff(reports);
    var rs := Rates(reports);
    assert NodeRate(reports[0]) == Some(rs[0]) && NodeRate(reports[1]) == Some(rs[1]);
    assert forall x :: x in rs <==> x == rs[0] || x == rs[1];
    hide Rates, MayPlaceIb, NodeRate;
  }

  /** Every verdict of the mode check: transport and failure code. */
  lemma ModeTable(mode: Mode, reports: seq<Report>)
    ensures var v := EvaluateMode(mode, reports);
            var active := reports != [] && forall r :: r in reports ==> HasActiveIb(r);
            match mode
            case Unsupported => v == Verdict(false, "unknown", Some("invalid_fabric_mode"))
            case Ib => v == if active then Verdict(true, "ib", None) else Verdict(false, "ib", Some("missing_ib"))
            case Eth => v == Verdict(true, "eth", None)
            case NvlinkOnly => v == Verdict(true, if reports == [] then "auto-eth" else "nvlink", None)
            case Auto => v == Verdict(true, if active then "ib" else "auto-eth", None)
  {
    SoftPolicyNeverRejects(reports);
    if AllActive(reports) {
      assert forall r :: r in reports ==> exists i :: 0 <= i < |reports| && reports[i] == r;
    }
    assert forall i :: 0 <= i < |reports| ==> reports[i] in reports;
  }

  /** The report that counts is the last one of the node, and every node with reports has one. */
  lemma {:induction false} ByIdIsLast(reports: seq<Report>, node: string)
    ensures ById(reports, node).None? <==> forall r :: r in reports ==> r.node != node
    ensures forall i :: 0 <= i < |reports| && reports[i].node == node
                        && (forall k :: i < k < |reports| ==> reports[k].node != node) ==>
              ById(reports, node) == Some(reports[i])
    decreases |reports|
  {
    if reports != [] {
      var init, last := reports[..|reports| - 1], reports[|reports| - 1];
      ByIdIsLast(init, node);
      assert reports == init + [last];
      assert forall i :: 0 <= i < |init| ==> init[i] == reports[i];
      assert last in reports && forall r :: r in init ==> r in reports;
    }
  }
}
