/** The job table over whole runs: admission, cancels, result posts, single claims and drains. */
module JobTable {
  import opened Common
  import opened JobRecords
  import opened JobHistory
  import opened JobQueue
  import opened Totals
  import opened DrainProgress

  datatype Limits = Limits(maxWorldSize: nat, maxNnodes: nat, maxNproc: nat, maxTimeoutS: nat, maxGpus: nat)

  /** `fault` is the first static fault outside this model (image, entrypoint, enum or env field). */
  datatype Request = Request(hotkey: string, key: Option<string>, worldSize: int, nnodes: int, nproc: int,
                             timeoutS: int, gpus: Option<int>, lease: Option<string>, pod: Option<string>,
                             fault: Option<string>)

  datatype Admission = Rejected(code: string) | Existing(at: nat) | Created(at: nat)

  /** The requested shape is a full grid of positive dimensions within the caps, or the first complaint. */
  function ShapeFault(r: Request, l: Limits): (fault: Option<string>)
    ensures fault.None? <==>
              && r.worldSize == r.nnodes * r.nproc && r.nnodes >= 1 && r.nproc >= 1 && r.worldSize >= 1
              && r.worldSize <= l.maxWorldSize && r.nnodes <= l.maxNnodes && r.nproc <= l.maxNproc
              && 1 <= r.timeoutS <= l.maxTimeoutS && r.worldSize <= l.maxGpus
              && (r.gpus.Some? ==> 0 <= r.gpus.value <= l.maxGpus)
  {
    if r.worldSize < 1 then Some("invalid_world_size")
    else if r.nnodes < 1 then Some("invalid_nnodes")
    else if r.nproc < 1 then Some("invalid_nproc_per_node")
    else if r.worldSize != r.nnodes * r.nproc then Some("world_size_mismatch")
    else if r.worldSize > l.maxWorldSize || r.nnodes > l.maxNnodes || r.nproc > l.maxNproc
            || r.timeoutS > l.maxTimeoutS then Some("budget_exceeded")
    else if r.timeoutS < 1 then Some("invalid_timeout_s")
    else if r.gpus.Some? && r.gpus.value < 0 then Some("invalid_resource")
    else if (r.gpus.Some? && r.gpus.value > l.maxGpus) || r.worldSize > l.maxGpus then Some("budget_exceeded")
    else None
  }

  /** Position of the job a submitter created under a request key, or the length. */
  function FindRequest(files: seq<JobFile>, hotkey: string, key: Option<string>): (i: nat)
    ensures i <= |files|
    ensures i < |files| ==> files[i].job.submitter == hotkey && files[i].job.requestKey == key
    ensures forall k :: 0 <= k < i ==> !(files[k].job.submitter == hotkey && files[k].job.requestKey == key)
  {
    if files == [] then 0
    else if files[0].job.submitter == hotkey && files[0].job.requestKey == key then 0
    else 1 + FindRequest(files[1..], hotkey, key)
  }

  function RequestKey(r: Request): Option<string> {
    if Truthy(r.key) then r.key else None
  }

  function NewJob(r: Request, now: Time): Job
    requires r.worldSize >= 0 && r.nnodes >= 0 && r.nproc >= 0
  {
    Job(r.hotkey, RequestKey(r), Admitted, r.worldSize, r.nnodes, r.nproc, r.timeoutS, r.lease, r.pod,
        now, Some(now), None, None, None)
  }

  function Admit(files: seq<JobFile>, r: Request, l: Limits, now: Time): (seq<JobFile>, Admission) {
    if r.hotkey == "" then (files, Rejected("missing_hotkey"))
    else
      var at := if RequestKey(r).Some? then FindRequest(files, r.hotkey, RequestKey(r)) else |files|;
      if at < |files| then (files, Existing(at))
      else if r.fault.Some? then (files, Rejected(r.fault.value))
      else if ShapeFault(r, l).Some? then (files, Rejected(ShapeFault(r, l).value))
      else (files + [JobFile(NewJob(r, now), [], [], None)], Created(|files|))
  }

  /** A complaint about the shape names the first limit that is broken. */
  lemma ShapeCodes(r: Request, l: Limits)
    ensures var shaped := r.worldSize >= 1 && r.nnodes >= 1 && r.nproc >= 1;
            var grid := shaped && r.worldSize == r.nnodes * r.nproc;
            var small := grid && r.worldSize <= l.maxWorldSize && r.nnodes <= l.maxNnodes && r.nproc <= l.maxNproc
                         && r.timeoutS <= l.maxTimeoutS;
            && (ShapeFault(r, l) == Some("invalid_world_size") <==> r.worldSize < 1)
            && (ShapeFault(r, l) == Some("invalid_nnodes") <==> r.worldSize >= 1 && r.nnodes < 1)
            && (ShapeFault(r, l) == Some("invalid_nproc_per_node") <==>
                  r.worldSize >= 1 && r.nnodes >= 1 && r.nproc < 1)
            && (ShapeFault(r, l) == Some("world_size_mismatch") <==> shaped && !grid)
            && (ShapeFault(r, l) == Some("invalid_timeout_s") <==> small && r.timeoutS < 1)
            && (ShapeFault(r, l) == Some("invalid_resource") <==>
                  small && r.timeoutS >= 1 && r.gpus.Some? && r.gpus.value < 0)
            && (ShapeFault(r, l) == Some("budget_exceeded") <==>
                  grid && (!small || (r.timeoutS >= 1 && (r.worldSize > l.maxGpus || r.gpus.GetOr(0) > l.maxGpus)
                                      && r.gpus.GetOr(0) >= 0)))
  {
  }

  /**
   A named submitter's request is answered by the first job under its key, refused for its first fault, or admitted:
   an open job on exactly the requested terms, with nothing done yet. No other row changes.
   */
  lemma AdmitWrites(files: seq<JobFile>, r: Request, l: Limits, now: Time)
    ensures var (g, out) := Admit(files, r, l, now);
            var keyed := r.key.Some? && r.key.value != "";
            var known := keyed && exists j :: 0 <= j < |files| && files[j].job.submitter == r.hotkey
                                              && files[j].job.requestKey == r.key;
            && (r.hotkey == "" ==> out == Rejected("missing_hotkey"))
            && (out.Existing? <==> r.hotkey != "" && known)
            && (out.Existing? ==>
                  && out.at < |files| && files[out.at].job.submitter == r.hotkey
                  && files[out.at].job.requestKey == r.key)
            && (r.hotkey != "" && !known && r.fault.Some? ==> out == Rejected(r.fault.value))
            && (out.Created? <==> r.hotkey != "" && !known && r.fault.None? && ShapeFault(r, l).None?)
            && (!out.Created? ==> g == files)
            && (out.Created? ==>
                  && out.at == |files| && r.worldSize >= 0 && r.nnodes >= 0 && r.nproc >= 0
                  && g == files + [JobFile(Job(submitter := r.hotkey, requestKey := if keyed then r.key else None,
                                               status := Admitted, worldSize := r.worldSize, nnodes := r.nnodes,
                                               nproc := r.nproc, timeoutS := r.timeoutS, lease := r.lease, pod := r.pod,
                                               created := now, admitted := Some(now), started := None,
                                               finished := None, failure := None), [], [], None)])
  {
    hide ShapeFault;
  }

  // ----- runs

  datatype TableOp =
    | Submit(request: Request, at: Time)
    | OnJob(job: nat, op: Op)
    | DrainRound(ids: seq<nat>, worlds: seq<World>)

  datatype Site = Site(setup: Setup, limits: Limits)

  /**
   A cancel, post or single claim on a job that does not exist changes nothing; a worker's step always
   reads the gate from the table it runs on.
   */
  function Apply(files: seq<JobFile>, op: TableOp, site: Site): seq<JobFile> {
    match op
    case Submit(r, now) => Admit(files, r, site.limits, now).0
    case OnJob(j, o) =>
      if j >= |files| then files
      else
        var o' := if o.DoAdvance? then o.(roomy := CanAdmit(files, j, site.setup.cfg)) else o;
        files[j := Commit(files[j], o', site.setup)]
    case DrainRound(ids, worlds) =>
      if |worlds| == |ids| && (forall i :: 0 <= i < |ids| ==> ids[i] < |files|)
      then Drain(files, ids, worlds, site.setup.cfg)
      else files
  }

  function ApplyAll(files: seq<JobFile>, ops: seq<TableOp>, site: Site): seq<JobFile>
    decreases |ops|
  {
    if ops == [] then files else ApplyAll(Apply(files, ops[0], site), ops[1..], site)
  }

  ghost predicate OneJobPerRequest(files: seq<JobFile>) {
    forall i, k :: 0 <= i < k < |files| && files[i].job.requestKey.Some? ==>
      !(files[i].job.submitter == files[k].job.submitter && files[i].job.requestKey == files[k].job.requestKey)
  }

  ghost predicate RowsOk(files: seq<JobFile>) {
    forall j :: 0 <= j < |files| ==>
      && FileOk(files[j])
      && files[j].job.worldSize == files[j].job.nnodes * files[j].job.nproc && files[j].job.worldSize >= 1
  }

  ghost predicate TableOk(files: seq<JobFile>, cfg: Config) {
    RowsOk(files) && OneJobPerRequest(files) && WithinBudget(files, cfg)
  }

  lemma NewJobOk(r: Request, now: Time)
    requires r.worldSize >= 0 && r.nnodes >= 0 && r.nproc >= 0
    ensures FileOk(JobFile(NewJob(r, now), [], [], None))
  {
  }

  lemma AdmitKeepsTable(files: seq<JobFile>, r: Request, l: Limits, now: Time, cfg: Config)
    requires TableOk(files, cfg)
    ensures TableOk(Admit(files, r, l, now).0, cfg)
  {
    var (g, outcome) := Admit(files, r, l, now);
    if outcome.Created? {
      assert g[..|g| - 1] == files;
      NewJobOk(r, now);
      hide FileOk;
    }
  }

  lemma OnJobKeepsTable(files: seq<JobFile>, j: nat, op: Op, s: Setup)
    requires TableOk(files, s.cfg) && j < |files|
    requires op.DoAdvance? ==> op.roomy == CanAdmit(files, j, s.cfg)
    ensures TableOk(files[j := Commit(files[j], op, s)], s.cfg)
  {
    CommitSafe(files[j], op, s);
    CommitMovesForward(files[j], op, s);
    CommitKeepsBudget(files, j, op, s);
    hide Commit, WithinBudget;
  }

  lemma {:induction false} DrainKeepsTable(files: seq<JobFile>, ids: seq<nat>, worlds: seq<World>, s: Setup)
    requires TableOk(files, s.cfg) && InTable(files, ids) && |worlds| == |ids|
    ensures TableOk(Drain(files, ids, worlds, s.cfg), s.cfg)
    decreases |ids|
  {
    if ids != [] {
      OnJobKeepsTable(files, ids[0], DoAdvance(CanAdmit(files, ids[0], s.cfg), worlds[0]), s);
      DrainKeepsTable(AdvanceAt(files, ids[0], s.cfg, worlds[0]), ids[1..], worlds[1..], s);
    }
  }

  lemma ApplyKeepsTable(files: seq<JobFile>, op: TableOp, site: Site)
    requires TableOk(files, site.setup.cfg)
    ensures TableOk(Apply(files, op, site), site.setup.cfg)
  {
    match op
    case Submit(r, now) => AdmitKeepsTable(files, r, site.limits, now, site.setup.cfg);
    case OnJob(j, o) =>
      if j < |files| {
        var shown := if o.DoAdvance? then o.(roomy := CanAdmit(files, j, site.setup.cfg)) else o;
        OnJobKeepsTable(files, j, shown, site.setup);
      }
    case DrainRound(ids, worlds) =>
      if |worlds| == |ids| && (forall i :: 0 <= i < |ids| ==> ids[i] < |files|) {
        DrainKeepsTable(files, ids, worlds, site.setup);
      }
  }

  /**
   In every state reachable from an empty table the budget holds, every job record is consistent and
   no two jobs answer the same request key.
   */
  lemma {:induction false} EveryRunKeepsTable(ops: seq<TableOp>, site: Site)
    ensures TableOk(ApplyAll([], ops, site), site.setup.cfg)
  {
    RunKeepsTable([], ops, site);
  }

  lemma {:induction false} RunKeepsTable(files: seq<JobFile>, ops: seq<TableOp>, site: Site)
    requires TableOk(files, site.setup.cfg)
    ensures TableOk(ApplyAll(files, ops, site), site.setup.cfg)
    decreases |ops|
  {
    if ops != [] {
      ApplyKeepsTable(files, ops[0], site);
      RunKeepsTable(Apply(files, ops[0], site), ops[1..], site);
    }
  }

  // ----- replays of an admission

  /** Rows are never removed, and who submitted one under which key never changes. */
  ghost predicate SameJobs(a: seq<JobFile>, b: seq<JobFile>) {
    && |a| <= |b|
    && forall j :: 0 <= j < |a| ==>
         b[j].job.submitter == a[j].job.submitter && b[j].job.requestKey == a[j].job.requestKey
  }

  lemma OnJobKeepsJobs(files: seq<JobFile>, j: nat, op: Op, s: Setup)
    requires RowsOk(files) && j < |files|
    ensures SameJobs(files, files[j := Commit(files[j], op, s)])
  {
    hide Commit;
    CommitMovesForward(files[j], op, s);
  }

  lemma {:induction false} DrainKeepsJobs(files: seq<JobFile>, ids: seq<nat>, worlds: seq<World>, s: Setup)
    requires TableOk(files, s.cfg) && InTable(files, ids) && |worlds| == |ids|
    ensures SameJobs(files, Drain(files, ids, worlds, s.cfg))
    decreases |ids|
  {
    hide Advance, CanAdmit;
    if ids != [] {
      var op := DoAdvance(CanAdmit(files, ids[0], s.cfg), worlds[0]);
      OnJobKeepsTable(files, ids[0], op, s);
      OnJobKeepsJobs(files, ids[0], op, s);
      DrainKeepsJobs(AdvanceAt(files, ids[0], s.cfg, worlds[0]), ids[1..], worlds[1..], s);
    }
  }

  lemma ApplyKeepsJobs(files: seq<JobFile>, op: TableOp, site: Site)
    requires TableOk(files, site.setup.cfg)
    ensures SameJobs(files, Apply(files, op, site))
  {
    match op
    case Submit(r, now) =>
    case OnJob(j, o) =>
      if j < |files| {
        var shown := if o.DoAdvance? then o.(roomy := CanAdmit(files, j, site.setup.cfg)) else o;
        OnJobKeepsJobs(files, j, shown, site.setup);
      }
    case DrainRound(ids, worlds) =>
      if |worlds| == |ids| && (forall i :: 0 <= i < |ids| ==> ids[i] < |files|) {
        DrainKeepsJobs(files, ids, worlds, site.setup);
      }
  }

  lemma {:induction false} RunKeepsJobs(files: seq<JobFile>, ops: seq<TableOp>, site: Site)
    requires TableOk(files, site.setup.cfg)
    ensures SameJobs(files, ApplyAll(files, ops, site))
    decreases |ops|
  {
    hide Apply, TableOk;
    if ops != [] {
      ApplyKeepsTable(files, ops[0], site);
      ApplyKeepsJobs(files, ops[0], site);
      RunKeepsJobs(Apply(files, ops[0], site), ops[1..], site);
    }
  }

  /**
   Submitting under a request key that was answered before, however much later and with whatever body, returns
   the same job and changes nothing.
   */
  lemma ResubmitReplays(files: seq<JobFile>, r: Request, now: Time, ops: seq<TableOp>, again: Request, later: Time,
                        site: Site)
    requires TableOk(files, site.setup.cfg) && r.hotkey != "" && RequestKey(r).Some?
    requires again.hotkey == r.hotkey && RequestKey(again) == RequestKey(r)
    requires !Admit(files, r, site.limits, now).1.Rejected?
    ensures var (admitted, first) := Admit(files, r, site.limits, now);
            var table := ApplyAll(admitted, ops, site);
            Admit(table, again, site.limits, later) == (table, Existing(first.at))
  {
    hide Apply, ApplyAll, RowsOk, WithinBudget;
    var (admitted, first) := Admit(files, r, site.limits, now);
    var table := ApplyAll(admitted, ops, site);
    AdmitKeepsTable(files, r, site.limits, now, site.setup.cfg);
    RunKeepsTable(admitted, ops, site);
    RunKeepsJobs(admitted, ops, site);
    var at := FindRequest(table, again.hotkey, RequestKey(again));
    assert admitted[first.at].job.submitter == r.hotkey && admitted[first.at].job.requestKey == RequestKey(r);
    assert table[first.at].job.submitter == r.hotkey && table[first.at].job.requestKey == RequestKey(r);
    assert at == first.at;
  }

  // ----- drains of reachable tables

  ghost predicate SizesWithin(files: seq<JobFile>, cap: nat) {
    forall j :: 0 <= j < |files| ==> files[j].job.worldSize <= cap
  }

  lemma {:induction false} RunKeepsSizes(files: seq<JobFile>, ops: seq<TableOp>, site: Site)
    requires TableOk(files, site.setup.cfg) && SizesWithin(files, site.limits.maxWorldSize)
    ensures SizesWithin(ApplyAll(files, ops, site), site.limits.maxWorldSize)
    decreases |ops|
  {
    if ops != [] {
      var next := Apply(files, ops[0], site);
      ApplyKeepsTable(files, ops[0], site);
      assert SizesWithin(next, site.limits.maxWorldSize) by {
        match ops[0]
        case Submit(r, now) =>
        case OnJob(j, o) =>
          if j < |files| {
            CommitMovesForward(files[j], if o.DoAdvance? then o.(roomy := CanAdmit(files, j, site.setup.cfg)) else o,
                               site.setup);
          }
        case DrainRound(ids, worlds) =>
          if |worlds| == |ids| && (forall i :: 0 <= i < |ids| ==> ids[i] < |files|) {
            DrainMoves(files, ids, worlds, site.setup.cfg);
          }
      }
      RunKeepsSizes(next, ops[1..], site);
    }
  }

  /**
   Whatever happened before, once at most `limit` jobs are open seven rounds per job finish them all,
   provided admission never accepts a job larger than the budget.
   */
  lemma ReachableTablesDrain(ops: seq<TableOp>, site: Site, limit: nat, trace: seq<seq<JobFile>>)
    requires site.setup.cfg.simAuto && site.limits.maxWorldSize <= MaxWorld(site.setup.cfg)
    requires trace != [] && trace[0] == ApplyAll([], ops, site) && |OpenIds(trace[0])| <= limit
    requires forall i :: 0 <= i < |trace| - 1 ==> Round(trace[i], trace[i + 1], site.setup.cfg, limit)
    requires |trace| > 7 * |trace[0]|
    ensures OpenIds(trace[|trace| - 1]) == {}
  {
    EveryRunKeepsTable(ops, site);
    RunKeepsSizes([], ops, site);
    SevenRoundsPerJob(trace, site.setup.cfg, limit);
  }

  // ----- the starved table is reachable

  function Ask(size: int): Request {
    Request("hk", None, size, size, 1, 1, None, None, None, None)
  }

  function Calm(): World {
    World(0, 0, Capacity(map[], map[]), Placed(""), LaunchTimedOut("", ""))
  }

  function Arrival(j: nat, size: nat): seq<TableOp> {
    [Submit(Ask(size), 0), OnJob(j, DoAdvance(true, Calm()))]
  }

  /** A full-budget job is admitted and placed, then `limit` one-rank jobs arrive. */
  function Jam(cfg: Config, limit: nat): seq<TableOp> {
    if limit == 0 then Arrival(0, MaxWorld(cfg)) else Jam(cfg, limit - 1) + Arrival(limit, 1)
  }

  ghost predicate Jammed(files: seq<JobFile>, cfg: Config) {
    && files != []
    && Holds(files[0].job.status) && files[0].job.worldSize == MaxWorld(cfg)
    && forall j :: 1 <= j < |files| ==>
         var f := files[j].job;
         f.status.Placing? && f.started.None? && f.lease.None? && f.pod.None? && f.worldSize == 1
  }

  lemma {:induction false} ApplyAllConcat(files: seq<JobFile>, a: seq<TableOp>, b: seq<TableOp>, site: Site)
    ensures ApplyAll(files, a + b, site) == ApplyAll(ApplyAll(files, a, site), b, site)
    decreases |a|
  {
    if a == [] {
      assert a + b == b;
    } else {
      assert (a + b)[1..] == a[1..] + b;
      ApplyAllConcat(Apply(files, a[0], site), a[1..], b, site);
    }
  }

  lemma {:induction false} TwoSteps(files: seq<JobFile>, j: nat, size: nat, site: Site)
    ensures ApplyAll(files, Arrival(j, size), site)
         == Apply(Apply(files, Submit(Ask(size), 0), site), OnJob(j, DoAdvance(true, Calm())), site)
  {
    var ops := Arrival(j, size);
    var next := Apply(files, ops[0], site);
    assert ops[1..] == [ops[1]] && ops[1..][1..] == [];
    assert ApplyAll(next, ops[1..], site) == ApplyAll(Apply(next, ops[1], site), [], site);
  }

  ghost predicate Admits(limits: Limits, size: nat) {
    size <= limits.maxWorldSize && size <= limits.maxNnodes && 1 <= limits.maxNproc && 1 <= limits.maxTimeoutS
    && size <= limits.maxGpus
  }

  /** The giant is admitted into an empty table and claims the whole budget. */
  lemma {:induction false} GiantStarts(site: Site)
    requires site.setup.cfg.simAuto && MaxWorld(site.setup.cfg) >= 2 && Admits(site.limits, MaxWorld(site.setup.cfg))
    ensures var files := ApplyAll([], Arrival(0, MaxWorld(site.setup.cfg)), site);
            |files| == 1 && Jammed(files, site.setup.cfg)
  {
    var cfg := site.setup.cfg;
    TwoSteps([], 0, MaxWorld(cfg), site);
    var files := Apply([], Submit(Ask(MaxWorld(cfg)), 0), site);
    assert files == [JobFile(NewJob(Ask(MaxWorld(cfg)), 0), [], [], None)];
    IdleGateOpens(files, 0, cfg);
  }

  /** Behind it a one-rank job is admitted, bound and left in placing. */
  lemma {:induction false} MicroWaits(before: seq<JobFile>, site: Site)
    requires site.setup.cfg.simAuto && MaxWorld(site.setup.cfg) >= 2 && Admits(site.limits, MaxWorld(site.setup.cfg))
    requires Jammed(before, site.setup.cfg)
    ensures var files := ApplyAll(before, Arrival(|before|, 1), site);
            |files| == |before| + 1 && Jammed(files, site.setup.cfg)
  {
    var cfg := site.setup.cfg;
    TwoSteps(before, |before|, 1, site);
    var files := Apply(before, Submit(Ask(1), 0), site);
    assert files == before + [JobFile(NewJob(Ask(1), 0), [], [], None)];
    assert files[0] == before[0];
    GiantClosesGate(files, cfg, 0, |before|);
  }

  lemma {:induction false} JamJams(site: Site, limit: nat)
    requires site.setup.cfg.simAuto && MaxWorld(site.setup.cfg) >= 2 && Admits(site.limits, MaxWorld(site.setup.cfg))
    ensures var files := ApplyAll([], Jam(site.setup.cfg, limit), site);
            |files| == limit + 1 && Jammed(files, site.setup.cfg)
  {
    if limit == 0 {
      GiantStarts(site);
    } else {
      var before := ApplyAll([], Jam(site.setup.cfg, limit - 1), site);
      JamJams(site, limit - 1);
      hide Jammed, ApplyAll;
      ApplyAllConcat([], Jam(site.setup.cfg, limit - 1), Arrival(limit, 1), site);
      MicroWaits(before, site);
    }
  }

  /** Ordinary admissions and worker steps reach, from an empty table, a state that no round ever changes. */
  lemma StarvationIsReachable(site: Site, limit: nat)
    requires site.setup.cfg.simAuto && MaxWorld(site.setup.cfg) >= 2 && Admits(site.limits, MaxWorld(site.setup.cfg))
    ensures Starved(ApplyAll([], Jam(site.setup.cfg, limit), site), site.setup.cfg, limit, 0)
  {
    JamJams(site, limit);
    var files := ApplyAll([], Jam(site.setup.cfg, limit), site);
    hide ApplyAll, Jam;
    assert OpenIds(files) == Range(limit + 1);
  }
}
