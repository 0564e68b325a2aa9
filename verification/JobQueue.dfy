/** The concurrency budget, the fair queue, and one drain round over all jobs. */
module JobQueue {
  import opened Common
  import opened JobRecords
  import opened JobHistory
  import opened Totals

  // ----- the budget gate

  function WorldHeld(f: JobFile): nat {
    if Holds(f.job.status) then f.job.worldSize else 0
  }

  function LargeHeld(threshold: nat): JobFile -> nat {
    (f: JobFile) => if Holds(f.job.status) && f.job.worldSize >= threshold then 1 else 0
  }

  /** A setting of 0 falls back to its default. */
  function Cap(setting: nat, fallback: nat): (r: nat)
    ensures fallback > 0 ==> r > 0
  {
    if setting == 0 then fallback else setting
  }

  function Threshold(cfg: Config): nat { Cap(cfg.largeThreshold, 4) }
  function MaxLarge(cfg: Config): nat { Cap(cfg.maxLarge, 4) }
  function MaxWorld(cfg: Config): nat { Cap(cfg.maxWorld, 64) }

  predicate CanAdmit(files: seq<JobFile>, j: nat, cfg: Config)
    requires j < |files|
  {
    var size := files[j].job.worldSize;
    && !(size >= Threshold(cfg) && Total(Others(files, j), LargeHeld(Threshold(cfg))) >= MaxLarge(cfg))
    && Total(Others(files, j), WorldHeld) + size <= MaxWorld(cfg)
  }

  ghost predicate WithinBudget(files: seq<JobFile>, cfg: Config) {
    && Total(files, WorldHeld) <= MaxWorld(cfg)
    && Total(files, LargeHeld(Threshold(cfg))) <= MaxLarge(cfg)
  }

  /** The large jobs that hold budget. */
  ghost function LargeHolders(files: seq<JobFile>, large: nat): set<nat> {
    set i: nat | i < |files| && files[i].job.worldSize >= large
                 && (files[i].job.status.Provisioning? || files[i].job.status.Running?
                     || files[i].job.status.Collecting? || files[i].job.status.Scoring?)
  }

  lemma LargeTotalCounts(files: seq<JobFile>, large: nat)
    ensures Total(files, LargeHeld(large)) == |LargeHolders(files, large)|
  {
    TotalCounts(files, LargeHeld(large));
    assert Ones(files, LargeHeld(large)) == LargeHolders(files, large);
  }

  /**
   The gate of a job that holds nothing yet is open exactly if it still fits: all worlds held and its own within the
   budget, and, if it is large, one more large job within their limit. Settings of 0 stand for 64, 4 and 4.
   */
  lemma GateIs(files: seq<JobFile>, j: nat, cfg: Config)
    requires j < |files| && !Holds(files[j].job.status)
    ensures var size := files[j].job.worldSize;
            var budget := if cfg.maxWorld > 0 then cfg.maxWorld else 64;
            var limit := if cfg.maxLarge > 0 then cfg.maxLarge else 4;
            var large := if cfg.largeThreshold > 0 then cfg.largeThreshold else 4;
            CanAdmit(files, j, cfg) <==>
              && Total(files, WorldHeld) + size <= budget
              && (size >= large ==> |LargeHolders(files, large)| < limit)
  {
    TotalSplit(files, j, WorldHeld);
    TotalSplit(files, j, LargeHeld(Threshold(cfg)));
    LargeTotalCounts(files, Threshold(cfg));
  }

  /** Only a worker step entering `provisioning` starts holding budget, and only past an open gate. */
  lemma HoldingNeedsRoom(f: JobFile, op: Op, s: Setup)
    requires Open(f.job.status) || Terminal(f.job.status)
    ensures var g := Commit(f, op, s);
            Holds(g.job.status) && !Holds(f.job.status) ==> op.DoAdvance? && op.roomy
  {
  }

  /** A transaction on one job, with the worker's gate read from the same table, keeps the budget. */
  lemma CommitKeepsBudget(files: seq<JobFile>, j: nat, op: Op, s: Setup)
    requires j < |files| && FileOk(files[j]) && WithinBudget(files, s.cfg)
    requires op.DoAdvance? ==> op.roomy == CanAdmit(files, j, s.cfg)
    ensures WithinBudget(files[j := Commit(files[j], op, s)], s.cfg)
  {
    var g := Commit(files[j], op, s);
    var large := LargeHeld(Threshold(s.cfg));
    HoldingNeedsRoom(files[j], op, s);
    CommitMovesForward(files[j], op, s);
    TotalUpdate(files, j, g, WorldHeld);
    TotalUpdate(files, j, g, large);
    TotalSplit(files, j, WorldHeld);
    TotalSplit(files, j, large);
  }

  // ----- the fair queue

  /** Smaller jobs first, older first among equals. */
  predicate NotAfter(a: Job, b: Job) {
    a.worldSize < b.worldSize || (a.worldSize == b.worldSize && a.created <= b.created)
  }

  ghost predicate Distinct(ids: seq<nat>) {
    forall i, k :: 0 <= i < k < |ids| ==> ids[i] != ids[k]
  }

  ghost predicate InTable(files: seq<JobFile>, ids: seq<nat>) {
    forall i :: 0 <= i < |ids| ==> ids[i] < |files|
  }

  /** Any answer the ordered, limited query may give (rows that compare equal come in any order). */
  ghost predicate IsFairQueue(files: seq<JobFile>, limit: nat, ids: seq<nat>) {
    && InTable(files, ids) && Distinct(ids) && |ids| <= limit
    && (forall i :: 0 <= i < |ids| ==> Open(files[ids[i]].job.status))
    && (forall i, k :: 0 <= i < k < |ids| ==> NotAfter(files[ids[i]].job, files[ids[k]].job))
    && (forall j: nat :: j < |files| && Open(files[j].job.status) && j !in ids ==>
          && |ids| == limit
          && forall i :: 0 <= i < |ids| ==> NotAfter(files[ids[i]].job, files[j].job))
  }

  /** The queue lists open jobs from small to large, older ones first among equals, and leaves out the last. */
  lemma QueueOrder(files: seq<JobFile>, limit: nat, ids: seq<nat>, i: nat, k: nat)
    requires IsFairQueue(files, limit, ids) && i < |ids| && ids[i] < |files| && k < |files| && k != ids[i]
    requires Open(files[k].job.status) && (k !in ids || exists j :: i < j < |ids| && ids[j] == k)
    ensures var a, b := files[ids[i]].job, files[k].job;
            a.worldSize < b.worldSize || (a.worldSize == b.worldSize && a.created <= b.created)
  {
    if j :| i < j < |ids| && ids[j] == k {
      assert NotAfter(files[ids[i]].job, files[ids[j]].job);
    } else {
      assert NotAfter(files[ids[i]].job, files[k].job);
    }
  }

  // ----- one drain round

  function AdvanceAt(files: seq<JobFile>, j: nat, cfg: Config, w: World): (r: seq<JobFile>)
    requires j < |files|
    ensures |r| == |files|
  {
    files[j := Advance(files[j], CanAdmit(files, j, cfg), cfg, w)]
  }

  function Drain(files: seq<JobFile>, ids: seq<nat>, worlds: seq<World>, cfg: Config): (r: seq<JobFile>)
    requires InTable(files, ids) && |worlds| == |ids|
    ensures |r| == |files|
    decreases |ids|
  {
    if ids == [] then files else Drain(AdvanceAt(files, ids[0], cfg, worlds[0]), ids[1..], worlds[1..], cfg)
  }
}
