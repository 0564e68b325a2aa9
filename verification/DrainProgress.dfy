/** When drain rounds move jobs, when they finish them all, and the queue that never moves. */
module DrainProgress {
  import opened Common
  import opened JobRecords
  import opened JobHistory
  import opened JobQueue
  import opened Totals

  function OpenIds(files: seq<JobFile>): set<nat> {
    set j: nat | j < |files| && Open(files[j].job.status)
  }

  ghost predicate Sane(files: seq<JobFile>) {
    forall j :: 0 <= j < |files| ==> Open(files[j].job.status) || Terminal(files[j].job.status)
  }

  /** The two tables agree on everything the gate and the queue's filter look at. */
  ghost predicate SameView(a: seq<JobFile>, b: seq<JobFile>) {
    && |a| == |b|
    && forall j {:trigger a[j]} {:trigger b[j]} :: 0 <= j < |a| ==>
         a[j].job.status == b[j].job.status && a[j].job.worldSize == b[j].job.worldSize
  }

  /** The job is in `placing` and this worker step leaves it there: no capacity yet, or no budget. */
  predicate Waits(f: JobFile, roomy: bool, cfg: Config, w: World) {
    && f.job.status.Placing? && !TimeoutDue(f.job, w.now)
    && var bind := TryBind(f.job, w.capacity, cfg, w.now);
       bind.Wait? || (bind.Bound? && !roomy)
  }

  lemma WaitsIffUnmoved(f: JobFile, roomy: bool, cfg: Config, w: World)
    requires Open(f.job.status)
    ensures Advance(f, roomy, cfg, w).job.status == f.job.status <==> Waits(f, roomy, cfg, w)
  {
    if !f.job.status.Submitted? && !f.job.status.Admitted? && !f.job.status.Placing? {
      assert ClaimNext(f, roomy, cfg, w).job.status != f.job.status;
    }
  }

  lemma GateSeesView(a: seq<JobFile>, b: seq<JobFile>, j: nat, cfg: Config)
    requires SameView(a, b) && j < |a|
    ensures CanAdmit(a, j, cfg) == CanAdmit(b, j, cfg)
  {
    var x, y := Others(a, j), Others(b, j);
    forall i | 0 <= i < |x|
      ensures x[i].job.status == y[i].job.status && x[i].job.worldSize == y[i].job.worldSize
    {
      var k := if i < j then i else i + 1;
      assert x[i] == a[k] && y[i] == b[k];
    }
    TotalPointwise(x, y, WorldHeld);
    TotalPointwise(x, y, LargeHeld(Threshold(cfg)));
  }

  lemma {:induction false} DrainMoves(files: seq<JobFile>, ids: seq<nat>, worlds: seq<World>, cfg: Config)
    requires Sane(files) && InTable(files, ids) && |worlds| == |ids|
    ensures var r := Drain(files, ids, worlds, cfg);
            && Sane(r)
            && forall j :: 0 <= j < |files| ==>
                 && Distance(r[j].job.status) <= Distance(files[j].job.status)
                 && (Distance(r[j].job.status) == Distance(files[j].job.status) ==>
                   r[j].job.status == files[j].job.status)
                 && r[j].job.worldSize == files[j].job.worldSize
    decreases |ids|
  {
    if ids != [] {
      var j := ids[0];
      AdvanceMoves(files[j], CanAdmit(files, j, cfg), cfg, worlds[0]);
      DrainMoves(AdvanceAt(files, j, cfg, worlds[0]), ids[1..], worlds[1..], cfg);
    }
  }

  ghost predicate WaitsAt(files: seq<JobFile>, ids: seq<nat>, worlds: seq<World>, cfg: Config, i: nat)
    requires InTable(files, ids) && |worlds| == |ids| && i < |ids|
  {
    Waits(files[ids[i]], CanAdmit(files, ids[i], cfg), cfg, worlds[i])
  }

  ghost predicate AllWait(files: seq<JobFile>, ids: seq<nat>, worlds: seq<World>, cfg: Config)
    requires InTable(files, ids) && |worlds| == |ids|
  {
    forall i :: 0 <= i < |ids| ==> WaitsAt(files, ids, worlds, cfg, i)
  }

  /** Once the first listed job is known not to have moved, the rest of the queue sees the same table. */
  lemma AllWaitTail(files: seq<JobFile>, ids: seq<nat>, worlds: seq<World>, cfg: Config)
    requires ids != [] && InTable(files, ids) && Distinct(ids) && |worlds| == |ids|
    requires SameView(files, AdvanceAt(files, ids[0], cfg, worlds[0]))
    ensures AllWait(files, ids, worlds, cfg) <==>
            && WaitsAt(files, ids, worlds, cfg, 0)
            && AllWait(AdvanceAt(files, ids[0], cfg, worlds[0]), ids[1..], worlds[1..], cfg)
  {
    var next := AdvanceAt(files, ids[0], cfg, worlds[0]);
    forall i: nat | i + 1 < |ids|
      ensures WaitsAt(next, ids[1..], worlds[1..], cfg, i) == WaitsAt(files, ids, worlds, cfg, i + 1)
    {
      assert ids[0] != ids[i + 1];
      GateSeesView(files, next, ids[i + 1], cfg);
    }
    if AllWait(next, ids[1..], worlds[1..], cfg) && WaitsAt(files, ids, worlds, cfg, 0) {
      forall i | 0 <= i < |ids|
        ensures WaitsAt(files, ids, worlds, cfg, i)
      {
        assert i > 0 ==> WaitsAt(next, ids[1..], worlds[1..], cfg, i - 1);
      }
    }
  }

  /** A drain round changes no status if and only if every listed job waits as the table stands. */
  lemma {:induction false} DrainStallsIff(files: seq<JobFile>, ids: seq<nat>, worlds: seq<World>, cfg: Config)
    requires Sane(files) && InTable(files, ids) && Distinct(ids) && |worlds| == |ids|
    requires forall i :: 0 <= i < |ids| ==> Open(files[ids[i]].job.status)
    ensures SameView(files, Drain(files, ids, worlds, cfg)) <==> AllWait(files, ids, worlds, cfg)
    decreases |ids|
  {
    hide Advance, CanAdmit, Waits;
    if ids != [] {
      var j := ids[0];
      var next := AdvanceAt(files, j, cfg, worlds[0]);
      var r := Drain(next, ids[1..], worlds[1..], cfg);
      AdvanceMoves(files[j], CanAdmit(files, j, cfg), cfg, worlds[0]);
      WaitsIffUnmoved(files[j], CanAdmit(files, j, cfg), cfg, worlds[0]);
      DrainMoves(next, ids[1..], worlds[1..], cfg);
      if next[j].job.status == files[j].job.status {
        assert SameView(files, next);
        AllWaitTail(files, ids, worlds, cfg);
        forall i | 0 <= i < |ids[1..]|
          ensures Open(next[ids[1..][i]].job.status)
        {
          assert Open(files[ids[i + 1]].job.status);
        }
        DrainStallsIff(next, ids[1..], worlds[1..], cfg);
      } else {
        assert r[j].job.status != files[j].job.status;
        assert !WaitsAt(files, ids, worlds, cfg, 0);
      }
    }
  }

  // ----- progress and termination under simulated capacity

  /** The setting in which the queue must drain: capacity is simulated and every open job fits the budget alone. */
  ghost predicate Drainable(files: seq<JobFile>, cfg: Config, limit: nat) {
    && Sane(files) && cfg.simAuto && |OpenIds(files)| <= limit
    && forall j :: 0 <= j < |files| && Open(files[j].job.status) ==> files[j].job.worldSize <= MaxWorld(cfg)
  }

  lemma {:induction false} DistinctCard(ids: seq<nat>)
    requires Distinct(ids)
    ensures |Elems(ids)| == |ids|
    decreases |ids|
  {
    if ids != [] {
      var init, last := ids[..|ids| - 1], ids[|ids| - 1];
      DistinctCard(init);
      assert ids == init + [last];
      assert last !in Elems(init);
      assert Elems(ids) == Elems(init) + {last};
    }
  }

  /** With at most `limit` open jobs the query lists every one of them. */
  lemma QueueListsAll(files: seq<JobFile>, limit: nat, ids: seq<nat>)
    requires IsFairQueue(files, limit, ids) && |OpenIds(files)| <= limit
    ensures forall j: nat :: j < |files| && Open(files[j].job.status) ==> j in ids
  {
    DistinctCard(ids);
    forall j: nat | j < |files| && Open(files[j].job.status)
      ensures j in ids
    {
      if j !in ids {
        var found := Elems(ids) + {j};
        assert |found| == limit + 1;
        assert found <= OpenIds(files);
        SubsetCard(found, OpenIds(files));
        assert false;
      }
    }
  }

  lemma {:induction false} SubsetCard(a: set<nat>, b: set<nat>)
    requires a <= b
    ensures |a| <= |b|
    decreases b
  {
    if x :| x in a {
      SubsetCard(a - {x}, b - {x});
    }
  }

  lemma SimulatedCapacityNeverWaits(j: Job, cap: Capacity, cfg: Config, now: Time)
    requires cfg.simAuto
    ensures !TryBind(j, cap, cfg, now).Wait?
  {
  }

  /** When nothing is past `placing`, the gate is open for every job that fits the budget alone. */
  lemma IdleGateOpens(files: seq<JobFile>, j: nat, cfg: Config)
    requires j < |files| && files[j].job.worldSize <= MaxWorld(cfg)
    requires forall k :: 0 <= k < |files| ==> !Holds(files[k].job.status)
    ensures CanAdmit(files, j, cfg)
  {
    TotalPointwise(files, files, WorldHeld);
    TotalPointwise(files, files, LargeHeld(Threshold(cfg)));
    TotalSplit(files, j, WorldHeld);
    TotalSplit(files, j, LargeHeld(Threshold(cfg)));
  }

  /** Every round moves some job while any job is open. */
  lemma RoundMakesProgress(files: seq<JobFile>, cfg: Config, limit: nat, ids: seq<nat>, worlds: seq<World>)
    requires Drainable(files, cfg, limit) && OpenIds(files) != {}
    requires IsFairQueue(files, limit, ids) && |worlds| == |ids|
    ensures !SameView(files, Drain(files, ids, worlds, cfg))
  {
    hide Advance, TryBind, TimeoutDue, CanAdmit;
    QueueListsAll(files, limit, ids);
    var open :| open in OpenIds(files);
    assert open in ids;
    DrainStallsIff(files, ids, worlds, cfg);
    if AllWait(files, ids, worlds, cfg) {
      assert WaitsAt(files, ids, worlds, cfg, 0);
      forall k | 0 <= k < |files|
        ensures !Holds(files[k].job.status)
      {
        if Open(files[k].job.status) {
          var i :| 0 <= i < |ids| && ids[i] == k;
          assert WaitsAt(files, ids, worlds, cfg, i);
        }
      }
      IdleGateOpens(files, ids[0], cfg);
      SimulatedCapacityNeverWaits(files[ids[0]].job, worlds[0].capacity, cfg, worlds[0].now);
      assert false;
    }
  }

  /** One worker tick: some fair listing, advanced job by job under some world. */
  ghost predicate Round(a: seq<JobFile>, b: seq<JobFile>, cfg: Config, limit: nat) {
    exists ids: seq<nat>, worlds: seq<World> ::
      IsFairQueue(a, limit, ids) && |worlds| == |ids| && b == Drain(a, ids, worlds, cfg)
  }

  function Left(f: JobFile): nat {
    Distance(f.job.status)
  }

  lemma {:induction false} TotalDrops(a: seq<JobFile>, b: seq<JobFile>)
    requires |a| == |b| && forall j {:trigger Left(a[j])} {:trigger Left(b[j])} ::
                             0 <= j < |a| ==> Left(b[j]) <= Left(a[j])
    ensures Total(b, Left) <= Total(a, Left)
    ensures Total(b, Left) == Total(a, Left) ==> forall j :: 0 <= j < |a| ==> Left(b[j]) == Left(a[j])
    decreases |a|
  {
    if a != [] {
      var n := |a| - 1;
      assert forall j :: 0 <= j < n ==> a[..n][j] == a[j] && b[..n][j] == b[j];
      TotalDrops(a[..n], b[..n]);
      assert Left(b[n]) <= Left(a[n]);
      if Total(b, Left) == Total(a, Left) {
        forall j | 0 <= j < |a| ensures Left(b[j]) == Left(a[j])
        {
          if j < n {
            assert Left(b[..n][j]) == Left(a[..n][j]);
          }
        }
      }
    }
  }

  /** A round keeps the queue drainable and brings the jobs strictly closer to the end. */
  lemma RoundBringsCloser(a: seq<JobFile>, b: seq<JobFile>, cfg: Config, limit: nat)
    requires Drainable(a, cfg, limit) && Round(a, b, cfg, limit)
    ensures |a| == |b| && Drainable(b, cfg, limit) && OpenIds(b) <= OpenIds(a)
    ensures OpenIds(a) != {} ==> Total(b, Left) < Total(a, Left)
  {
    hide Advance, TryBind, TimeoutDue, CanAdmit;
    var ids: seq<nat>, worlds: seq<World> :|
      IsFairQueue(a, limit, ids) && |worlds| == |ids| && b == Drain(a, ids, worlds, cfg);
    DrainMoves(a, ids, worlds, cfg);
    assert OpenIds(b) <= OpenIds(a);
    SubsetCard(OpenIds(b), OpenIds(a));
    TotalDrops(a, b);
    if OpenIds(a) != {} && Total(b, Left) == Total(a, Left) {
      assert SameView(a, b) by {
        assert forall j :: 0 <= j < |a| ==> Left(b[j]) == Left(a[j]);
      }
      RoundMakesProgress(a, cfg, limit, ids, worlds);
      assert false;
    }
  }

  /** After as many rounds as there are forward edges left, every job is terminal. */
  lemma {:induction false} RoundsFinish(trace: seq<seq<JobFile>>, cfg: Config, limit: nat)
    requires trace != [] && Drainable(trace[0], cfg, limit)
    requires forall i :: 0 <= i < |trace| - 1 ==> Round(trace[i], trace[i + 1], cfg, limit)
    requires |trace| - 1 >= Total(trace[0], Left)
    ensures OpenIds(trace[|trace| - 1]) == {}
    decreases |trace|
  {
    hide Drainable, Round, Total;
    if |trace| == 1 {
      TotalZero(trace[0]);
    } else {
      RoundBringsCloser(trace[0], trace[1], cfg, limit);
      if OpenIds(trace[0]) == {} {
        StaysFinished(trace, cfg, limit);
      } else {
        assert forall i :: 0 <= i < |trace[1..]| - 1 ==> trace[1..][i] == trace[i + 1];
        RoundsFinish(trace[1..], cfg, limit);
      }
    }
  }

  lemma {:induction false} StaysFinished(trace: seq<seq<JobFile>>, cfg: Config, limit: nat)
    requires trace != [] && Drainable(trace[0], cfg, limit) && OpenIds(trace[0]) == {}
    requires forall i :: 0 <= i < |trace| - 1 ==> Round(trace[i], trace[i + 1], cfg, limit)
    ensures OpenIds(trace[|trace| - 1]) == {}
    decreases |trace|
  {
    hide Drainable, Round;
    if |trace| > 1 {
      RoundBringsCloser(trace[0], trace[1], cfg, limit);
      assert forall i :: 0 <= i < |trace[1..]| - 1 ==> trace[1..][i] == trace[i + 1];
      StaysFinished(trace[1..], cfg, limit);
    }
  }

  lemma {:induction false} TotalZero(files: seq<JobFile>)
    requires Total(files, Left) == 0
    ensures OpenIds(files) == {}
    decreases |files|
  {
    if files != [] {
      var init := files[..|files| - 1];
      TotalZero(init);
      assert forall j: nat :: j < |init| && Open(files[j].job.status) ==> j in OpenIds(init);
    }
  }

  lemma {:induction false} TotalAtMostSeven(files: seq<JobFile>)
    ensures Total(files, Left) <= 7 * |files|
    decreases |files|
  {
    if files != [] {
      TotalAtMostSeven(files[..|files| - 1]);
    }
  }

  /** Seven rounds per job are enough, whatever the clock, the placements and the launches do. */
  lemma SevenRoundsPerJob(trace: seq<seq<JobFile>>, cfg: Config, limit: nat)
    requires trace != [] && Drainable(trace[0], cfg, limit)
    requires forall i :: 0 <= i < |trace| - 1 ==> Round(trace[i], trace[i + 1], cfg, limit)
    requires |trace| > 7 * |trace[0]|
    ensures OpenIds(trace[|trace| - 1]) == {}
  {
    TotalAtMostSeven(trace[0]);
    RoundsFinish(trace, cfg, limit);
  }

  // ----- starvation

  /**
   A budget holder as large as the whole budget, outside the listing, blocks `limit` smaller jobs in placing.
   */
  ghost predicate Starved(files: seq<JobFile>, cfg: Config, limit: nat, giant: nat) {
    && cfg.simAuto && giant < |files| && Holds(files[giant].job.status)
    && files[giant].job.worldSize >= MaxWorld(cfg)
    && |OpenIds(files)| > limit
    && forall j: nat :: j < |files| && j != giant && Open(files[j].job.status) ==>
         var f := files[j].job;
         && f.status.Placing? && f.started.None? && f.lease.None? && f.pod.None?
         && 1 <= f.worldSize < files[giant].job.worldSize
  }

  /** The fair order never reaches the holder, so nothing it blocks can ever move. */
  lemma StarvedQueueOmitsGiant(files: seq<JobFile>, cfg: Config, limit: nat, giant: nat, ids: seq<nat>)
    requires Starved(files, cfg, limit, giant) && IsFairQueue(files, limit, ids)
    ensures giant !in ids
  {
    if giant in ids {
      var i :| 0 <= i < |ids| && ids[i] == giant;
      forall j | j in OpenIds(files)
        ensures j in Elems(ids)
      {
        if j !in ids {
          assert NotAfter(files[ids[i]].job, files[j].job);
        }
      }
      DistinctCard(ids);
      SubsetCard(OpenIds(files), Elems(ids));
      assert false;
    }
  }

  lemma GiantClosesGate(files: seq<JobFile>, cfg: Config, giant: nat, j: nat)
    requires giant < |files| && j < |files| && j != giant && Holds(files[giant].job.status)
    requires files[giant].job.worldSize >= MaxWorld(cfg) && files[j].job.worldSize >= 1
    ensures !CanAdmit(files, j, cfg)
  {
    var k := if giant < j then giant else giant - 1;
    assert Others(files, j)[k] == files[giant];
    TotalSplit(Others(files, j), k, WorldHeld);
  }

  lemma {:induction false} StarvedDrainIsIdentity(files: seq<JobFile>, cfg: Config, limit: nat, giant: nat,
                                                  ids: seq<nat>, worlds: seq<World>)
    requires Starved(files, cfg, limit, giant) && InTable(files, ids) && giant !in ids && |worlds| == |ids|
    requires forall i :: 0 <= i < |ids| ==> Open(files[ids[i]].job.status)
    ensures Drain(files, ids, worlds, cfg) == files
    decreases |ids|
  {
    if ids != [] {
      GiantClosesGate(files, cfg, giant, ids[0]);
      assert AdvanceAt(files, ids[0], cfg, worlds[0]) == files;
      StarvedDrainIsIdentity(files, cfg, limit, giant, ids[1..], worlds[1..]);
    }
  }

  lemma StarvedRound(a: seq<JobFile>, b: seq<JobFile>, cfg: Config, limit: nat, giant: nat)
    requires Starved(a, cfg, limit, giant) && Round(a, b, cfg, limit)
    ensures a == b
  {
    hide Drain, NotAfter;
    var ids: seq<nat>, worlds: seq<World> :|
      IsFairQueue(a, limit, ids) && |worlds| == |ids| && b == Drain(a, ids, worlds, cfg);
    StarvedQueueOmitsGiant(a, cfg, limit, giant, ids);
    StarvedDrainIsIdentity(a, cfg, limit, giant, ids, worlds);
  }

  /** From a starved table, any number of rounds changes nothing at all. */
  lemma {:induction false} StarvedForever(trace: seq<seq<JobFile>>, cfg: Config, limit: nat, giant: nat)
    requires trace != [] && Starved(trace[0], cfg, limit, giant)
    requires forall i :: 0 <= i < |trace| - 1 ==> Round(trace[i], trace[i + 1], cfg, limit)
    ensures trace[|trace| - 1] == trace[0]
    decreases |trace|
  {
    hide Starved, Round;
    if |trace| > 1 {
      StarvedRound(trace[0], trace[1], cfg, limit, giant);
      assert forall i :: 0 <= i < |trace[1..]| - 1 ==> trace[1..][i] == trace[i + 1];
      StarvedForever(trace[1..], cfg, limit, giant);
    }
  }

  // ----- the queue always has an answer, and `limit` open jobs is exactly what it can serve

  function Insert(files: seq<JobFile>, ids: seq<nat>, j: nat): (r: seq<nat>)
    requires InTable(files, ids) && j < |files|
    ensures InTable(files, r) && |r| == |ids| + 1 && Elems(r) == Elems(ids) + {j}
    decreases |ids|
  {
    if ids == [] || NotAfter(files[j].job, files[ids[0]].job) then [j] + ids
    else
      var rest := Insert(files, ids[1..], j);
      assert ids == [ids[0]] + ids[1..];
      assert Elems([ids[0]] + rest) == {ids[0]} + Elems(rest) && Elems(ids) == {ids[0]} + Elems(ids[1..]);
      [ids[0]] + rest
  }

  ghost predicate Ordered(files: seq<JobFile>, ids: seq<nat>)
    requires InTable(files, ids)
  {
    forall i, k :: 0 <= i < k < |ids| ==> NotAfter(files[ids[i]].job, files[ids[k]].job)
  }

  lemma StaysInFront(files: seq<JobFile>, first: nat, rest: seq<nat>)
    requires first < |files| && InTable(files, rest) && Ordered(files, rest) && Distinct(rest)
    requires forall k :: k in rest ==> NotAfter(files[first].job, files[k].job) && k != first
    ensures Ordered(files, [first] + rest) && Distinct([first] + rest)
  {
  }

  lemma FrontIsFirst(files: seq<JobFile>, ids: seq<nat>)
    requires InTable(files, ids) && Ordered(files, ids) && Distinct(ids) && ids != []
    ensures InTable(files, ids[1..]) && Ordered(files, ids[1..]) && Distinct(ids[1..])
    ensures forall k :: k in ids[1..] ==> NotAfter(files[ids[0]].job, files[k].job) && k != ids[0]
  {
  }

  lemma {:induction false} InsertKeepsOrder(files: seq<JobFile>, ids: seq<nat>, j: nat)
    requires InTable(files, ids) && j < |files| && Ordered(files, ids) && Distinct(ids) && j !in ids
    ensures Ordered(files, Insert(files, ids, j)) && Distinct(Insert(files, ids, j))
    decreases |ids|
  {
    if ids != [] {
      FrontIsFirst(files, ids);
      hide Ordered, Distinct;
      if NotAfter(files[j].job, files[ids[0]].job) {
        assert forall k :: k in ids ==> k == ids[0] || k in ids[1..];
        StaysInFront(files, j, ids);
      } else {
        var rest := Insert(files, ids[1..], j);
        InsertKeepsOrder(files, ids[1..], j);
        forall k | k in rest ensures NotAfter(files[ids[0]].job, files[k].job) && k != ids[0]
        {
          assert k in Elems(rest);
          assert k != j ==> k in Elems(ids[1..]);
        }
        StaysInFront(files, ids[0], rest);
      }
    }
  }

  function Queue(files: seq<JobFile>, n: nat): (r: seq<nat>)
    requires n <= |files|
    ensures InTable(files, r)
  {
    if n == 0 then []
    else if Open(files[n - 1].job.status) then Insert(files, Queue(files, n - 1), n - 1)
    else Queue(files, n - 1)
  }

  lemma {:induction false} QueueIsFair(files: seq<JobFile>, n: nat)
    requires n <= |files|
    ensures Ordered(files, Queue(files, n)) && Distinct(Queue(files, n))
    ensures Elems(Queue(files, n)) == set j: nat | j < n && Open(files[j].job.status)
  {
    if n > 0 {
      QueueIsFair(files, n - 1);
      var q := Queue(files, n - 1);
      if Open(files[n - 1].job.status) {
        assert n - 1 !in Elems(q);
        hide Insert, Ordered, Distinct, Open;
        InsertKeepsOrder(files, q, n - 1);
      }
    }
  }

  lemma QueueExists(files: seq<JobFile>, limit: nat) returns (ids: seq<nat>)
    ensures IsFairQueue(files, limit, ids)
  {
    var q := Queue(files, |files|);
    QueueIsFair(files, |files|);
    ids := if |q| <= limit then q else q[..limit];
    forall j: nat | j < |files| && Open(files[j].job.status) && j !in ids
      ensures |ids| == limit && forall i :: 0 <= i < |ids| ==> NotAfter(files[ids[i]].job, files[j].job)
    {
      assert j in Elems(q);
      var k :| 0 <= k < |q| && q[k] == j;
      assert |ids| <= k;
    }
    forall i | 0 <= i < |ids| ensures Open(files[ids[i]].job.status)
    {
      assert ids[i] in Elems(q);
    }
  }

  ghost predicate Fits(files: seq<JobFile>, cfg: Config) {
    forall j :: 0 <= j < |files| ==> FileOk(files[j]) && 1 <= files[j].job.worldSize <= MaxWorld(cfg)
  }

  /** Every round over a well-formed table with 1 to `k` open jobs moves one of them. */
  ghost predicate AlwaysProgresses(cfg: Config, limit: nat, k: nat) {
    forall files, ids, worlds {:trigger Drain(files, ids, worlds, cfg)} ::
      Fits(files, cfg) && 1 <= |OpenIds(files)| <= k && IsFairQueue(files, limit, ids) && |worlds| == |ids| ==>
        !SameView(files, Drain(files, ids, worlds, cfg))
  }

  function Blocker(size: nat): JobFile {
    JobFile(Job("", None, Provisioning, size, size, 1, 1, None, None, 0, Some(0), None, None, None), [], [""], None)
  }

  function Micro(): JobFile {
    JobFile(Job("", None, Placing, 1, 1, 1, 1, None, None, 0, Some(0), None, None, None), [], [], None)
  }

  function Micros(n: nat): (r: seq<JobFile>)
    ensures |r| == n && forall i :: 0 <= i < n ==> r[i] == Micro()
  {
    if n == 0 then [] else Micros(n - 1) + [Micro()]
  }

  function Range(n: nat): (r: set<nat>)
    ensures |r| == n && forall i :: i in r <==> 0 <= i < n
  {
    if n == 0 then {} else Range(n - 1) + {n - 1}
  }

  /** `limit` one-rank jobs in placing behind one job that holds the whole budget. */
  function StarvedTable(cfg: Config, limit: nat): (files: seq<JobFile>)
    ensures |files| == limit + 1
    ensures forall j :: 0 <= j < limit ==> files[j] == Micro()
    ensures files[limit] == Blocker(MaxWorld(cfg))
  {
    Micros(limit) + [Blocker(MaxWorld(cfg))]
  }

  lemma StarvedTableStarves(cfg: Config, limit: nat)
    requires cfg.simAuto && MaxWorld(cfg) >= 2
    ensures var files := StarvedTable(cfg, limit);
            Fits(files, cfg) && |OpenIds(files)| == limit + 1 && Starved(files, cfg, limit, limit)
  {
    hide Micros, StarvedTable;
    var files := StarvedTable(cfg, limit);
    assert FileOk(Micro()) && FileOk(Blocker(MaxWorld(cfg)));
    forall j | 0 <= j < |files|
      ensures FileOk(files[j]) && 1 <= files[j].job.worldSize <= MaxWorld(cfg) && Open(files[j].job.status)
    {
      assert files[j] == Micro() || files[j] == Blocker(MaxWorld(cfg));
    }
    assert OpenIds(files) == Range(limit + 1);
  }

  /** The queue is guaranteed to move exactly when there are no more open jobs than it lists. */
  lemma ProgressIffWithinLimit(cfg: Config, limit: nat, k: nat)
    requires cfg.simAuto && MaxWorld(cfg) >= 2
    ensures AlwaysProgresses(cfg, limit, k) <==> k <= limit
  {
    hide Advance, TryBind, TimeoutDue, CanAdmit;
    if k <= limit {
      forall files, ids, worlds | Fits(files, cfg) && 1 <= |OpenIds(files)| <= k
                                  && IsFairQueue(files, limit, ids) && |worlds| == |ids|
        ensures !SameView(files, Drain(files, ids, worlds, cfg))
      {
        RoundMakesProgress(files, cfg, limit, ids, worlds);
      }
    } else {
      var files := StarvedTable(cfg, limit);
      StarvedTableStarves(cfg, limit);
      var ids := QueueExists(files, limit);
      var w := World(0, 0, Capacity(map[], map[]), Placed(""), LaunchTimedOut("", ""));
      var worlds := seq(|ids|, _ => w);
      StarvedQueueOmitsGiant(files, cfg, limit, limit, ids);
      StarvedDrainIsIdentity(files, cfg, limit, limit, ids, worlds);
      assert SameView(files, Drain(files, ids, worlds, cfg));
    }
  }
}
