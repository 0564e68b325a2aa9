/** The concurrency budget when workers read the gate in one statement and claim in a later one. */
module BudgetRaces {
  import opened Common
  import opened JobRecords
  import opened JobQueue
  import opened Totals
  import opened ClaimRaces

  // ----- the gate over rows is the gate over jobs

  function RowsOf(files: seq<JobFile>): (rows: seq<Row>)
    ensures |rows| == |files| && forall i :: 0 <= i < |rows| ==> rows[i] == RowOf(files[i])
  {
    seq(|files|, i requires 0 <= i < |files| => RowOf(files[i]))
  }

  lemma {:induction false} SameTotals(files: seq<JobFile>, rows: seq<Row>, threshold: nat)
    requires |rows| == |files| && forall i :: 0 <= i < |rows| ==> rows[i] == RowOf(files[i])
    ensures Total(rows, Load) == Total(files, WorldHeld)
    ensures Total(rows, Large(threshold)) == Total(files, LargeHeld(threshold))
    decreases |rows|
  {
    if rows != [] {
      SameTotals(files[..|files| - 1], rows[..|rows| - 1], threshold);
    }
  }

  /** A worker asks the rows what it would ask the jobs, and the budget over rows is the one over jobs. */
  lemma RoomyIsTheGate(files: seq<JobFile>, j: nat, cfg: Config)
    requires j < |files|
    ensures Roomy(RowsOf(files), j, cfg) <==> CanAdmit(files, j, cfg)
    ensures Within(RowsOf(files), cfg) <==> WithinBudget(files, cfg)
  {
    var rows := RowsOf(files);
    SameTotals(files, rows, Threshold(cfg));
    var x, y := Others(rows, j), Others(files, j);
    forall i | 0 <= i < |x| ensures x[i] == RowOf(y[i])
    {
      var k := if i < j then i else i + 1;
      assert x[i] == rows[k] && y[i] == files[k];
    }
    SameTotals(y, x, Threshold(cfg));
  }

  // ----- how many may claim

  /** In every run of `n` sessions over fresh jobs, the budget holds at every moment. */
  ghost predicate BudgetHolds(n: nat, site: Site) {
    forall d, steps {:trigger Run(d, steps, site)} :: Initial(d) && |d.sessions| == n ==>
      Within(Run(d, steps, site).rows, site.cfg)
  }

  /** The job a worker has cleared or is claiming out of `placing`. */
  predicate Entering(pc: Pc, j: nat) {
    pc == Cleared(j, Placing) || pc == InTxn(j, Placing)
  }

  /** What a single claimer keeps: past the gate there is still room, whatever other sessions end meanwhile. */
  ghost predicate RoomKept(d: Db, site: Site) {
    && Within(d.rows, site.cfg)
    && (forall p :: 0 <= p < |d.sessions| && p > 0 ==> !d.sessions[p].Cleared? && !d.sessions[p].InTxn?)
    && (forall j :: 0 <= j < |d.rows| && |d.sessions| > 0 && Entering(d.sessions[0], j) ==> Roomy(d.rows, j, site.cfg))
  }

  /** Replacing one row by one that weighs no more leaves the other totals no higher. */
  lemma LighterRow(rows: seq<Row>, i: nat, r: Row, j: nat, w: Row -> nat)
    requires i < |rows| && j < |rows| && w(r) <= w(rows[i])
    ensures Total(rows[i := r], w) <= Total(rows, w)
    ensures Total(Others(rows[i := r], j), w) <= Total(Others(rows, j), w)
  {
    hide Total;
    TotalUpdate(rows, i, r, w);
    if i == j {
      assert Others(rows[i := r], j) == Others(rows, j);
    } else {
      TotalSplit(rows, j, w);
      TotalSplit(rows[i := r], j, w);
    }
  }

  lemma LighterRowKeepsRoom(rows: seq<Row>, i: nat, r: Row, cfg: Config)
    requires i < |rows| && Within(rows, cfg) && r.worldSize == rows[i].worldSize
    requires Holds(r.status) ==> Holds(rows[i].status)
    ensures Within(rows[i := r], cfg)
    ensures forall j :: 0 <= j < |rows| && Roomy(rows, j, cfg) ==> Roomy(rows[i := r], j, cfg)
  {
    hide Total;
    LighterRow(rows, i, r, i, Load);
    LighterRow(rows, i, r, i, Large(Threshold(cfg)));
    forall j | 0 <= j < |rows| && Roomy(rows, j, cfg) ensures Roomy(rows[i := r], j, cfg)
    {
      LighterRow(rows, i, r, j, Load);
      LighterRow(rows, i, r, j, Large(Threshold(cfg)));
    }
  }

  /** A job that enters where there is room leaves the budget kept. */
  lemma EnteringFits(rows: seq<Row>, i: nat, r: Row, cfg: Config)
    requires i < |rows| && Within(rows, cfg) && Roomy(rows, i, cfg) && r.worldSize == rows[i].worldSize
    ensures Within(rows[i := r], cfg)
  {
    hide Total;
    var large := Large(Threshold(cfg));
    assert Others(rows[i := r], i) == Others(rows, i);
    TotalSplit(rows[i := r], i, Load);
    TotalSplit(rows[i := r], i, large);
    TotalSplit(rows, i, large);
  }

  lemma StepKeepsRoom(d: Db, s: Step, site: Site)
    requires Inv(d) && RoomKept(d, site) && (site.claimers <= 1 || |d.sessions| <= 1)
    ensures RoomKept(Do(d, s, site), site) && |Do(d, s, site).sessions| == |d.sessions|
  {
    hide Within, Roomy, Inv;
    if Enabled(d, s, site) {
      var pc := d.sessions[s.session];
      if s.CommitClaim? {
        CommitKeepsRoom(d, s.session, s.failed, site);
      } else if s.WriteTerminal? {
        LighterRowKeepsRoom(d.rows, pc.job, d.rows[pc.job].(status := s.status), site.cfg);
      }
    }
  }

  lemma CommitKeepsRoom(d: Db, p: nat, failed: Option<Status>, site: Site)
    requires Inv(d) && RoomKept(d, site) && Enabled(d, CommitClaim(p, failed), site)
    ensures RoomKept(Do(d, CommitClaim(p, failed), site), site)
  {
    hide Within, Roomy;
    var j, from := d.sessions[p].job, d.sessions[p].from;
    var r := Claimed(d.rows[j], from, failed);
    if from.Placing? {
      assert Entering(d.sessions[0], j);
      EnteringFits(d.rows, j, r, site.cfg);
    } else {
      LighterRowKeepsRoom(d.rows, j, r, site.cfg);
    }
  }

  lemma {:induction false} RunKeepsRoom(d: Db, steps: seq<Step>, site: Site)
    requires Inv(d) && RoomKept(d, site) && (site.claimers <= 1 || |d.sessions| <= 1)
    ensures RoomKept(Run(d, steps, site), site)
    decreases |steps|
  {
    hide Do, Inv, RoomKept;
    if steps != [] {
      StepKeepsInv(d, steps[0], site);
      StepKeepsRoom(d, steps[0], site);
      RunKeepsRoom(Do(d, steps[0], site), steps[1..], site);
    }
  }

  lemma FreshJobsHoldNothing(d: Db, site: Site)
    requires Initial(d)
    ensures RoomKept(d, site)
  {
    hide Total;
    TotalPointwise(d.rows, d.rows, Load);
    TotalPointwise(d.rows, d.rows, Large(Threshold(site.cfg)));
  }

  function TwoJobs(s: Status, size: nat, placements: nat): seq<Row> {
    [Row(s, size, placements), Row(s, size, placements)]
  }

  lemma PairLoad(a: Row, b: Row, cfg: Config)
    ensures Total([a, b], Load) == Load(a) + Load(b)
    ensures Load(b) == 0 ==> (Roomy([a, b], 0, cfg) <==> a.worldSize <= MaxWorld(cfg))
    ensures Load(a) == 0 ==> (Roomy([a, b], 1, cfg) <==> b.worldSize <= MaxWorld(cfg))
  {
    hide Total;
    assert Others([a, b], 0) == [b] && Others([a, b], 1) == [a];
    TotalSplit([a, b], 0, Load);
    TotalOne(a, Load);
    TotalOne(b, Load);
    TotalOne(a, Large(Threshold(cfg)));
    TotalOne(b, Large(Threshold(cfg)));
  }

  /** Both workers read the gate while both jobs are still placing. */
  lemma BothPassGate(n: nat, site: Site, log: seq<Claim>)
    requires n >= 2 && site.claimers >= 2
    ensures var rows := TwoJobs(Placing, MaxWorld(site.cfg), 0);
            Run(Db(rows, Pair(Idle, Idle, n), log), [Refresh(0, 0), Refresh(1, 1), PassGate(0), PassGate(1)], site)
            == Db(rows, Pair(Cleared(0, Placing), Cleared(1, Placing), n), log)
  {
    hide Do, Pair, Roomy, Run;
    PairUpdates(n);
    var m := MaxWorld(site.cfg);
    PairLoad(Row(Placing, m, 0), Row(Placing, m, 0), site.cfg);
    var r0, r1, c0, c1 := Read(0, Placing), Read(1, Placing), Cleared(0, Placing), Cleared(1, Placing);
    var rows := TwoJobs(Placing, m, 0);
    var d0 := Db(rows, Pair(Idle, Idle, n), log);
    var d1 := Db(rows, Pair(r0, Idle, n), log);
    var d2 := Db(rows, Pair(r0, r1, n), log);
    var d3 := Db(rows, Pair(c0, r1, n), log);
    DoRefresh(d0, 0, 0, site);
    DoRefresh(d1, 1, 1, site);
    DoGate(d2, 0, 0, Placing, site);
    DoGate(d3, 1, 1, Placing, site);
    RunFollows([d0, d1, d2, d3, Db(rows, Pair(c0, c1, n), log)],
      [Refresh(0, 0), Refresh(1, 1), PassGate(0), PassGate(1)], site);
  }

  /** Each then claims the whole budget. */
  lemma BothClaim(n: nat, site: Site, log: seq<Claim>)
    requires n >= 2
    ensures var m := MaxWorld(site.cfg);
            Run(Db(TwoJobs(Placing, m, 0), Pair(Cleared(0, Placing), Cleared(1, Placing), n), log),
                [TryClaim(0), CommitClaim(0, None), TryClaim(1), CommitClaim(1, None)], site).rows
            == TwoJobs(Provisioning, m, 1)
  {
    hide Do, Pair, Roomy, Run;
    PairUpdates(n);
    var m := MaxWorld(site.cfg);
    var ready, taken := Row(Placing, m, 0), Row(Provisioning, m, 1);
    var c0, c1, log' := Cleared(0, Placing), Cleared(1, Placing), log + [Claim(0, Placing)];
    var d0 := Db(TwoJobs(Placing, m, 0), Pair(c0, c1, n), log);
    var d1 := Db(TwoJobs(Placing, m, 0), Pair(InTxn(0, Placing), c1, n), log);
    var d2 := Db([taken, ready], Pair(Idle, c1, n), log');
    var d3 := Db([taken, ready], Pair(Idle, InTxn(1, Placing), n), log');
    var d4 := Db([taken, taken], Pair(Idle, Idle, n), log' + [Claim(1, Placing)]);
    assert d0.rows[0 := taken] == d2.rows && d2.rows[1 := taken] == d4.rows;
    DoClaim(d0, 0, 0, Placing, site);
    DoClaim(d2, 1, 1, Placing, site);
    assert Do(d1, CommitClaim(0, None), site) == d2;
    assert Do(d2, TryClaim(1), site) == d3;
    assert Do(d3, CommitClaim(1, None), site) == d4;
    RunFollows([d0, d1, d2, d3, d4], [TryClaim(0), CommitClaim(0, None), TryClaim(1), CommitClaim(1, None)], site);
  }

  /** From fresh jobs, two workers end up holding twice the budget. */
  lemma TwoWorkersOverrunBudget(n: nat, site: Site) returns (d: Db, steps: seq<Step>)
    requires n >= 2 && site.claimers >= 2
    ensures Initial(d) && |d.sessions| == n
    ensures Total(Run(d, steps, site).rows, Load) == 2 * MaxWorld(site.cfg)
  {
    hide Do, Pair, Roomy, Run, Turn;
    var m := MaxWorld(site.cfg);
    d := Db(TwoJobs(Admitted, m, 0), Pair(Idle, Idle, n), []);
    TurnAdvances(d, 0, 0, site);
    var one := Run(d, Turn(0, 0), site);
    TurnAdvances(one, 0, 1, site);
    var both := Run(one, Turn(0, 1), site);
    assert both.rows == TwoJobs(Placing, m, 0);
    BothPassGate(n, site, both.log);
    BothClaim(n, site, both.log);
    var gates := [Refresh(0, 0), Refresh(1, 1), PassGate(0), PassGate(1)];
    var claims := [TryClaim(0), CommitClaim(0, None), TryClaim(1), CommitClaim(1, None)];
    steps := Turn(0, 0) + Turn(0, 1) + gates + claims;
    RunConcat(d, Turn(0, 0), Turn(0, 1), site);
    RunConcat(d, Turn(0, 0) + Turn(0, 1), gates, site);
    RunConcat(d, Turn(0, 0) + Turn(0, 1) + gates, claims, site);
    PairLoad(Row(Provisioning, m, 1), Row(Provisioning, m, 1), site.cfg);
  }

  /**
   The budget holds at every moment of every run exactly when at most one session claims; how many others
   cancel, time out or post results does not matter.
   */
  lemma BudgetHoldsIff(n: nat, site: Site)
    ensures BudgetHolds(n, site) <==> site.claimers <= 1 || n <= 1
  {
    hide Run, Inv, Total;
    if site.claimers <= 1 || n <= 1 {
      forall d, steps | Initial(d) && |d.sessions| == n
        ensures Within(Run(d, steps, site).rows, site.cfg)
      {
        InitialIsInv(d);
        FreshJobsHoldNothing(d, site);
        RunKeepsRoom(d, steps, site);
      }
    } else {
      var d, steps := TwoWorkersOverrunBudget(n, site);
      assert !Within(Run(d, steps, site).rows, site.cfg);
    }
  }
}
