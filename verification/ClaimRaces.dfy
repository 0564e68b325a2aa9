/**
 Several sessions on one job table, one SQL statement at a time.

 A reading statement sees the committed rows. A claim (`UPDATE … WHERE status IN …`) opens a write
 transaction, and the database admits one at a time; its effects become visible at commit. Cancel, timeout,
 failure and result posts write a terminal status without re-checking the status they read earlier.
 */
module ClaimRaces {
  import opened Common
  import opened JobRecords
  import opened JobQueue
  import opened Sessions
  import opened Totals

  datatype Row = Row(status: Status, worldSize: nat, placements: nat)

  datatype Pc =
    | Idle
    | Read(job: nat, seen: Status)
    | Cleared(job: nat, seen: Status)
    | InTxn(job: nat, from: Status)

  datatype Claim = Claim(job: nat, from: Status)

  /** `log` records the claims that were committed, in commit order. */
  datatype Db = Db(rows: seq<Row>, sessions: seq<Pc>, log: seq<Claim>)

  /** The first `claimers` sessions are workers that claim; the rest serve API requests and only write terminal
      statuses. */
  datatype Site = Site(cfg: Config, claimers: nat)

  datatype Step =
    | Refresh(session: nat, target: nat)          // read the job's row
    | PassGate(session: nat)                      // read the budget holders
    | TryClaim(session: nat)                      // compare-and-set, opens the transaction
    | CommitClaim(session: nat, failed: Option<Status>) // side effects ran; `failed` overrides the status
    | Rollback(session: nat)
    | WriteTerminal(session: nat, status: Status) // cancel, timeout, failure or results

  // ----- the budget over rows

  function Load(r: Row): nat {
    if Holds(r.status) then r.worldSize else 0
  }

  function Large(threshold: nat): Row -> nat {
    (r: Row) => if Holds(r.status) && r.worldSize >= threshold then 1 else 0
  }

  /** The gate's answer for job `j`, from the rows as they stand. */
  predicate Roomy(rows: seq<Row>, j: nat, cfg: Config)
    requires j < |rows|
  {
    && !(rows[j].worldSize >= Threshold(cfg) && Total(Others(rows, j), Large(Threshold(cfg))) >= MaxLarge(cfg))
    && Total(Others(rows, j), Load) + rows[j].worldSize <= MaxWorld(cfg)
  }

  predicate Within(rows: seq<Row>, cfg: Config) {
    Total(rows, Load) <= MaxWorld(cfg) && Total(rows, Large(Threshold(cfg))) <= MaxLarge(cfg)
  }

  // ----- steps

  predicate Locked(d: Db) {
    exists p :: 0 <= p < |d.sessions| && d.sessions[p].InTxn?
  }

  predicate Enabled(d: Db, s: Step, site: Site) {
    && s.session < |d.sessions|
    && var pc := d.sessions[s.session];
       match s
       case Refresh(_, j) => pc.Idle? && j < |d.rows|
       case PassGate(p) =>
         && p < site.claimers && pc.Read? && Open(pc.seen) && pc.job < |d.rows|
         && (pc.seen.Placing? ==> Roomy(d.rows, pc.job, site.cfg))
       case TryClaim(_) => pc.Cleared? && !Locked(d) && pc.job < |d.rows|
       case CommitClaim(_, failed) => pc.InTxn? && pc.job < |d.rows| && (failed.Some? ==> Terminal(failed.value))
       case Rollback(_) => true
       case WriteTerminal(_, t) => pc.Read? && Open(pc.seen) && Terminal(t) && !Locked(d) && pc.job < |d.rows|
  }

  /** The claimed edge, its placement row, and a terminal status if a side effect failed. */
  function Claimed(r: Row, from: Status, failed: Option<Status>): Row {
    r.(status := if failed.Some? then failed.value else Forward(from).GetOr(from),
       placements := if from.Placing? && failed.None? then r.placements + 1 else r.placements)
  }

  function Do(d: Db, s: Step, site: Site): Db {
    if !Enabled(d, s, site) then d
    else
      var pc := d.sessions[s.session];
      match s
      case Refresh(p, j) => d.(sessions := d.sessions[p := Read(j, d.rows[j].status)])
      case PassGate(p) => d.(sessions := d.sessions[p := Cleared(pc.job, pc.seen)])
      case TryClaim(p) =>
        d.(sessions := d.sessions[p := if d.rows[pc.job].status == pc.seen then InTxn(pc.job, pc.seen) else Idle])
      case CommitClaim(p, failed) =>
        Db(d.rows[pc.job := Claimed(d.rows[pc.job], pc.from, failed)], d.sessions[p := Idle],
           d.log + [Claim(pc.job, pc.from)])
      case Rollback(p) => d.(sessions := d.sessions[p := Idle])
      case WriteTerminal(p, t) =>
        d.(rows := d.rows[pc.job := d.rows[pc.job].(status := t)], sessions := d.sessions[p := Idle])
  }

  function Run(d: Db, steps: seq<Step>, site: Site): Db
    decreases |steps|
  {
    if steps == [] then d else Run(Do(d, steps[0], site), steps[1..], site)
  }

  lemma {:induction false} RunConcat(d: Db, a: seq<Step>, b: seq<Step>, site: Site)
    ensures Run(d, a + b, site) == Run(Run(d, a, site), b, site)
    decreases |a|
  {
    hide Do;
    if a == [] {
      assert a + b == b;
    } else {
      assert (a + b)[0] == a[0] && (a + b)[1..] == a[1..] + b;
      RunConcat(Do(d, a[0], site), a[1..], b, site);
    }
  }

  lemma RunNone(d: Db, site: Site)
    ensures Run(d, [], site) == d
  {
  }

  lemma RunOne(d: Db, s: Step, site: Site)
    ensures Run(d, [s], site) == Do(d, s, site)
  {
    hide Do;
    assert [s][1..] == [];
    assert Run(Do(d, s, site), [], site) == Do(d, s, site);
  }

  /** Fresh jobs, no session busy, nothing claimed or placed yet. */
  ghost predicate Initial(d: Db) {
    && d.log == []
    && (forall p :: 0 <= p < |d.sessions| ==> d.sessions[p].Idle?)
    && (forall j :: 0 <= j < |d.rows| ==> d.rows[j].status in {Submitted, Admitted} && d.rows[j].placements == 0)
  }

  // ----- what every interleaving keeps

  ghost predicate Inv(d: Db) {
    && (forall j :: 0 <= j < |d.rows| ==> Open(d.rows[j].status) || Terminal(d.rows[j].status))
    && (forall p :: 0 <= p < |d.sessions| ==>
          match d.sessions[p]
          case Cleared(j, s) => j < |d.rows| && Open(s)
          case InTxn(j, s) => j < |d.rows| && Open(s) && d.rows[j].status == s
          case Read(j, s) => j < |d.rows|
          case _ => true)
    && (forall p, q :: 0 <= p < q < |d.sessions| ==> !(d.sessions[p].InTxn? && d.sessions[q].InTxn?))
    && (forall k :: 0 <= k < |d.log| ==>
          && d.log[k].job < |d.rows|
          && Distance(d.rows[d.log[k].job].status) < Distance(d.log[k].from))
    && (forall i, k :: 0 <= i < k < |d.log| ==> d.log[i] != d.log[k])
    && (forall j :: 0 <= j < |d.rows| ==>
          d.rows[j].placements <= if Distance(d.rows[j].status) < Distance(Placing) then 1 else 0)
  }

  lemma CommitKeepsInv(d: Db, p: nat, failed: Option<Status>, site: Site)
    requires Inv(d) && Enabled(d, CommitClaim(p, failed), site)
    ensures Inv(Do(d, CommitClaim(p, failed), site))
  {
    hide Roomy;
    var e := Claim(d.sessions[p].job, d.sessions[p].from);
    assert forall k :: 0 <= k < |d.log| ==> d.log[k] != e;
  }

  lemma StepKeepsInv(d: Db, s: Step, site: Site)
    requires Inv(d)
    ensures Inv(Do(d, s, site))
  {
    hide Roomy;
    if s.CommitClaim? && Enabled(d, s, site) {
      CommitKeepsInv(d, s.session, s.failed, site);
    }
  }

  /**
   Under every interleaving each forward edge of a job is committed at most once, and a job gets at most
   one placement row, even if the worker did not look for an existing row before inserting.
   */
  lemma {:induction false} ClaimsCommitOnce(d: Db, steps: seq<Step>, site: Site)
    requires Inv(d)
    ensures var e := Run(d, steps, site);
            && Inv(e)
            && (forall i, k :: 0 <= i < k < |e.log| ==> e.log[i] != e.log[k])
            && (forall j :: 0 <= j < |e.rows| ==> e.rows[j].placements <= 1)
    decreases |steps|
  {
    hide Do;
    if steps != [] {
      StepKeepsInv(d, steps[0], site);
      ClaimsCommitOnce(Do(d, steps[0], site), steps[1..], site);
    }
  }

  lemma InitialIsInv(d: Db)
    requires Initial(d)
    ensures Inv(d)
  {
  }

  /** No statement moves a job backwards or changes its size. */
  ghost predicate Onward(d: Db, e: Db) {
    && |e.rows| == |d.rows| && |e.sessions| == |d.sessions|
    && forall j {:trigger e.rows[j]} {:trigger d.rows[j]} :: 0 <= j < |d.rows| ==>
         && Distance(e.rows[j].status) <= Distance(d.rows[j].status) && e.rows[j].worldSize == d.rows[j].worldSize
         && (Terminal(d.rows[j].status) ==> Terminal(e.rows[j].status))
  }

  lemma StepGoesOnward(d: Db, s: Step, site: Site)
    requires Inv(d)
    ensures Onward(d, Do(d, s, site))
  {
    hide Roomy;
  }

  /** Under every interleaving a terminal job stays terminal, and no job moves backwards. */
  lemma {:induction false} NeverBackwards(d: Db, steps: seq<Step>, site: Site)
    requires Inv(d)
    ensures Onward(d, Run(d, steps, site))
    decreases |steps|
  {
    hide Do, Inv;
    if steps != [] {
      StepKeepsInv(d, steps[0], site);
      StepGoesOnward(d, steps[0], site);
      NeverBackwards(Do(d, steps[0], site), steps[1..], site);
    }
  }

  // ----- which terminal status a job shows

  /** A session that read the job before it ended and may still write. */
  ghost predicate StaleReader(d: Db, j: nat, p: nat) {
    p < |d.sessions| && d.sessions[p].Read? && d.sessions[p].job == j && Open(d.sessions[p].seen)
  }

  ghost predicate NoStaleReader(d: Db, j: nat) {
    forall p :: !StaleReader(d, j, p)
  }

  /** A terminal status changes in one statement exactly by a session that read the job before it ended. */
  lemma TerminalRewrittenIff(d: Db, s: Step, site: Site, j: nat)
    requires Inv(d) && j < |d.rows| && Terminal(d.rows[j].status)
    ensures Do(d, s, site).rows[j].status != d.rows[j].status <==>
            && s.WriteTerminal? && Enabled(d, s, site)
            && d.sessions[s.session].job == j && s.status != d.rows[j].status
    ensures NoStaleReader(d, j) ==> NoStaleReader(Do(d, s, site), j)
  {
    hide Roomy;
    if NoStaleReader(d, j) {
      var e := Do(d, s, site);
      forall p ensures !StaleReader(e, j, p)
      {
        assert !StaleReader(d, j, p);
      }
    }
  }

  lemma {:induction false} FreshTerminalStays(d: Db, steps: seq<Step>, site: Site, j: nat)
    requires Inv(d) && j < |d.rows| && Terminal(d.rows[j].status) && NoStaleReader(d, j)
    ensures j < |Run(d, steps, site).rows| && Run(d, steps, site).rows[j].status == d.rows[j].status
    decreases |steps|
  {
    hide Do, Inv, Enabled;
    if steps != [] {
      assert !StaleReader(d, j, steps[0].session);
      NotRewritten(d, steps[0], site, j);
      FreshTerminalStays(Do(d, steps[0], site), steps[1..], site, j);
    }
  }

  lemma NotRewritten(d: Db, s: Step, site: Site, j: nat)
    requires Inv(d) && j < |d.rows| && Terminal(d.rows[j].status) && NoStaleReader(d, j)
    ensures var e := Do(d, s, site);
            Inv(e) && j < |e.rows| && e.rows[j].status == d.rows[j].status && NoStaleReader(e, j)
  {
    hide Do, Inv, Roomy;
    assert !StaleReader(d, j, s.session);
    StepKeepsInv(d, s, site);
    StepGoesOnward(d, s, site);
    TerminalRewrittenIff(d, s, site, j);
  }

  /** With a stale reader, at most two statements replace the status. */
  lemma StaleReaderRewrites(d: Db, site: Site, j: nat, p: nat) returns (steps: seq<Step>)
    requires Inv(d) && j < |d.rows| && Terminal(d.rows[j].status) && StaleReader(d, j, p)
    ensures Run(d, steps, site).rows != d.rows && |Run(d, steps, site).rows| == |d.rows|
    ensures Run(d, steps, site).rows[j].status != d.rows[j].status
  {
    hide Roomy;
    var t := if d.rows[j].status.Cancelled? then Failed else Cancelled;
    if Locked(d) {
      var q :| 0 <= q < |d.sessions| && d.sessions[q].InTxn?;
      var free := Do(d, Rollback(q), site);
      assert !Locked(free);
      RunConcat(d, [Rollback(q)], [WriteTerminal(p, t)], site);
      RunOne(d, Rollback(q), site);
      RunOne(free, WriteTerminal(p, t), site);
      steps := [Rollback(q)] + [WriteTerminal(p, t)];
    } else {
      RunOne(d, WriteTerminal(p, t), site);
      steps := [WriteTerminal(p, t)];
    }
  }

  /**
   A job keeps the terminal status it shows through every later run exactly if no session still holds an
   earlier reading of it.
   */
  lemma TerminalStatusStaysIff(d: Db, site: Site, j: nat)
    requires Inv(d) && j < |d.rows| && Terminal(d.rows[j].status)
    ensures (forall steps {:trigger Run(d, steps, site)} ::
               j < |Run(d, steps, site).rows| && Run(d, steps, site).rows[j].status == d.rows[j].status)
            <==> NoStaleReader(d, j)
  {
    hide Run, Inv, StaleReader;
    if NoStaleReader(d, j) {
      forall steps ensures j < |Run(d, steps, site).rows| && Run(d, steps, site).rows[j].status == d.rows[j].status
      {
        FreshTerminalStays(d, steps, site, j);
      }
    } else {
      var p :| StaleReader(d, j, p);
      var steps := StaleReaderRewrites(d, site, j, p);
    }
  }

  /** In every run of `n` sessions over fresh jobs, a terminal status is the last status. */
  ghost predicate TerminalIsFinal(n: nat, site: Site) {
    forall d, a, b {:trigger Run(Run(d, a, site), b, site)} :: Initial(d) && |d.sessions| == n ==>
      forall j :: 0 <= j < |Run(d, a, site).rows| && Terminal(Run(d, a, site).rows[j].status) ==>
        j < |Run(Run(d, a, site), b, site).rows|
        && Run(Run(d, a, site), b, site).rows[j].status == Run(d, a, site).rows[j].status
  }

  /** What a lone session read is still so. */
  ghost predicate ReadsAreFresh(d: Db) {
    forall p :: 0 <= p < |d.sessions| && d.sessions[p].Read? && d.sessions[p].job < |d.rows| ==>
      d.rows[d.sessions[p].job].status == d.sessions[p].seen
  }

  lemma {:induction false} LoneSessionReadsFresh(d: Db, steps: seq<Step>, site: Site)
    requires Inv(d) && ReadsAreFresh(d) && |d.sessions| <= 1
    ensures var e := Run(d, steps, site); Inv(e) && ReadsAreFresh(e) && |e.sessions| <= 1
    decreases |steps|
  {
    hide Do, Inv, ReadsAreFresh;
    if steps != [] {
      StepKeepsInv(d, steps[0], site);
      LoneStepReadsFresh(d, steps[0], site);
      LoneSessionReadsFresh(Do(d, steps[0], site), steps[1..], site);
    }
  }

  lemma LoneStepReadsFresh(d: Db, s: Step, site: Site)
    requires ReadsAreFresh(d) && |d.sessions| <= 1
    ensures ReadsAreFresh(Do(d, s, site)) && |Do(d, s, site).sessions| <= 1
  {
    hide Roomy;
  }

  /** Sessions 0 and 1 as given, all others idle. */
  function Pair(a: Pc, b: Pc, n: nat): (r: seq<Pc>)
    requires n >= 2
    ensures |r| == n && r[0] == a && r[1] == b && forall p :: 2 <= p < n ==> r[p].Idle?
  {
    Two(a, b, Idle, n)
  }

  lemma PairUpdates(n: nat)
    requires n >= 2
    ensures forall a, b, c :: Pair(a, b, n)[0 := c] == Pair(c, b, n) && Pair(a, b, n)[1 := c] == Pair(a, c, n)
  {
  }

  lemma DoRefresh(d: Db, p: nat, j: nat, site: Site)
    requires p < |d.sessions| && d.sessions[p].Idle? && j < |d.rows|
    ensures Do(d, Refresh(p, j), site) == d.(sessions := d.sessions[p := Read(j, d.rows[j].status)])
  {
  }

  lemma DoGate(d: Db, p: nat, j: nat, s: Status, site: Site)
    requires p < |d.sessions| && p < site.claimers && d.sessions[p] == Read(j, s) && Open(s) && j < |d.rows|
    requires s.Placing? ==> Roomy(d.rows, j, site.cfg)
    ensures Do(d, PassGate(p), site) == d.(sessions := d.sessions[p := Cleared(j, s)])
  {
    hide Roomy;
  }

  /** An unopposed worker claims, runs its side effects and commits. */
  lemma DoClaim(d: Db, p: nat, j: nat, s: Status, site: Site)
    requires p < |d.sessions| && d.sessions[p] == Cleared(j, s) && j < |d.rows| && d.rows[j].status == s && !Locked(d)
    ensures var mid := d.(sessions := d.sessions[p := InTxn(j, s)]);
            && Do(d, TryClaim(p), site) == mid
            && Do(mid, CommitClaim(p, None), site)
               == Db(d.rows[j := Claimed(d.rows[j], s, None)], d.sessions[p := Idle], d.log + [Claim(j, s)])
  {
    hide Roomy;
    var mid := d.(sessions := d.sessions[p := InTxn(j, s)]);
    assert mid.sessions[p := Idle] == d.sessions[p := Idle];
  }

  /** A blind writer looks only at the status it read. */
  lemma DoWrite(d: Db, p: nat, j: nat, seen: Status, t: Status, site: Site)
    requires p < |d.sessions| && d.sessions[p] == Read(j, seen) && Open(seen) && Terminal(t) && j < |d.rows|
             && !Locked(d)
    ensures Do(d, WriteTerminal(p, t), site)
         == d.(rows := d.rows[j := d.rows[j].(status := t)], sessions := d.sessions[p := Idle])
  {
    hide Roomy;
  }

  /** `path` lists the states that `steps` passes through. */
  ghost predicate Follows(path: seq<Db>, steps: seq<Step>, site: Site) {
    && |path| == |steps| + 1
    && forall i :: 0 <= i < |steps| ==> Do(path[i], steps[i], site) == path[i + 1]
  }

  lemma {:induction false} RunFollows(path: seq<Db>, steps: seq<Step>, site: Site)
    requires Follows(path, steps, site)
    ensures Run(path[0], steps, site) == path[|steps|]
    decreases |steps|
  {
    hide Do;
    if steps != [] {
      assert forall i :: 0 <= i < |steps[1..]| ==> Do(path[1..][i], steps[1..][i], site) == path[1..][i + 1] by {
        assert forall i :: 0 <= i < |steps[1..]| ==> path[1..][i] == path[i + 1] && steps[1..][i] == steps[i + 1];
      }
      RunFollows(path[1..], steps[1..], site);
    }
  }

  /** One worker takes one job over one edge. */
  function Turn(p: nat, j: nat): seq<Step> {
    [Refresh(p, j), PassGate(p), TryClaim(p), CommitClaim(p, None)]
  }

  lemma TurnAdvances(d: Db, p: nat, j: nat, site: Site)
    requires p < |d.sessions| && p < site.claimers && d.sessions[p].Idle? && !Locked(d)
    requires j < |d.rows| && Open(d.rows[j].status) && (d.rows[j].status.Placing? ==> Roomy(d.rows, j, site.cfg))
    ensures Run(d, Turn(p, j), site)
         == Db(d.rows[j := Claimed(d.rows[j], d.rows[j].status, None)], d.sessions,
              d.log + [Claim(j, d.rows[j].status)])
  {
    hide Do, Roomy, Claimed;
    var s := d.rows[j].status;
    var d1 := d.(sessions := d.sessions[p := Read(j, s)]);
    var d2 := d.(sessions := d.sessions[p := Cleared(j, s)]);
    var d3 := d.(sessions := d.sessions[p := InTxn(j, s)]);
    var d4 := Db(d.rows[j := Claimed(d.rows[j], s, None)], d.sessions, d.log + [Claim(j, s)]);
    DoRefresh(d, p, j, site);
    assert d1.sessions[p := Cleared(j, s)] == d2.sessions;
    DoGate(d1, p, j, s, site);
    assert d2.sessions[p := InTxn(j, s)] == d3.sessions && d2.sessions[p := Idle] == d.sessions;
    assert !Locked(d2);
    DoClaim(d2, p, j, s, site);
    RunFollows([d, d1, d2, d3, d4], Turn(p, j), site);
  }

  /** Two sessions read an open job; both end it, and the second word stands. */
  lemma TwoWritersDisagree(n: nat, site: Site) returns (d: Db, a: seq<Step>, b: seq<Step>)
    requires n >= 2
    ensures Initial(d) && |d.sessions| == n && |d.rows| == 1
    ensures Run(d, a, site).rows == [Row(Cancelled, 1, 0)] && Run(Run(d, a, site), b, site).rows == [Row(Failed, 1, 0)]
  {
    hide Do, Pair;
    PairUpdates(n);
    var rows := [Row(Admitted, 1, 0)];
    var r := Read(0, Admitted);
    d := Db(rows, Pair(Idle, Idle, n), []);
    var d1 := Db(rows, Pair(r, Idle, n), []);
    var d2 := Db(rows, Pair(r, r, n), []);
    var d3 := Db([Row(Cancelled, 1, 0)], Pair(Idle, r, n), []);
    DoRefresh(d, 0, 0, site);
    DoRefresh(d1, 1, 0, site);
    DoWrite(d2, 0, 0, Admitted, Cancelled, site);
    DoWrite(d3, 1, 0, Admitted, Failed, site);
    a := [Refresh(0, 0), Refresh(1, 0), WriteTerminal(0, Cancelled)];
    b := [WriteTerminal(1, Failed)];
    RunFollows([d, d1, d2, d3], a, site);
    RunOne(d3, WriteTerminal(1, Failed), site);
  }

  /** A terminal status is final exactly when there is a single session: two cancels already disagree. */
  lemma TerminalIsFinalIff(n: nat, site: Site)
    ensures TerminalIsFinal(n, site) <==> n <= 1
  {
    hide Run, Inv, ReadsAreFresh, Initial;
    if n <= 1 {
      forall d, a, b | Initial(d) && |d.sessions| == n
        ensures forall j :: 0 <= j < |Run(d, a, site).rows| && Terminal(Run(d, a, site).rows[j].status) ==>
                  j < |Run(Run(d, a, site), b, site).rows|
                  && Run(Run(d, a, site), b, site).rows[j].status == Run(d, a, site).rows[j].status
      {
        LoneSessionIsFinal(d, a, b, site);
      }
    } else {
      var d, a, b := TwoWritersDisagree(n, site);
      assert Terminal(Run(d, a, site).rows[0].status);
      assert Run(Run(d, a, site), b, site).rows[0].status != Run(d, a, site).rows[0].status;
    }
  }

  lemma LoneSessionIsFinal(d: Db, a: seq<Step>, b: seq<Step>, site: Site)
    requires Initial(d) && |d.sessions| <= 1
    ensures forall j :: 0 <= j < |Run(d, a, site).rows| && Terminal(Run(d, a, site).rows[j].status) ==>
              j < |Run(Run(d, a, site), b, site).rows|
              && Run(Run(d, a, site), b, site).rows[j].status == Run(d, a, site).rows[j].status
  {
    hide Run, Inv;
    InitialIsInv(d);
    LoneSessionReadsFresh(d, a, site);
    var e := Run(d, a, site);
    forall j | 0 <= j < |e.rows| && Terminal(e.rows[j].status)
      ensures j < |Run(e, b, site).rows| && Run(e, b, site).rows[j].status == e.rows[j].status
    {
      assert NoStaleReader(e, j);
      FreshTerminalStays(e, b, site, j);
    }
  }

  // ----- one session at a time

  /** What the statements of this model see of a job. */
  function RowOf(f: JobFile): Row {
    Row(f.job.status, f.job.worldSize, |f.placements|)
  }

  /** The terminal status that a claim's side effects write over the claimed one, if they fail. */
  function FailedAs(g: JobFile): Option<Status> {
    if Terminal(g.job.status) && !g.job.status.Succeeded? then Some(g.job.status) else None
  }

  /**
   A worker whose statements are not interleaved leaves the row that its one-step claim leaves, whether the side
   effects succeed or fail.
   */
  lemma UninterruptedClaim(d: Db, p: nat, j: nat, f: JobFile, cfg: Config, w: World, site: Site)
    requires p < |d.sessions| && p < site.claimers && d.sessions[p].Idle? && !Locked(d)
    requires j < |d.rows| && d.rows[j] == RowOf(f) && (f.job.status.Placing? || Holds(f.job.status))
    requires f.job.status.Placing? ==> f.placements == [] && Roomy(d.rows, j, site.cfg)
    ensures var g := ClaimNext(f, true, cfg, w);
            var steps := [Refresh(p, j), PassGate(p), TryClaim(p), CommitClaim(p, FailedAs(g))];
            Run(d, steps, site) == Db(d.rows[j := RowOf(g)], d.sessions, d.log + [Claim(j, f.job.status)])
  {
    hide Do, Roomy, ClaimNext, Locked;
    var s, g := f.job.status, ClaimNext(f, true, cfg, w);
    var d1 := d.(sessions := d.sessions[p := Read(j, s)]);
    var d2 := d.(sessions := d.sessions[p := Cleared(j, s)]);
    var d3 := d.(sessions := d.sessions[p := InTxn(j, s)]);
    var d4 := Db(d.rows[j := Claimed(d.rows[j], s, FailedAs(g))], d.sessions, d.log + [Claim(j, s)]);
    DoRefresh(d, p, j, site);
    assert d1.sessions[p := Cleared(j, s)] == d2.sessions;
    DoGate(d1, p, j, s, site);
    assert d2.sessions[p := InTxn(j, s)] == d3.sessions && d3.sessions[p := Idle] == d.sessions;
    assert !Locked(d2) by { UnlockedStays(d, p, Cleared(j, s)); }
    DoTry(d2, p, j, s, site);
    DoCommit(d3, p, j, s, FailedAs(g), site);
    RunFollows([d, d1, d2, d3, d4], [Refresh(p, j), PassGate(p), TryClaim(p), CommitClaim(p, FailedAs(g))], site);
    ClaimedRow(f, cfg, w);
  }

  lemma UnlockedStays(d: Db, p: nat, pc: Pc)
    requires p < |d.sessions| && !Locked(d) && !pc.InTxn?
    ensures !Locked(d.(sessions := d.sessions[p := pc]))
  {
  }

  lemma DoTry(d: Db, p: nat, j: nat, s: Status, site: Site)
    requires p < |d.sessions| && d.sessions[p] == Cleared(j, s) && j < |d.rows| && d.rows[j].status == s && !Locked(d)
    ensures Do(d, TryClaim(p), site) == d.(sessions := d.sessions[p := InTxn(j, s)])
  {
    hide Roomy;
  }

  lemma DoCommit(d: Db, p: nat, j: nat, s: Status, failed: Option<Status>, site: Site)
    requires p < |d.sessions| && d.sessions[p] == InTxn(j, s) && j < |d.rows|
    requires failed.Some? ==> Terminal(failed.value)
    ensures Do(d, CommitClaim(p, failed), site)
         == Db(d.rows[j := Claimed(d.rows[j], s, failed)], d.sessions[p := Idle], d.log + [Claim(j, s)])
  {
    hide Roomy, Claimed;
  }

  lemma ClaimedRow(f: JobFile, cfg: Config, w: World)
    requires f.job.status.Placing? || Holds(f.job.status)
    requires f.job.status.Placing? ==> f.placements == []
    ensures var g := ClaimNext(f, true, cfg, w); Claimed(RowOf(f), f.job.status, FailedAs(g)) == RowOf(g)
  {
    hide TimeoutDue, Latest, StopLatest, EnsureAttempt;
    if f.job.status.Running? {
    } else {
    }
  }

  /** So does a session that ends a job: read and written at once, it is the one-step cancel. */
  lemma UninterruptedCancel(d: Db, p: nat, j: nat, f: JobFile, now: Time, site: Site)
    requires p < |d.sessions| && d.sessions[p].Idle? && !Locked(d)
    requires j < |d.rows| && d.rows[j] == RowOf(f) && Open(f.job.status)
    ensures var g := CancelBy(f, f.job.submitter, now).0;
            Run(d, [Refresh(p, j), WriteTerminal(p, Cancelled)], site) == d.(rows := d.rows[j := RowOf(g)])
  {
    hide Do, Locked;
    var s := f.job.status;
    var d1 := d.(sessions := d.sessions[p := Read(j, s)]);
    DoRefresh(d, p, j, site);
    UnlockedStays(d, p, Read(j, s));
    DoWrite(d1, p, j, s, Cancelled, site);
    var d2 := d.(rows := d.rows[j := d.rows[j].(status := Cancelled)]);
    assert d1.sessions[p := Idle] == d.sessions;
    RunFollows([d, d1, d2], [Refresh(p, j), WriteTerminal(p, Cancelled)], site);
  }

  function Stage(k: nat): Status
    requires k <= 6
  {
    [Admitted, Placing, Provisioning, Running, Collecting, Scoring, Succeeded][k]
  }

  function Turns(k: nat): seq<Step> {
    if k == 0 then [] else Turns(k - 1) + Turn(0, 0)
  }

  /** A worker alone on the table takes its only job `k` edges on. */
  lemma {:induction false} TurnsAdvance(d: Db, k: nat, site: Site)
    requires k <= 6 && site.claimers >= 1 && |d.sessions| >= 1 && !Locked(d) && d.sessions[0].Idle?
    requires d.rows == [Row(Admitted, 1, 0)]
    ensures var e := Run(d, Turns(k), site);
            e.rows == [Row(Stage(k), 1, if k >= 2 then 1 else 0)] && e.sessions == d.sessions
    decreases k
  {
    hide Locked, Run, Turn, Roomy;
    if k == 0 {
      RunNone(d, site);
    } else {
      TurnsAdvance(d, k - 1, site);
      var e := Run(d, Turns(k - 1), site);
      OneRankFits(e.rows, site.cfg);
      SameSessionsSameLock(d, e);
      TurnAdvances(e, 0, 0, site);
      RunConcat(d, Turns(k - 1), Turn(0, 0), site);
    }
  }

  lemma SameSessionsSameLock(d: Db, e: Db)
    requires d.sessions == e.sessions
    ensures Locked(d) == Locked(e)
  {
  }

  lemma OneRankFits(rows: seq<Row>, cfg: Config)
    requires |rows| == 1 && rows[0].worldSize == 1
    ensures Roomy(rows, 0, cfg)
  {
    assert Others(rows, 0) == [];
  }

  /**
   With a single worker, a cancel that read the job while it was scoring still replaces the success that the
   worker commits in between.
   */
  lemma SuccessCanBeOverwritten(n: nat, site: Site) returns (d: Db, before: seq<Step>)
    requires n >= 2 && site.claimers >= 1
    ensures Initial(d) && |d.sessions| == n && |d.rows| == 1
    ensures Run(d, before, site).rows == [Row(Succeeded, 1, 1)]
    ensures Run(d, before + [WriteTerminal(1, Cancelled)], site).rows == [Row(Cancelled, 1, 1)]
  {
    hide Do, Pair, Run, Turn, Turns;
    PairUpdates(n);
    d := Db([Row(Admitted, 1, 0)], Pair(Idle, Idle, n), []);
    TurnsAdvance(d, 5, site);
    var scoring := Run(d, Turns(5), site);
    var read := Read(0, Scoring);
    DoRefresh(scoring, 1, 0, site);
    RunOne(scoring, Refresh(1, 0), site);
    var seen := Run(scoring, [Refresh(1, 0)], site);
    assert seen == Db([Row(Scoring, 1, 1)], Pair(Idle, read, n), scoring.log);
    TurnAdvances(seen, 0, 0, site);
    var done := Run(seen, Turn(0, 0), site);
    DoWrite(done, 1, 0, Scoring, Cancelled, site);
    RunOne(done, WriteTerminal(1, Cancelled), site);
    before := Turns(5) + [Refresh(1, 0)] + Turn(0, 0);
    RunConcat(d, Turns(5) + [Refresh(1, 0)], Turn(0, 0), site);
    RunConcat(d, Turns(5), [Refresh(1, 0)], site);
    RunConcat(d, before, [WriteTerminal(1, Cancelled)], site);
  }
}
