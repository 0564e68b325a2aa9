/** What every writer keeps, and what survives every run of writers, on the rows of one job. */
module JobHistory {
  import opened Common
  import opened JobRecords

  /** One committed transaction on a job; `roomy` is the budget gate's answer, arbitrary here. */
  datatype Op =
    | DoCancel(hotkey: string, at: Time)
    | DoPost(actor: Option<string>, parties: set<string>, envelope: Envelope, when: Time)
    | DoAdvance(roomy: bool, world: World)

  datatype Setup = Setup(cfg: Config, hash: Envelope -> Digest)

  function Commit(f: JobFile, op: Op, s: Setup): JobFile {
    match op
    case DoCancel(hotkey, now) => CancelBy(f, hotkey, now).0
    case DoPost(actor, parties, e, now) => PostResults(f, actor, parties, e, s.hash, now).0
    case DoAdvance(roomy, w) => Advance(f, roomy, s.cfg, w)
  }

  function Run(f: JobFile, ops: seq<Op>, s: Setup): JobFile
    decreases |ops|
  {
    if ops == [] then f else Run(Commit(f, ops[0], s), ops[1..], s)
  }

  /** A run is its sessions in order. */
  lemma {:induction false} RunIsInOrder(f: JobFile, ops: seq<Op>, next: Op, s: Setup)
    ensures Run(f, ops + [next], s) == Commit(Run(f, ops, s), next, s) && Run(f, [], s) == f
    decreases |ops|
  {
    hide Commit;
    if ops == [] {
      assert ops + [next] == [next] && [next][1..] == [];
    } else {
      assert (ops + [next])[0] == ops[0] && (ops + [next])[1..] == ops[1..] + [next];
      RunIsInOrder(Commit(f, ops[0], s), ops[1..], next, s);
    }
  }

  // ----- the record invariant

  ghost predicate JobOk(j: Job) {
    && (Open(j.status) || Terminal(j.status))
    && (Terminal(j.status) <==> j.finished.Some?)
    && (j.failure.Some? <==> j.status.Failed? || j.status.Cancelled? || j.status.TimedOut?)
    && (j.status.Running? || j.status.Collecting? || j.status.Scoring? ==> j.started.Some?)
  }

  ghost predicate AttemptsOk(tries: seq<Attempt>) {
    && (forall i, k :: 0 <= i < k < |tries| ==> tries[i].no != tries[k].no)
    && (forall i :: 0 <= i < |tries| ==> tries[i].result.Some? ==> tries[i].finished.Some?)
  }

  ghost predicate HasSealed(tries: seq<Attempt>) {
    exists i :: 0 <= i < |tries| && Sealed(tries[i])
  }

  ghost predicate FileOk(f: JobFile) {
    && JobOk(f.job)
    && AttemptsOk(f.attempts)
    && |f.placements| <= 1
    && (Holds(f.job.status) ==> |f.placements| == 1)
    && (f.job.status.Collecting? || f.job.status.Scoring? || f.job.status.Succeeded? ==> HasSealed(f.attempts))
    && EndsWithJob(f)
  }

  /** While a job is open none of its attempts has ended, except in success once it is being collected. */
  ghost predicate EndsWithJob(f: JobFile) {
    Open(f.job.status) ==>
      forall i :: 0 <= i < |f.attempts| ==> Terminal(f.attempts[i].status) ==>
        f.attempts[i].status.Succeeded? && (f.job.status.Collecting? || f.job.status.Scoring?)
  }

  /** Attempts are never removed or renumbered, and a sealed one keeps its results. */
  ghost predicate KeepsTries(before: seq<Attempt>, after: seq<Attempt>) {
    && |before| <= |after|
    && forall i {:trigger before[i]} {:trigger after[i]} :: 0 <= i < |before| ==>
         && before[i].no == after[i].no
         && (Sealed(before[i]) ==>
               && Sealed(after[i]) && after[i].result == before[i].result && after[i].metrics == before[i].metrics
               && after[i].fabric == before[i].fabric && after[i].output == before[i].output)
  }

  /** What no writer may change: attempts as above, a written placement, the first fabric report. */
  ghost predicate KeepsEvidence(before: JobFile, after: JobFile) {
    && KeepsTries(before.attempts, after.attempts)
    && (before.placements != [] ==> after.placements == before.placements)
    && (before.report.Some? ==> after.report == before.report)
  }

  ghost predicate Safe(before: JobFile, after: JobFile) {
    FileOk(after) && KeepsEvidence(before, after)
  }

  lemma SealedSurvives(before: seq<Attempt>, after: seq<Attempt>)
    requires KeepsTries(before, after) && HasSealed(before)
    ensures HasSealed(after)
  {
  }

  lemma StopLatestKeeps(tries: seq<Attempt>, s: Status, code: string, now: Time)
    requires AttemptsOk(tries)
    ensures AttemptsOk(StopLatest(tries, s, code, now)) && KeepsTries(tries, StopLatest(tries, s, code, now))
  {
  }

  lemma TimeoutKeeps(f: JobFile, now: Time)
    requires AttemptsOk(f.attempts) && |f.placements| <= 1
    ensures Safe(f, MarkTimeout(f, now))
  {
    StopLatestKeeps(f.attempts, TimedOut, "timeout", now);
  }

  lemma CollectKeeps(f: JobFile, launch: Launch, now: Time)
    requires AttemptsOk(f.attempts) && |f.placements| == 1 && JobOk(f.job) && f.job.status.Collecting?
    requires EndsWithJob(f)
    ensures Safe(f, Collect(f, launch, now))
  {
    var tries := EnsureAttempt(f.attempts);
    var i := Latest(tries);
    var g := Collect(f, launch, now);
    assert KeepsTries(f.attempts, tries);
    if Sealed(tries[i]) || launch.Ran? {
      assert Sealed(g.attempts[i]);
    }
  }

  lemma FinishKeeps(f: JobFile, now: Time)
    requires AttemptsOk(f.attempts) && |f.placements| <= 1 && HasSealed(f.attempts) && f.job.status.Succeeded?
    ensures Safe(f, Finish(f, now))
  {
    var g := Finish(f, now);
    assert KeepsTries(f.attempts, g.attempts);
    SealedSurvives(f.attempts, g.attempts);
  }

  lemma StartKeeps(f: JobFile, launchFail: bool, now: Time)
    requires AttemptsOk(f.attempts) && |f.placements| == 1 && f.job.status.Running?
    requires f.job.finished.None? && f.job.failure.None? && EndsWithJob(f)
    ensures Safe(f, StartRunning(f, launchFail, now))
  {
  }

  lemma ClaimKeeps(f: JobFile, roomy: bool, cfg: Config, w: World)
    requires FileOk(f) && Open(f.job.status)
    ensures Safe(f, ClaimNext(f, roomy, cfg, w))
  {
    hide MarkTimeout, Collect, StartRunning, Finish, Latest;
    match f.job.status
    case Provisioning => StartKeeps(f.(job := f.job.(status := Running)), cfg.launchFail, w.now);
    case Running =>
      var g := f.(job := f.job.(status := Collecting));
      if cfg.runSleep && TimeoutDue(g.job, w.wake) {
        TimeoutKeeps(g, w.wake);
      } else {
        CollectKeeps(g, w.launch, w.now);
      }
    case Scoring => FinishKeeps(f.(job := f.job.(status := Succeeded)), w.now);
    case _ =>
  }

  lemma AdvanceKeeps(f: JobFile, roomy: bool, cfg: Config, w: World)
    requires FileOk(f)
    ensures Safe(f, Advance(f, roomy, cfg, w))
  {
    if Terminal(f.job.status) {
    } else if TimeoutDue(f.job, w.now) {
      TimeoutKeeps(f, w.now);
    } else if f.job.status.Submitted? || f.job.status.Admitted? || f.job.status.Placing? {
      match TryBind(f.job, w.capacity, cfg, w.now)
      case Unbound(code) => StopLatestKeeps(f.attempts, Failed, code, w.now);
      case Wait =>
      case Bound(ids) => ClaimKeeps(f.(job := ApplyBind(f.job, ids).(status := Placing)), roomy, cfg, w);
    } else {
      ClaimKeeps(f, roomy, cfg, w);
    }
  }

  lemma SealAtKeeps(tries: seq<Attempt>, i: nat, e: Envelope, digest: Digest, now: Time)
    requires AttemptsOk(tries) && i == FindAttempt(tries, e.no) && (i < |tries| ==> !Sealed(tries[i]))
    ensures var a := SealWith(e.no, e, digest, now);
            var after := if i < |tries| then tries[i := a] else tries + [a];
            AttemptsOk(after) && KeepsTries(tries, after) && HasSealed(after)
  {
    var a := SealWith(e.no, e, digest, now);
    var after := if i < |tries| then tries[i := a] else tries + [a];
    assert Sealed(after[i]);
  }

  lemma JobAfterPostOk(j: Job, e: Envelope, now: Time)
    requires JobOk(j)
    ensures var r := JobAfterPost(j, e, now);
            && JobOk(r) && (Open(r.status) ==> r == j && !Terminal(e.status)) && (Terminal(j.status) ==> r == j)
  {
  }

  /** A stored post ends the job along with its attempt, or leaves both open. */
  lemma PostEndsWithJob(f: JobFile, actor: Option<string>, parties: set<string>,
                        e: Envelope, hash: Envelope -> Digest, now: Time)
    requires FileOk(f) && PostResults(f, actor, parties, e, hash, now).1.Stored?
    ensures EndsWithJob(PostResults(f, actor, parties, e, hash, now).0)
  {
    JobAfterPostOk(f.job, e, now);
    hide AttemptsOk, HasSealed, JobOk, JobAfterPost, MayPost, Answers, FindAttempt;
  }

  lemma PostKeeps(f: JobFile, actor: Option<string>, parties: set<string>,
                  e: Envelope, hash: Envelope -> Digest, now: Time)
    requires FileOk(f)
    ensures Safe(f, PostResults(f, actor, parties, e, hash, now).0)
  {
    var (g, outcome) := PostResults(f, actor, parties, e, hash, now);
    if outcome.Stored? {
      SealAtKeeps(f.attempts, outcome.at, e, hash(e), now);
      JobAfterPostOk(f.job, e, now);
      PostEndsWithJob(f, actor, parties, e, hash, now);
      hide EndsWithJob, AttemptsOk, KeepsTries, HasSealed, JobOk, JobAfterPost, MayPost, Answers, FindAttempt, Sealed;
    } else {
      assert KeepsTries(f.attempts, f.attempts);
    }
  }

  /** Every committed transaction keeps the record invariant and the evidence. */
  lemma CommitSafe(f: JobFile, op: Op, s: Setup)
    requires FileOk(f)
    ensures FileOk(Commit(f, op, s)) && KeepsEvidence(f, Commit(f, op, s))
  {
    match op
    case DoCancel(hotkey, now) => StopLatestKeeps(f.attempts, Cancelled, "cancelled", now);
    case DoPost(actor, parties, e, now) => PostKeeps(f, actor, parties, e, s.hash, now);
    case DoAdvance(roomy, w) => AdvanceKeeps(f, roomy, s.cfg, w);
  }

  lemma KeepsEvidenceTransitive(f: JobFile, g: JobFile, h: JobFile)
    requires KeepsEvidence(f, g) && KeepsEvidence(g, h)
    ensures KeepsEvidence(f, h)
  {
  }

  // ----- whole runs

  /**
   Over any run of cancels, result posts and worker steps the record invariant holds, and
   sealed results, placement and first report never change.
   */
  lemma {:induction false} RunSafe(f: JobFile, ops: seq<Op>, s: Setup)
    requires FileOk(f)
    ensures FileOk(Run(f, ops, s)) && KeepsEvidence(f, Run(f, ops, s))
    decreases |ops|
  {
    if ops != [] {
      CommitSafe(f, ops[0], s);
      RunSafe(Commit(f, ops[0], s), ops[1..], s);
      KeepsEvidenceTransitive(f, Commit(f, ops[0], s), Run(f, ops, s));
    }
  }

  /** A terminal job record is never written again. */
  lemma {:induction false} TerminalIsFrozen(f: JobFile, ops: seq<Op>, s: Setup)
    requires Terminal(f.job.status)
    ensures Run(f, ops, s).job == f.job
    decreases |ops|
  {
    if ops != [] {
      TerminalIsFrozen(Commit(f, ops[0], s), ops[1..], s);
    }
  }

  /** `b` is what one transaction may make of `a`: never backwards, at most three edges, same identity. */
  ghost predicate Moves(a: Job, b: Job) {
    && Distance(b.status) <= Distance(a.status)
    && (Open(b.status) || Terminal(b.status))
    && (Terminal(a.status) ==> b == a)
    && (Distance(b.status) == Distance(a.status) ==> b.status == a.status)
    && (!Terminal(b.status) ==> Distance(a.status) <= Distance(b.status) + 3)
    && b.worldSize == a.worldSize && b.submitter == a.submitter && b.requestKey == a.requestKey
    && b.nnodes == a.nnodes && b.nproc == a.nproc && b.created == a.created
  }

  lemma ClaimMoves(f: JobFile, roomy: bool, cfg: Config, w: World)
    requires Open(f.job.status)
    ensures var a, b := f.job, ClaimNext(f, roomy, cfg, w).job;
            Moves(a, b) && (Terminal(b.status) || Distance(a.status) <= Distance(b.status) + 1)
  {
    match f.job.status
    case Running =>
    case _ =>
  }

  lemma AdvanceMoves(f: JobFile, roomy: bool, cfg: Config, w: World)
    requires Open(f.job.status) || Terminal(f.job.status)
    ensures Moves(f.job, Advance(f, roomy, cfg, w).job)
  {
    if Open(f.job.status) && !TimeoutDue(f.job, w.now) {
      if f.job.status.Submitted? || f.job.status.Admitted? || f.job.status.Placing? {
        match TryBind(f.job, w.capacity, cfg, w.now)
        case Unbound(code) =>
        case Wait =>
        case Bound(ids) => ClaimMoves(f.(job := ApplyBind(f.job, ids).(status := Placing)), roomy, cfg, w);
      } else {
        ClaimMoves(f, roomy, cfg, w);
      }
    }
  }

  /** No writer moves a job backwards, and who submitted it and how large it is never changes. */
  lemma CommitMovesForward(f: JobFile, op: Op, s: Setup)
    requires Open(f.job.status) || Terminal(f.job.status)
    ensures Moves(f.job, Commit(f, op, s).job)
  {
    if op.DoAdvance? {
      AdvanceMoves(f, op.roomy, s.cfg, op.world);
    }
  }

  // ----- replays of a result post

  /** No later writer can change this attempt's status: it is sealed and no longer the open job's newest, unended
      one. */
  ghost predicate Settled(f: JobFile, i: nat)
    requires i < |f.attempts|
  {
    && Sealed(f.attempts[i])
    && (|| Terminal(f.job.status)
        || Terminal(f.attempts[i].status)
        || exists k :: 0 <= k < |f.attempts| && f.attempts[k].no > f.attempts[i].no)
  }

  lemma AdvanceKeepsStatus(f: JobFile, i: nat, roomy: bool, cfg: Config, w: World)
    requires FileOk(f) && i < |f.attempts| && Settled(f, i)
    ensures var g := Advance(f, roomy, cfg, w);
            i < |g.attempts| && g.attempts[i].status == f.attempts[i].status
  {
    if Open(f.job.status) && !TimeoutDue(f.job, w.now) {
      if f.job.status.Submitted? || f.job.status.Admitted? || f.job.status.Placing? {
        match TryBind(f.job, w.capacity, cfg, w.now)
        case Unbound(code) =>
        case Wait =>
        case Bound(ids) =>
      } else if f.job.status.Provisioning? {
      } else if f.job.status.Running? {
      } else {
      }
    }
  }

  lemma CommitKeepsSettled(f: JobFile, i: nat, op: Op, s: Setup)
    requires FileOk(f) && i < |f.attempts| && Settled(f, i)
    ensures var g := Commit(f, op, s);
            i < |g.attempts| && Settled(g, i) && g.attempts[i].status == f.attempts[i].status
  {
    var g := Commit(f, op, s);
    CommitSafe(f, op, s);
    assert f.attempts[i].no == g.attempts[i].no && Sealed(g.attempts[i]);
    CommitMovesForward(f, op, s);
    assert g.attempts[i].status == f.attempts[i].status by {
      match op
      case DoCancel(_, _) =>
      case DoPost(_, _, _, _) =>
      case DoAdvance(roomy, w) => AdvanceKeepsStatus(f, i, roomy, s.cfg, w);
    }
    if !Terminal(f.job.status) && !Terminal(f.attempts[i].status) {
      var k :| 0 <= k < |f.attempts| && f.attempts[k].no > f.attempts[i].no;
      assert g.attempts[k].no == f.attempts[k].no;
    }
  }
}
