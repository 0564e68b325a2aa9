/**
 Why a job ended: `EveryEndHasACause` traces every reachable end back to the one decision that made it. Before it come
 the decisions of the job writers, one by one, as conditions on what they read.
 */
module JobDecisions {
  import opened Common
  import opened JobRecords
  import opened JobHistory

  // ----- capacity binding

  /** The job may run on this lease and pod: its own, live lease, and the pod of that very lease. */
  ghost predicate Usable(j: Job, cap: Capacity, lease: string, pod: string) {
    && lease in cap.leases && cap.leases[lease].active && cap.leases[lease].renter == j.submitter
    && (if Truthy(j.pod) then pod == j.pod.value && pod in cap.pods && cap.pods[pod] == lease
        else cap.leases[lease].pod == Some(pod))
  }

  /**
   A job that names a lease is bound exactly when that lease and its pod are usable, and fails otherwise.
   A job without a lease is bound at once in simulation; else it waits out the capacity timeout and fails.
   */
  lemma BindDecides(j: Job, cap: Capacity, cfg: Config, now: Time)
    ensures var b := TryBind(j, cap, cfg, now);
            var patience := if cfg.waitS == 0 then 2 else cfg.waitS;
            && (Truthy(j.lease) ==>
                  && (forall l, p :: b == Bound(Some((l, p))) <==> l == j.lease.value && Usable(j, cap, l, p))
                  && (b.Bound? || b == Unbound("lease_inactive") || b == Unbound("foreign_lease"))
                  && (b.Bound? ==> b.ids.Some?))
            && (!Truthy(j.lease) ==>
                  && (b == Bound(None) <==> cfg.simAuto)
                  && (b == Wait <==> !cfg.simAuto && now < j.admitted.GetOr(j.created) + patience)
                  && (b == Unbound("no_capacity") <==> !cfg.simAuto && now >= j.admitted.GetOr(j.created) + patience))
  {
  }

  // ----- one worker step

  ghost predicate NewestSealed(f: JobFile) {
    f.attempts != [] && Sealed(f.attempts[Latest(f.attempts)])
  }

  ghost predicate Waiting(s: Status) {
    s.Submitted? || s.Admitted? || s.Placing?
  }

  /** When the job's clock started: at its start, else at its admission, else at its creation. */
  ghost function ClockStart(j: Job): Time {
    match j.started
    case Some(t) => t
    case None =>
      match j.admitted
      case Some(t) => t
      case None => j.created
  }

  /** The job has started, or holds budget, and has had its `timeoutS` seconds (at least none) by `at`. */
  ghost predicate Overdue(j: Job, at: Time) {
    && (Waiting(j.status) ==> j.started.Some?)
    && at - ClockStart(j) >= 0 && at - ClockStart(j) >= j.timeoutS
  }

  /** The ways a worker step times an open job out, and when. */
  ghost predicate TimesOut(f: JobFile, cfg: Config, w: World, at: Time) {
    || (Overdue(f.job, w.now) && at == w.now)
    || (!Overdue(f.job, w.now) && f.job.status.Running?
        && if cfg.runSleep && Overdue(f.job, w.wake) then at == w.wake
           else w.launch.LaunchTimedOut? && !NewestSealed(f) && at == w.now)
  }

  /** The timeout rule in whole: an open job is overdue exactly when the worker's clock says so. */
  lemma OverdueIff(j: Job, at: Time)
    requires Open(j.status)
    ensures TimeoutDue(j, at) <==> Overdue(j, at)
  {
  }

  /** Every way a worker step can end an open job; cancelling is not one of them. */
  lemma WorkerOutcomeIff(f: JobFile, roomy: bool, cfg: Config, w: World)
    requires Open(f.job.status)
    ensures var s := f.job.status;
            var due := Overdue(f.job, w.now);
            var asleep := cfg.runSleep && Overdue(f.job, w.wake);
            var bind := TryBind(f.job, w.capacity, cfg, w.now);
            var r := Advance(f, roomy, cfg, w).job;
            && (r.status.TimedOut? <==>
                  || due
                  || (s.Running? && (asleep || (w.launch.LaunchTimedOut? && !NewestSealed(f)))))
            && (r.status.TimedOut? ==> r.finished.Some? && TimesOut(f, cfg, w, r.finished.value))
            && (r.status.Failed? <==>
                  || (!due && Waiting(s) && bind.Unbound?)
                  || (!due && Waiting(s) && bind.Bound? && roomy && w.placing.Refused?)
                  || (!due && s.Provisioning? && cfg.launchFail)
                  || (!due && s.Running? && !asleep && w.launch.LaunchFailed? && !NewestSealed(f)))
            && (r.status.Succeeded? <==> !due && s.Scoring?)
            && !r.status.Cancelled?
  {
    hide TimeoutDue, Overdue, TryBind, Latest, EnsureAttempt;
    OverdueIff(f.job, w.now);
    if Waiting(f.job.status) {
    } else if f.job.status.Running? {
      OverdueIff(f.job.(status := Collecting), w.wake);
      SameClock(f.job, w.wake);
      NoAttemptIsUnsealed(f);
    } else {
    }
  }

  lemma SameClock(j: Job, at: Time)
    requires j.status.Running?
    ensures Overdue(j.(status := Collecting), at) <==> Overdue(j, at)
  {
  }

  /** The attempt that collecting creates is not sealed. */
  lemma NoAttemptIsUnsealed(f: JobFile)
    ensures var tries := EnsureAttempt(f.attempts); NewestSealed(f) <==> Sealed(tries[Latest(tries)])
  {
  }

  /** What the worker writes when it does not end the job: the next status on the way, nothing skipped. */
  lemma WorkerProgressIff(f: JobFile, roomy: bool, cfg: Config, w: World)
    requires Open(f.job.status) && Open(Advance(f, roomy, cfg, w).job.status)
    ensures var s, r := f.job.status, Advance(f, roomy, cfg, w).job.status;
            && (Waiting(s) ==>
                  r == if TryBind(f.job, w.capacity, cfg, w.now).Bound? && roomy then Provisioning else Placing)
            && (!Waiting(s) ==> Forward(s) == Some(r))
  {
    hide TryBind, StopLatest, Latest, EnsureAttempt, Truthy, Sealed, TimeoutDue;
    if !Waiting(f.job.status) {
      if f.job.status.Running? {
      } else {
      }
    }
  }

  /** Entering `provisioning` leaves exactly the placement of the planner, entering `running` a start time. */
  lemma WorkerLeavesTraces(f: JobFile, roomy: bool, cfg: Config, w: World)
    requires Open(f.job.status)
    ensures var g := Advance(f, roomy, cfg, w);
            && (g.job.status.Provisioning? && f.placements == [] ==>
                  w.placing.Placed? && g.placements == [w.placing.graph])
            && (g.job.status.Running? ==> g.job.started == Some(f.job.started.GetOr(w.now)) && g.attempts != [])
  {
    hide TryBind, StopLatest, Latest, Truthy, Sealed;
    if f.job.status.Running? {
    } else {
    }
  }

  // ----- result posts

  /** The three answers to an admissible post, told by the attempts with its number. */
  lemma PostOutcomeIff(f: JobFile, actor: Option<string>, parties: set<string>,
                       e: Envelope, hash: Envelope -> Digest, now: Time)
    requires FileOk(f) && e.no >= 1 && MayPost(f.job, actor, parties)
    ensures var (g, out) := PostResults(f, actor, parties, e, hash, now);
            && (out.Replayed? <==> exists i :: 0 <= i < |f.attempts| && f.attempts[i].no == e.no
                                               && Answers(f.attempts[i], e, hash(e)))
            && (out.Conflict? <==> exists i :: 0 <= i < |f.attempts| && f.attempts[i].no == e.no
                                               && Sealed(f.attempts[i]) && !Answers(f.attempts[i], e, hash(e)))
            && (out.Stored? <==> forall i :: 0 <= i < |f.attempts| && f.attempts[i].no == e.no ==>
                                   !Sealed(f.attempts[i]) && !Answers(f.attempts[i], e, hash(e)))
            && (!out.Stored? ==> g == f)
  {
  }

  /** A stored post with a terminal status ends an open job with that status; otherwise the job is untouched. */
  lemma StoredPostEndsJobIff(f: JobFile, actor: Option<string>, parties: set<string>,
                             e: Envelope, hash: Envelope -> Digest, now: Time)
    requires FileOk(f) && PostResults(f, actor, parties, e, hash, now).1.Stored?
    ensures var g := PostResults(f, actor, parties, e, hash, now).0;
            && (Terminal(e.status) && Open(f.job.status) ==> g.job.status == e.status && g.job.finished == Some(now))
            && (!(Terminal(e.status) && Open(f.job.status)) ==> g.job == f.job)
            && (exists i :: 0 <= i < |g.attempts| && g.attempts[i] == SealWith(e.no, e, hash(e), now))
  {
    var (g, out) := PostResults(f, actor, parties, e, hash, now);
    assert g.attempts[out.at] == SealWith(e.no, e, hash(e), now);
  }

  // ----- why jobs end

  /** A job that was never provisioned has no start time. */
  ghost predicate UnstartedWhileWaiting(j: Job) {
    Waiting(j.status) ==> j.started.None?
  }

  /** The failure code of a failed worker step, by the status the job had. */
  ghost predicate FailureCode(g: JobFile, roomy: bool, w: World, cfg: Config, code: string) {
    || (Waiting(g.job.status) && code in {"no_capacity", "lease_inactive", "foreign_lease"})
    || (Waiting(g.job.status) && roomy && w.placing == Refused(code))
    || (g.job.status.Provisioning? && cfg.launchFail && code == "launch_failed")
    || (g.job.status.Running? && w.launch.LaunchFailed?
        && code == if Truthy(w.launch.code) then w.launch.code.value else "sim_launch_fail")
  }

  /** `op` on the open job `g` is a reason to show terminal status and failure code `j`. */
  ghost predicate Cause(g: JobFile, op: Op, s: Setup, j: Job) {
    match op
    case DoCancel(hotkey, now) =>
      hotkey == g.job.submitter && j.status.Cancelled? && j.failure == Some("cancelled") && j.finished == Some(now)
    case DoPost(actor, parties, e, now) =>
      && MayPost(g.job, actor, parties) && e.no >= 1 && Terminal(e.status) && j.status == e.status
        && j.finished == Some(now)
      && (j.status.Succeeded? || j.failure == Some(if Truthy(e.failure) then e.failure.value else StatusName(e.status)))
    case DoAdvance(roomy, w) =>
      match j.status
      case Succeeded => g.job.status.Scoring? && HasSealed(g.attempts)
      case TimedOut =>
        && Holds(g.job.status) && j.failure == Some("timeout")
        && j.finished.Some? && TimesOut(g, s.cfg, w, j.finished.value)
      case Failed => j.failure.Some? && FailureCode(g, roomy, w, s.cfg, j.failure.value)
      case _ => false
  }

  /** Nothing open is left behind: the newest attempt has ended too. */
  ghost predicate NewestEnded(tries: seq<Attempt>) {
    tries != [] ==> Terminal(tries[Latest(tries)].status)
  }

  lemma CommitStaysUnstarted(f: JobFile, op: Op, s: Setup)
    requires FileOk(f) && UnstartedWhileWaiting(f.job)
    ensures UnstartedWhileWaiting(Commit(f, op, s).job)
  {
    hide TryBind;
    if op.DoAdvance? && Open(f.job.status) && Open(Advance(f, op.roomy, s.cfg, op.world).job.status) {
      WorkerProgressIff(f, op.roomy, s.cfg, op.world);
    }
  }

  lemma WaitingEndHasCause(g: JobFile, roomy: bool, w: World, s: Setup)
    requires Waiting(g.job.status) && g.job.started.None? && Terminal(Advance(g, roomy, s.cfg, w).job.status)
    ensures var j := Advance(g, roomy, s.cfg, w).job;
            j.status.Failed? && j.failure.Some? && FailureCode(g, roomy, w, s.cfg, j.failure.value)
  {
    hide TryBind, StopLatest;
    BindDecides(g.job, w.capacity, s.cfg, w.now);
  }

  lemma RunningEndHasCause(g: JobFile, roomy: bool, w: World, s: Setup)
    requires FileOk(g) && Holds(g.job.status) && Terminal(Advance(g, roomy, s.cfg, w).job.status)
    ensures Cause(g, DoAdvance(roomy, w), s, Advance(g, roomy, s.cfg, w).job)
  {
    hide TryBind, StopLatest, AttemptsOk, EndsWithJob, HasSealed, EnsureAttempt, Latest, TimesOut, Overdue;
    WorkerOutcomeIff(g, roomy, s.cfg, w);
  }

  lemma WorkerEndHasCause(g: JobFile, roomy: bool, w: World, s: Setup)
    requires FileOk(g) && Open(g.job.status) && UnstartedWhileWaiting(g.job)
    requires Terminal(Advance(g, roomy, s.cfg, w).job.status)
    ensures Cause(g, DoAdvance(roomy, w), s, Advance(g, roomy, s.cfg, w).job)
  {
    hide Advance, FileOk;
    if Waiting(g.job.status) {
      WaitingEndHasCause(g, roomy, w, s);
    } else {
      RunningEndHasCause(g, roomy, w, s);
    }
  }

  lemma EndHasCause(g: JobFile, op: Op, s: Setup)
    requires FileOk(g) && Open(g.job.status) && UnstartedWhileWaiting(g.job) && Terminal(Commit(g, op, s).job.status)
    ensures Cause(g, op, s, Commit(g, op, s).job)
  {
    hide Advance;
    if op.DoAdvance? {
      WorkerEndHasCause(g, op.roomy, op.world, s);
    }
  }

  /** The planner's refusal ends the job but leaves its attempts as they are. */
  predicate RefusedPlace(g: JobFile, op: Op) {
    op.DoAdvance? && !Holds(g.job.status) && op.world.placing.Refused?
  }

  lemma {:induction false} LatestByNumber(a: seq<Attempt>, b: seq<Attempt>)
    requires a != [] && |a| == |b| && forall i :: 0 <= i < |a| ==> a[i].no == b[i].no
    ensures Latest(a) == Latest(b)
    decreases |a|
  {
    if |a| > 1 {
      LatestByNumber(a[..|a| - 1], b[..|b| - 1]);
    }
  }

  lemma NewestReplaced(tries: seq<Attempt>, a: Attempt)
    requires tries != [] && a.no == tries[Latest(tries)].no && Terminal(a.status)
    ensures NewestEnded(tries[Latest(tries) := a])
  {
    hide Latest;
    LatestByNumber(tries, tries[Latest(tries) := a]);
  }

  lemma StopLatestEnds(tries: seq<Attempt>, s: Status, code: string, now: Time)
    requires Terminal(s)
    ensures NewestEnded(StopLatest(tries, s, code, now))
  {
    hide Latest;
    if tries != [] && !Terminal(tries[Latest(tries)].status) {
      NewestReplaced(tries, tries[Latest(tries)].(status := s, failure := Some(code), finished := Some(now)));
    }
  }

  lemma TimeoutEnds(f: JobFile, now: Time)
    ensures NewestEnded(MarkTimeout(f, now).attempts)
  {
    StopLatestEnds(f.attempts, TimedOut, "timeout", now);
  }

  lemma ClaimEnds(f: JobFile, roomy: bool, cfg: Config, w: World)
    requires FileOk(f) && Open(f.job.status) && Terminal(ClaimNext(f, roomy, cfg, w).job.status)
    requires f.job.status.Placing? ==> !w.placing.Refused?
    ensures NewestEnded(ClaimNext(f, roomy, cfg, w).attempts)
  {
    hide Latest, MarkTimeout, NewestEnded, TimeoutDue, AttemptsOk, EndsWithJob, HasSealed, EnsureAttempt;
    var tries := EnsureAttempt(f.attempts);
    var newest := tries[Latest(tries)];
    match f.job.status
    case Provisioning =>
      NewestReplaced(tries, newest.(status := Failed, failure := Some("launch_failed"), finished := Some(w.now)));
    case Running =>
      TimeoutEnds(f.(job := f.job.(status := Collecting)), w.wake);
      CollectEnds(f.(job := f.job.(status := Collecting)), w.launch, w.now);
    case Scoring => FinishEnds(f.(job := f.job.(status := Succeeded)), w.now);
    case _ =>
  }

  lemma CollectEnds(f: JobFile, launch: Launch, now: Time)
    ensures Terminal(Collect(f, launch, now).job.status) && !Terminal(f.job.status) ==>
              NewestEnded(Collect(f, launch, now).attempts)
  {
    hide Latest, NewestEnded, EnsureAttempt;
    var tries := EnsureAttempt(f.attempts);
    var newest := tries[Latest(tries)];
    match launch
    case LaunchFailed(m, fab, code) =>
      var why := if Truthy(code) then code.value else "sim_launch_fail";
      NewestReplaced(tries, newest.(status := Failed, failure := Some(why), metrics := Some(m), fabric := Some(fab),
                                    finished := Some(now)));
    case LaunchTimedOut(m, fab) =>
      NewestReplaced(tries, newest.(status := TimedOut, failure := Some("timeout"), metrics := Some(m),
                                    fabric := Some(fab), finished := Some(now)));
    case _ =>
  }

  lemma FinishEnds(f: JobFile, now: Time)
    ensures NewestEnded(Finish(f, now).attempts)
  {
    hide Latest;
    if f.attempts != [] && !f.attempts[Latest(f.attempts)].status.Succeeded? {
      var newest := f.attempts[Latest(f.attempts)];
      NewestReplaced(f.attempts, newest.(status := Succeeded, finished := Some(newest.finished.GetOr(now))));
    }
  }

  /** A cancel or a worker ends the newest attempt with the job, unless the planner refused the placement. */
  lemma EndClosesNewest(g: JobFile, op: Op, s: Setup)
    requires FileOk(g) && Open(g.job.status) && !op.DoPost? && Terminal(Commit(g, op, s).job.status)
    requires !RefusedPlace(g, op)
    ensures NewestEnded(Commit(g, op, s).attempts)
  {
    hide TryBind, TimeoutDue, Latest, NewestEnded, ClaimNext, MarkTimeout, StopLatest, AttemptsOk, EndsWithJob,
      HasSealed;
    match op
    case DoCancel(_, now) => StopLatestEnds(g.attempts, Cancelled, "cancelled", now);
    case DoAdvance(roomy, w) =>
      TimeoutEnds(g, w.now);
      if Waiting(g.job.status) {
        match TryBind(g.job, w.capacity, s.cfg, w.now)
        case Unbound(code) => StopLatestEnds(g.attempts, Failed, code, w.now);
        case Wait =>
        case Bound(ids) => PlacingEnds(g.(job := ApplyBind(g.job, ids).(status := Placing)), roomy, s.cfg, w);
      } else if !TimeoutDue(g.job, w.now) {
        ClaimEnds(g, roomy, s.cfg, w);
      }
  }

  lemma PlacingEnds(f: JobFile, roomy: bool, cfg: Config, w: World)
    requires f.job.status.Placing? && !w.placing.Refused?
    ensures !Terminal(ClaimNext(f, roomy, cfg, w).job.status)
  {
  }

  /**
   Whatever happens to a job from admission on, its final status and failure code were written once, by one of
   the listed causes: a cancel by its submitter, an admissible post, or a worker step. A worker times out only
   jobs that were provisioned, so waiting for capacity or budget never times out. Cancels and workers leave no
   open newest attempt behind.
   */
  lemma {:induction false} EveryEndHasACause(f: JobFile, ops: seq<Op>, s: Setup) returns (i: nat)
    requires FileOk(f) && Open(f.job.status) && UnstartedWhileWaiting(f.job) && Terminal(Run(f, ops, s).job.status)
    ensures i < |ops|
    ensures var g := Run(f, ops[..i], s);
            && FileOk(g) && Open(g.job.status) && Run(f, ops, s).job == Commit(g, ops[i], s).job
            && Cause(g, ops[i], s, Run(f, ops, s).job)
            && (!ops[i].DoPost? && !RefusedPlace(g, ops[i]) ==> NewestEnded(Commit(g, ops[i], s).attempts))
    decreases |ops|
  {
    hide Commit, Cause, NewestEnded, RefusedPlace;
    assert ops != [];
    var next := Commit(f, ops[0], s);
    CommitSafe(f, ops[0], s);
    if Terminal(next.job.status) {
      EndHasCause(f, ops[0], s);
      if !ops[0].DoPost? && !RefusedPlace(f, ops[0]) {
        EndClosesNewest(f, ops[0], s);
      }
      TerminalIsFrozen(next, ops[1..], s);
      assert ops[..0] == [];
      i := 0;
    } else {
      CommitStaysUnstarted(f, ops[0], s);
      var k := EveryEndHasACause(next, ops[1..], s);
      i := k + 1;
      assert ops[..i][0] == ops[0] && ops[..i][1..] == ops[1..][..k];
    }
  }
}
