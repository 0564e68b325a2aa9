/**
 What each session of a job writer leaves in the job's rows, column by column: who may write, which attempt is
 written, and with what.
 */
module JobEffects {
  import opened Common
  import opened JobRecords
  import opened JobHistory
  import opened JobDecisions

  /** No attempt has a higher number. */
  ghost predicate IsNewest(tries: seq<Attempt>, i: nat) {
    i < |tries| && forall k :: 0 <= k < |tries| && k != i ==> tries[k].no < tries[i].no
  }

  lemma NewestIsLatest(tries: seq<Attempt>, i: nat)
    requires IsNewest(tries, i)
    ensures Latest(tries) == i
  {
  }

  lemma SomeNewest(tries: seq<Attempt>)
    requires AttemptsOk(tries) && tries != []
    ensures IsNewest(tries, Latest(tries))
  {
  }

  // ----- posts

  /** A post is refused exactly for a stranger: neither submitter, nor a party of the job's lease, nor the worker. */
  lemma PostRefusedIff(f: JobFile, actor: Option<string>, parties: set<string>,
                       e: Envelope, hash: Envelope -> Digest, now: Time)
    ensures var (g, out) := PostResults(f, actor, parties, e, hash, now);
            && (out == BadAttemptNo <==> e.no <= 0)
            && (out == Forbidden <==>
                  && e.no >= 1 && actor.Some?
                  && (actor.value == "" || actor.value != f.job.submitter)
                  && (f.job.lease.None? || f.job.lease.value == "" || actor.value !in parties))
            && (out == BadAttemptNo || out == Forbidden ==> g == f)
  {
    hide FindAttempt, Answers;
  }

  /** The attempt of this number is the answer already: same digest, or same status and both artifact digests. */
  ghost predicate SaysTheSame(a: Attempt, e: Envelope, digest: Digest) {
    a.result == Some(digest) || (a.status == e.status && a.fabric == e.fabric && a.output == e.output)
  }

  /** The three answers to a post that is not refused, by the attempts with its number. */
  lemma PostAnswers(f: JobFile, actor: Option<string>, parties: set<string>,
                    e: Envelope, hash: Envelope -> Digest, now: Time)
    requires FileOk(f)
    ensures var (g, out) := PostResults(f, actor, parties, e, hash, now);
            var digest := hash(e);
            !out.BadAttemptNo? && !out.Forbidden? ==>
              && (out.Replayed? <==>
                    exists i :: 0 <= i < |f.attempts| && f.attempts[i].no == e.no
                                && SaysTheSame(f.attempts[i], e, digest))
              && (out.Conflict? <==>
                    exists i :: 0 <= i < |f.attempts| && f.attempts[i].no == e.no && f.attempts[i].result.Some?
                                && f.attempts[i].finished.Some? && !SaysTheSame(f.attempts[i], e, digest))
              && (!out.Stored? ==> g == f)
  {
    hide MayPost;
    var i := FindAttempt(f.attempts, e.no);
    assert i < |f.attempts| ==> (Answers(f.attempts[i], e, hash(e)) <==> SaysTheSame(f.attempts[i], e, hash(e)));
  }

  /** A stored post writes every column of its attempt from the envelope, and no other attempt. */
  lemma StoredPostWrites(f: JobFile, actor: Option<string>, parties: set<string>,
                         e: Envelope, hash: Envelope -> Digest, now: Time)
    requires PostResults(f, actor, parties, e, hash, now).1.Stored?
    ensures var (g, out) := PostResults(f, actor, parties, e, hash, now);
            var row := Attempt(e.no, e.status, Some(e.metrics), e.fabric, e.output,
                               Some(hash(e)), e.failure, Some(now));
            && g.attempts == (if out.created then f.attempts + [row]
                              else if out.at < |f.attempts| then f.attempts[out.at := row] else f.attempts)
            && (out.created <==> forall i :: 0 <= i < |f.attempts| ==> f.attempts[i].no != e.no)
            && (!out.created ==> out.at < |f.attempts| && f.attempts[out.at].no == e.no)
            && g.placements == f.placements
            && g.report == (if f.report.Some? || e.fabric == Some("") then f.report else e.fabric)
  {
    hide MayPost, Answers, JobAfterPost;
  }

  /** What a stored post makes of the job: a terminal status ends an open one, with the code it names. */
  lemma StoredPostEnds(f: JobFile, actor: Option<string>, parties: set<string>,
                       e: Envelope, hash: Envelope -> Digest, now: Time)
    requires PostResults(f, actor, parties, e, hash, now).1.Stored?
    ensures var j := PostResults(f, actor, parties, e, hash, now).0.job;
            var given := e.failure.Some? && e.failure.value != "";
            var ends := !Terminal(f.job.status)
                        && (e.status.Succeeded? || e.status.Failed? || e.status.Cancelled? || e.status.TimedOut?);
            && (!ends ==> j == f.job)
            && (ends ==>
                  && j.(status := f.job.status, failure := f.job.failure, finished := f.job.finished) == f.job
                  && j.status == e.status && j.finished == Some(now)
                  && (e.status.Succeeded? ==> j.failure == None)
                  && (!e.status.Succeeded? && given ==> j.failure == e.failure)
                  && (e.status.Failed? && !given ==> j.failure == Some("failed"))
                  && (e.status.Cancelled? && !given ==> j.failure == Some("cancelled"))
                  && (e.status.TimedOut? && !given ==> j.failure == Some("timeout")))
  {
    hide MayPost, Answers, FindAttempt;
  }

  // ----- cancels, failures and timeouts

  /** The newest attempt ends with the job, unless it had ended before; all others stay. */
  ghost predicate NewestStopped(before: seq<Attempt>, after: seq<Attempt>, s: Status, code: string, now: Time) {
    && |after| == |before|
    && forall i :: 0 <= i < |before| ==>
         after[i] ==
           if IsNewest(before, i) && !(before[i].status.Succeeded? || before[i].status.Failed?
                                       || before[i].status.Cancelled? || before[i].status.TimedOut?)
           then before[i].(status := s, failure := Some(code), finished := Some(now)) else before[i]
  }

  lemma StopsNewest(tries: seq<Attempt>, s: Status, code: string, now: Time)
    requires AttemptsOk(tries)
    ensures NewestStopped(tries, StopLatest(tries, s, code, now), s, code, now)
  {
    if tries != [] {
      SomeNewest(tries);
      forall i | 0 <= i < |tries| && IsNewest(tries, i) ensures i == Latest(tries)
      {
        NewestIsLatest(tries, i);
      }
    }
  }

  /** Only the submitter cancels, only an open job, and nothing but status, code and end changes. */
  lemma CancelWrites(f: JobFile, hotkey: string, now: Time)
    requires FileOk(f)
    ensures var (g, out) := CancelBy(f, hotkey, now);
            && (out == NotOwner <==> hotkey != f.job.submitter)
            && (out == AlreadyTerminal <==> hotkey == f.job.submitter && !Open(f.job.status))
            && (out != CancelDone ==> g == f)
            && (out == CancelDone ==>
                  && g.job == f.job.(status := Cancelled, failure := Some("cancelled"), finished := Some(now))
                  && g.placements == f.placements && g.report == f.report
                  && NewestStopped(f.attempts, g.attempts, Cancelled, "cancelled", now))
  {
    hide StopLatest, NewestStopped, AttemptsOk;
    StopsNewest(f.attempts, Cancelled, "cancelled", now);
  }

  /** A timed-out job leaves a timed-out newest attempt, attempt 1 if it had none. */
  ghost predicate TimedOutAt(f: JobFile, g: JobFile, now: Time) {
    && g.job.(status := f.job.status) == f.job.(failure := Some("timeout"), finished := Some(now))
    && g.job.status.TimedOut? && g.placements == f.placements && g.report == f.report
    && (if f.attempts == []
        then g.attempts == [Attempt(1, TimedOut, None, None, None, None, Some("timeout"), Some(now))]
        else NewestStopped(f.attempts, g.attempts, TimedOut, "timeout", now))
  }

  lemma TimeoutWrites(f: JobFile, now: Time)
    requires AttemptsOk(f.attempts)
    ensures TimedOutAt(f, MarkTimeout(f, now), now)
  {
    hide StopLatest, NewestStopped, AttemptsOk;
    StopsNewest(f.attempts, TimedOut, "timeout", now);
  }

  /** A worker step on an overdue job does nothing but time it out. */
  lemma OverdueStepWrites(f: JobFile, roomy: bool, cfg: Config, w: World)
    requires FileOk(f) && Open(f.job.status) && Overdue(f.job, w.now)
    ensures TimedOutAt(f, Advance(f, roomy, cfg, w), w.now)
  {
    hide Overdue, TimeoutDue, TryBind, ClaimNext, MarkTimeout, TimedOutAt, AttemptsOk;
    OverdueIff(f.job, w.now);
    TimeoutWrites(f, w.now);
  }

  // ----- a worker step on a waiting job

  /** A job bound to a lease and pod names both from then on; one bound in simulation names what it did. */
  ghost predicate NamesItsPod(f: JobFile, g: JobFile, cfg: Config, w: World) {
    match TryBind(f.job, w.capacity, cfg, w.now)
    case Bound(Some(ids)) => g.job.lease == Some(ids.0) && g.job.pod == Some(ids.1)
    case _ => g.job.lease == f.job.lease && g.job.pod == f.job.pod
  }

  lemma WaitingStepWrites(f: JobFile, roomy: bool, cfg: Config, w: World)
    requires FileOk(f) && Waiting(f.job.status) && !Overdue(f.job, w.now)
    ensures var g := Advance(f, roomy, cfg, w);
            var bind := TryBind(f.job, w.capacity, cfg, w.now);
            && NamesItsPod(f, g, cfg, w) && g.report == f.report && g.job.started == f.job.started
            && (bind.Unbound? ==>
                  && g.job == f.job.(status := Failed, failure := Some(bind.code), finished := Some(w.now))
                  && g.placements == f.placements && NewestStopped(f.attempts, g.attempts, Failed, bind.code, w.now))
            && (bind.Wait? || (bind.Bound? && !roomy) ==>
                  && g.job.status.Placing? && g.job.finished == f.job.finished && g.job.failure == f.job.failure
                  && g.placements == f.placements && g.attempts == f.attempts)
            && (bind.Bound? && roomy && w.placing.Placed? ==>
                  && g.job.status.Provisioning? && g.job.finished == f.job.finished && g.attempts == f.attempts
                  && g.placements == if f.placements == [] then [w.placing.graph] else f.placements)
            && (bind.Bound? && roomy && w.placing.Refused? ==>
                  && g.job.status.Failed? && g.job.failure == Some(w.placing.code) && g.job.finished == Some(w.now)
                  && g.placements == f.placements && g.attempts == f.attempts)
  {
    hide Overdue, TimeoutDue, TryBind, StopLatest, NewestStopped, AttemptsOk;
    OverdueIff(f.job, w.now);
    match TryBind(f.job, w.capacity, cfg, w.now)
    case Unbound(code) => StopsNewest(f.attempts, Failed, code, w.now);
    case _ =>
  }

  // ----- a worker step on a job that holds budget

  /** The attempts of a job that is started or collected: its own, or a blank running first one. */
  ghost function Tries(f: JobFile): (r: seq<Attempt>)
    ensures r != []
  {
    if f.attempts != [] then f.attempts else [Attempt(1, Running, None, None, None, None, None, None)]
  }

  /** The start: a start time once and for all, an attempt, or the forced failure of both. */
  lemma ProvisioningStepWrites(f: JobFile, roomy: bool, cfg: Config, w: World, i: nat)
    requires FileOk(f) && f.job.status.Provisioning? && !Overdue(f.job, w.now) && IsNewest(Tries(f), i)
    ensures var g := Advance(f, roomy, cfg, w);
            var started := if f.job.started.Some? then f.job.started else Some(w.now);
            var a := Tries(f)[i];
            && g.placements == f.placements && g.report == f.report
            && (!cfg.launchFail ==> g.job == f.job.(status := Running, started := started) && g.attempts == Tries(f))
            && (cfg.launchFail ==>
                  && g.job == f.job.(status := Failed, started := started, failure := Some("launch_failed"),
                                     finished := Some(w.now))
                  && g.attempts == Tries(f)[i := a.(status := Failed, failure := Some("launch_failed"),
                                                    finished := Some(w.now))])
  {
    hide Overdue, TimeoutDue, Latest, AttemptsOk;
    OverdueIff(f.job, w.now);
    NewestIsLatest(Tries(f), i);
  }

  /** What a launch leaves in the newest attempt, unless it is sealed, and in the job. */
  lemma RunningStepWrites(f: JobFile, roomy: bool, cfg: Config, w: World, i: nat)
    requires FileOk(f) && f.job.status.Running? && IsNewest(Tries(f), i)
    requires !Overdue(f.job, w.now) && !(cfg.runSleep && Overdue(f.job, w.wake))
    ensures var g := Advance(f, roomy, cfg, w);
            var a := Tries(f)[i];
            var sealed := a.result.Some? && a.finished.Some?;
            var collecting := f.job.(status := Collecting);
            && g.placements == f.placements
            && (sealed ==>
                  && g.job == collecting && g.attempts == f.attempts
                  && g.report == if f.report.Some? || a.fabric == Some("") then f.report else a.fabric)
            && (!sealed && w.launch.Ran? ==>
                  && g.job == collecting
                  && g.report == (if f.report.Some? then f.report else Some(w.launch.fabric))
                  && g.attempts == Tries(f)[i := Attempt(a.no, Succeeded, Some(w.launch.metrics), Some(w.launch.fabric),
                                                         Some(w.launch.output), Some(w.launch.result),
                                                         if w.launch.code.Some? && w.launch.code.value != ""
                                                         then w.launch.code else a.failure, Some(w.now))])
            && (!sealed && w.launch.LaunchFailed? ==>
                  var why := if w.launch.code.Some? && w.launch.code.value != "" then w.launch.code
                             else Some("sim_launch_fail");
                  && g.job == f.job.(status := Failed, failure := why, finished := Some(w.now)) && g.report == f.report
                  && g.attempts == Tries(f)[i := Attempt(a.no, Failed, Some(w.launch.metrics), Some(w.launch.fabric),
                                                         a.output, a.result, why, Some(w.now))])
            && (!sealed && w.launch.LaunchTimedOut? ==>
                  && g.job == f.job.(status := TimedOut, failure := Some("timeout"), finished := Some(w.now))
                  && g.report == f.report
                  && g.attempts == Tries(f)[i := Attempt(a.no, TimedOut, Some(w.launch.metrics), Some(w.launch.fabric),
                                                         a.output, a.result, Some("timeout"), Some(w.now))])
  {
    hide Overdue, TimeoutDue, Latest, AttemptsOk, MarkTimeout;
    OverdueIff(f.job, w.now);
    OverdueIff(f.job.(status := Collecting), w.wake);
    SameClock(f.job, w.wake);
    NewestIsLatest(Tries(f), i);
  }

  /** A job that slept past its deadline is timed out when it wakes. */
  lemma SleepingStepWrites(f: JobFile, roomy: bool, cfg: Config, w: World)
    requires FileOk(f) && f.job.status.Running?
    requires !Overdue(f.job, w.now) && cfg.runSleep && Overdue(f.job, w.wake)
    ensures TimedOutAt(f, Advance(f, roomy, cfg, w), w.wake)
  {
    hide Overdue, TimeoutDue, MarkTimeout, Collect, NewestStopped, AttemptsOk;
    OverdueIff(f.job, w.now);
    OverdueIff(f.job.(status := Collecting), w.wake);
    SameClock(f.job, w.wake);
    TimeoutWrites(f.(job := f.job.(status := Collecting)), w.wake);
  }

  /** The last two steps: scoring, and success with the newest attempt. */
  lemma LastStepsWrite(f: JobFile, roomy: bool, cfg: Config, w: World, i: nat)
    requires FileOk(f) && !Overdue(f.job, w.now) && IsNewest(f.attempts, i)
    ensures var g := Advance(f, roomy, cfg, w);
            var a := f.attempts[i];
            && (f.job.status.Collecting? ==> g == f.(job := f.job.(status := Scoring)))
            && (f.job.status.Scoring? ==>
                  && g.job == f.job.(status := Succeeded, failure := None, finished := Some(w.now))
                  && g.placements == f.placements && g.report == f.report
                  && g.attempts == f.attempts[i := a.(status := Succeeded,
                                                      finished := if a.status.Succeeded? || a.finished.Some?
                                                                  then a.finished else Some(w.now))])
  {
    hide Overdue, TimeoutDue, Latest, AttemptsOk;
    if Open(f.job.status) {
      OverdueIff(f.job, w.now);
    }
    NewestIsLatest(f.attempts, i);
  }
}
