/**
 The rows that belong to one job (the job itself, its attempts, placements and
 fabric report) and every committed change a writer can make to them.

 Tables are joined by job id into a `JobFile`; one transaction touches the rows
 of one job only, so a writer is a function from the file it read to the file it
 committed. A rolled-back transaction is the identity.
 */
module JobRecords {
  import opened Common

  type Digest = string
  type Metrics = string

  /** `Other` is a status string that a result post may carry but that no job ever has. */
  datatype Status =
    | Submitted | Admitted | Placing | Provisioning | Running | Collecting | Scoring
    | Succeeded | Failed | Cancelled | TimedOut
    | Other(text: string)

  predicate Terminal(s: Status) {
    s.Succeeded? || s.Failed? || s.Cancelled? || s.TimedOut?
  }

  /** Mid-flight statuses that occupy the concurrency budget. */
  predicate Holds(s: Status) {
    s.Provisioning? || s.Running? || s.Collecting? || s.Scoring?
  }

  predicate Open(s: Status) {
    s.Submitted? || s.Admitted? || s.Placing? || Holds(s)
  }

  function Forward(s: Status): Option<Status> {
    match s
    case Submitted => Some(Admitted)
    case Admitted => Some(Placing)
    case Placing => Some(Provisioning)
    case Provisioning => Some(Running)
    case Running => Some(Collecting)
    case Collecting => Some(Scoring)
    case Scoring => Some(Succeeded)
    case _ => None
  }

  /** Forward edges left before success; 0 exactly when a job is terminal. */
  function Distance(s: Status): nat {
    match s
    case Submitted => 7
    case Admitted => 6
    case Placing => 5
    case Provisioning => 4
    case Running => 3
    case Collecting => 2
    case Scoring => 1
    case _ => 0
  }

  datatype Job = Job(
    submitter: string, requestKey: Option<string>, status: Status,
    worldSize: nat, nnodes: nat, nproc: nat, timeoutS: int,
    lease: Option<string>, pod: Option<string>,
    created: Time, admitted: Option<Time>, started: Option<Time>, finished: Option<Time>,
    failure: Option<string>)

  datatype Attempt = Attempt(
    no: int, status: Status, metrics: Option<Metrics>,
    fabric: Option<Digest>, output: Option<Digest>, result: Option<Digest>,
    failure: Option<string>, finished: Option<Time>)

  datatype JobFile = JobFile(job: Job, attempts: seq<Attempt>, placements: seq<Digest>, report: Option<Digest>)

  // ----- lookups

  /** Position of attempt number `no`, or the length when there is none. */
  function FindAttempt(attempts: seq<Attempt>, no: int): (i: nat)
    ensures i <= |attempts|
    ensures i < |attempts| ==> attempts[i].no == no
    ensures forall k :: 0 <= k < i ==> attempts[k].no != no
  {
    if attempts == [] then 0
    else if attempts[0].no == no then 0
    else 1 + FindAttempt(attempts[1..], no)
  }

  /** Position of the attempt with the highest number (the newest attempt). */
  function Latest(attempts: seq<Attempt>): (i: nat)
    requires attempts != []
    ensures i < |attempts|
    ensures forall k :: 0 <= k < |attempts| ==> attempts[k].no <= attempts[i].no
  {
    if |attempts| == 1 then 0
    else
      var i := Latest(attempts[..|attempts| - 1]);
      if attempts[|attempts| - 1].no > attempts[i].no then |attempts| - 1 else i
  }

  function Truthy(s: Option<string>): bool {
    s.Some? && s.value != ""
  }

  function StatusName(s: Status): string
    requires s.Failed? || s.Cancelled? || s.TimedOut?
  {
    if s.Failed? then "failed" else if s.Cancelled? then "cancelled" else "timeout"
  }

  // ----- writers that jump to a terminal status

  function Stop(j: Job, s: Status, code: string, now: Time): Job {
    j.(status := s, failure := Some(code), finished := Some(now))
  }

  /** Close the newest attempt with the job, unless it is already terminal. */
  function StopLatest(attempts: seq<Attempt>, s: Status, code: string, now: Time): seq<Attempt> {
    if attempts == [] then attempts
    else
      var i := Latest(attempts);
      if Terminal(attempts[i].status) then attempts
      else attempts[i := attempts[i].(status := s, failure := Some(code), finished := Some(now))]
  }

  function Cancel(f: JobFile, now: Time): JobFile {
    f.(job := Stop(f.job, Cancelled, "cancelled", now),
       attempts := StopLatest(f.attempts, Cancelled, "cancelled", now))
  }

  datatype CancelOutcome = NotOwner | AlreadyTerminal | CancelDone

  function CancelBy(f: JobFile, hotkey: string, now: Time): (JobFile, CancelOutcome) {
    if f.job.submitter != hotkey then (f, NotOwner)
    else if Terminal(f.job.status) then (f, AlreadyTerminal)
    else (Cancel(f, now), CancelDone)
  }

  function MarkFailed(f: JobFile, code: string, now: Time): JobFile {
    f.(job := Stop(f.job, Failed, code, now), attempts := StopLatest(f.attempts, Failed, code, now))
  }

  /** A job that times out before it has any attempt gets attempt 1, already timed out. */
  function MarkTimeout(f: JobFile, now: Time): JobFile {
    f.(job := Stop(f.job, TimedOut, "timeout", now),
       attempts :=
         if f.attempts == [] then [Attempt(1, TimedOut, None, None, None, None, Some("timeout"), Some(now))]
         else StopLatest(f.attempts, TimedOut, "timeout", now))
  }

  predicate TimeoutDue(j: Job, now: Time) {
    && !Terminal(j.status)
    && (j.started.Some? || Holds(j.status))
    && now >= j.started.GetOr(j.admitted.GetOr(j.created)) + (if j.timeoutS < 0 then 0 else j.timeoutS)
  }

  // ----- provider results

  datatype Envelope = Envelope(
    no: int, status: Status, metrics: Metrics, fabric: Option<Digest>, output: Option<Digest>,
    proofTier: string, verified: bool, failure: Option<string>)

  datatype PostOutcome = BadAttemptNo | Forbidden | Conflict | Replayed(at: nat) | Stored(at: nat, created: bool)

  /** The submitter, or a party of the job's lease, may post; the internal worker passes no actor. */
  predicate MayPost(j: Job, actor: Option<string>, leaseParties: set<string>) {
    actor.Some? ==>
      || (actor.value != "" && actor.value == j.submitter)
      || (Truthy(j.lease) && actor.value in leaseParties)
  }

  /** The stored attempt already answers this envelope. */
  predicate Answers(a: Attempt, e: Envelope, digest: Digest) {
    || a.result == Some(digest)
    || (a.output == e.output && a.fabric == e.fabric && a.status == e.status)
  }

  predicate Sealed(a: Attempt) {
    a.result.Some? && a.finished.Some?
  }

  function SealWith(no: int, e: Envelope, digest: Digest, now: Time): Attempt {
    Attempt(no, e.status, Some(e.metrics), e.fabric, e.output, Some(digest), e.failure, Some(now))
  }

  function JobAfterPost(j: Job, e: Envelope, now: Time): Job {
    if !Terminal(e.status) || Terminal(j.status) then j
    else if e.status.Succeeded? then j.(status := Succeeded, finished := Some(now), failure := None)
    else Stop(j, e.status, if Truthy(e.failure) then e.failure.value else StatusName(e.status), now)
  }

  function PostResults(f: JobFile, actor: Option<string>, leaseParties: set<string>,
                       e: Envelope, hash: Envelope -> Digest, now: Time): (JobFile, PostOutcome) {
    if e.no < 1 then (f, BadAttemptNo)
    else if !MayPost(f.job, actor, leaseParties) then (f, Forbidden)
    else
      var i := FindAttempt(f.attempts, e.no);
      if i < |f.attempts| && Answers(f.attempts[i], e, hash(e)) then (f, Replayed(i))
      else if i < |f.attempts| && Sealed(f.attempts[i]) then (f, Conflict)
      else
        var a := SealWith(e.no, e, hash(e), now);
        (f.(job := JobAfterPost(f.job, e, now),
            attempts := if i < |f.attempts| then f.attempts[i := a] else f.attempts + [a],
            report := if Truthy(e.fabric) && f.report.None? then e.fabric else f.report),
         Stored(i, i == |f.attempts|))
  }

  // ----- what the worker does after it has claimed a status

  datatype PlaceOutcome = Placed(graph: Digest) | Refused(code: string)

  /** Outcome of the simulated launch, read when a job is collected. */
  datatype Launch =
    | Ran(metrics: Metrics, fabric: Digest, output: Digest, result: Digest, code: Option<string>)
    | LaunchFailed(metrics: Metrics, fabric: Digest, code: Option<string>)
    | LaunchTimedOut(metrics: Metrics, fabric: Digest)

  function EnsureAttempt(attempts: seq<Attempt>): (r: seq<Attempt>)
    ensures r != []
  {
    if attempts != [] then attempts
    else [Attempt(1, Running, None, None, None, None, None, None)]
  }

  function Place(f: JobFile, outcome: PlaceOutcome, now: Time): JobFile {
    match outcome
    case Placed(graph) => f.(placements := if f.placements == [] then [graph] else f.placements)
    case Refused(code) => f.(job := Stop(f.job, Failed, code, now))
  }

  function StartRunning(f: JobFile, launchFail: bool, now: Time): JobFile {
    var tries := EnsureAttempt(f.attempts);
    var g := f.(job := f.job.(started := Some(f.job.started.GetOr(now))), attempts := tries);
    if launchFail then
      var i := Latest(tries);
      g.(job := Stop(g.job, Failed, "launch_failed", now),
         attempts := tries[i := tries[i].(status := Failed, failure := Some("launch_failed"), finished := Some(now))])
    else g
  }

  /** A sealed attempt keeps its digests; only a missing fabric report row is filled in. */
  function Collect(f: JobFile, launch: Launch, now: Time): JobFile {
    var tries := EnsureAttempt(f.attempts);
    var i := Latest(tries);
    if Sealed(tries[i]) then
      f.(report := if f.report.None? && Truthy(tries[i].fabric) then tries[i].fabric else f.report)
    else
      match launch
      case LaunchFailed(m, fab, code) =>
        var why := if Truthy(code) then code.value else "sim_launch_fail";
        f.(job := Stop(f.job, Failed, why, now),
           attempts := tries[i := tries[i].(status := Failed, failure := Some(why), metrics := Some(m),
                                      fabric := Some(fab), finished := Some(now))])
      case LaunchTimedOut(m, fab) =>
        f.(job := Stop(f.job, TimedOut, "timeout", now),
           attempts := tries[i := tries[i].(status := TimedOut, failure := Some("timeout"), metrics := Some(m),
                                      fabric := Some(fab), finished := Some(now))])
      case Ran(m, fab, out, res, code) =>
        f.(attempts := tries[i := tries[i].(status := Succeeded, metrics := Some(m), fabric := Some(fab),
                                      output := Some(out), result := Some(res), finished := Some(now),
                                      failure := if Truthy(code) then code else tries[i].failure)],
           report := if f.report.None? then Some(fab) else f.report)
  }

  function Finish(f: JobFile, now: Time): JobFile {
    var g := f.(job := f.job.(finished := Some(now), failure := None));
    if f.attempts == [] then g
    else
      var i := Latest(f.attempts);
      if f.attempts[i].status.Succeeded? then g
      else g.(attempts := f.attempts[i := f.attempts[i].(status := Succeeded,
                                                         finished := Some(f.attempts[i].finished.GetOr(now)))])
  }

  // ----- capacity binding

  datatype LeaseView = LeaseView(renter: string, active: bool, pod: Option<string>)

  /** What a worker sees of the marketplace: leases by id and, by pod id, the lease of the pod. */
  datatype Capacity = Capacity(leases: map<string, LeaseView>, pods: map<string, string>)

  datatype Bind = Bound(ids: Option<(string, string)>) | Wait | Unbound(code: string)

  datatype Config = Config(largeThreshold: nat, maxLarge: nat, maxWorld: nat,
                           simAuto: bool, waitS: nat, launchFail: bool, runSleep: bool)

  /** Everything outside the tables that one advance observes. */
  datatype World = World(now: Time, wake: Time, capacity: Capacity, placing: PlaceOutcome, launch: Launch)

  function LeaseProblem(j: Job, cap: Capacity, lease: string): Option<string> {
    if lease !in cap.leases then Some("lease_inactive")
    else if cap.leases[lease].renter != j.submitter then Some("foreign_lease")
    else if !cap.leases[lease].active then Some("lease_inactive")
    else None
  }

  function TryBind(j: Job, cap: Capacity, cfg: Config, now: Time): Bind {
    if Truthy(j.lease) && Truthy(j.pod) then
      if j.lease.value !in cap.leases || j.pod.value !in cap.pods then Unbound("lease_inactive")
      else
        var problem := LeaseProblem(j, cap, j.lease.value);
        if problem.Some? then Unbound(problem.value)
        else if cap.pods[j.pod.value] != j.lease.value then Unbound("lease_inactive")
        else Bound(Some((j.lease.value, j.pod.value)))
    else if Truthy(j.lease) then
      var problem := LeaseProblem(j, cap, j.lease.value);
      if problem.Some? then Unbound(problem.value)
      else if cap.leases[j.lease.value].pod.None? then Unbound("lease_inactive")
      else Bound(Some((j.lease.value, cap.leases[j.lease.value].pod.value)))
    else if cfg.simAuto then Bound(None)
    else if now - j.admitted.GetOr(j.created) >= (if cfg.waitS == 0 then 2 else cfg.waitS) then Unbound("no_capacity")
    else Wait
  }

  function ApplyBind(j: Job, ids: Option<(string, string)>): Job {
    if ids.Some? then j.(lease := Some(ids.value.0), pod := Some(ids.value.1)) else j
  }

  // ----- one worker step

  /** Claim the next status and run its side effects. `roomy` is the answer of the budget gate. */
  function ClaimNext(f: JobFile, roomy: bool, cfg: Config, w: World): JobFile {
    match f.job.status
    case Placing =>
      if !roomy then f else Place(f.(job := f.job.(status := Provisioning)), w.placing, w.now)
    case Provisioning =>
      StartRunning(f.(job := f.job.(status := Running)), cfg.launchFail, w.now)
    case Running =>
      var g := f.(job := f.job.(status := Collecting));
      if cfg.runSleep && TimeoutDue(g.job, w.wake) then MarkTimeout(g, w.wake)
      else Collect(g, w.launch, w.now)
    case Collecting => f.(job := f.job.(status := Scoring))
    case Scoring => Finish(f.(job := f.job.(status := Succeeded)), w.now)
    case _ => f
  }

  function Advance(f: JobFile, roomy: bool, cfg: Config, w: World): JobFile {
    if Terminal(f.job.status) then f
    else if TimeoutDue(f.job, w.now) then MarkTimeout(f, w.now)
    else if f.job.status.Submitted? || f.job.status.Admitted? || f.job.status.Placing? then
      match TryBind(f.job, w.capacity, cfg, w.now)
      case Unbound(code) =>
        MarkFailed(f, code, w.now)
      case Wait => f.(job := f.job.(status := Placing))
      case Bound(ids) => ClaimNext(f.(job := ApplyBind(f.job, ids).(status := Placing)), roomy, cfg, w)
    else ClaimNext(f, roomy, cfg, w)
  }
}
