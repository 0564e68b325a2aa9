/**
 Several sessions on one attempt row. A result post reads the attempt and later writes the columns it changed without
 comparing; a cancel, failure or timeout does the same to status, code and end. The worker reads and writes inside the
 write transaction of its claim. Inserts are guarded by the unique (job, attempt number).
 */
module SealRaces {
  import opened Columns
  import opened Common
  import opened Sessions
  import opened JobRecords
  import opened JobReplays

  /** `seen` is the row as the session read it. */
  datatype Pc =
    | Idle
    | Adding(e: Envelope)
    | Filling(e: Envelope, seen: Attempt)
    | Stopping(status: Status, code: string, seen: Attempt)

  /** The row of attempt number `no`, if there is one yet. */
  datatype State = State(row: Option<Attempt>, sessions: seq<Pc>)

  datatype Site = Site(no: int, hash: Envelope -> Digest)

  datatype Step =
    | Begin(session: nat, late: Option<Time>)            // the worker starts attempt 1, or times out without one
    | Gather(session: nat, job: Job, launch: Launch, now: Time)
    | Close(session: nat, job: Job, now: Time)
    | ReadForPost(session: nat, e: Envelope)
    | ReadForStop(session: nat, status: Status, code: string)
    | Write(session: nat, now: Time)
    | Abandon(session: nat)

  function Filled(current: Attempt, seen: Attempt, e: Envelope, digest: Digest, now: Time): Attempt {
    Attempt(current.no, Column(current.status, seen.status, e.status),
            Column(current.metrics, seen.metrics, Some(e.metrics)), Column(current.fabric, seen.fabric, e.fabric),
            Column(current.output, seen.output, e.output), Column(current.result, seen.result, Some(digest)),
            Column(current.failure, seen.failure, e.failure), Column(current.finished, seen.finished, Some(now)))
  }

  function Stopped(current: Attempt, seen: Attempt, s: Status, code: string, now: Time): Attempt {
    current.(status := Column(current.status, seen.status, s),
             failure := Column(current.failure, seen.failure, Some(code)),
             finished := Column(current.finished, seen.finished, Some(now)))
  }

  /** The attempts that are inserted without a result. */
  function Unsealed(late: Option<Time>): Attempt {
    if late.None? then EnsureAttempt([])[0]
    else Attempt(1, TimedOut, None, None, None, None, Some("timeout"), late)
  }

  /** The only attempt of a file that is otherwise blank. */
  function FileOf(job: Job, a: Attempt): JobFile {
    JobFile(job, [a], [], None)
  }

  function Gathered(job: Job, a: Attempt, launch: Launch, now: Time): (r: Attempt)
    ensures Sealed(a) ==> r == a
    ensures r.no == a.no && (a.result.None? || Sealed(a)) ==> r.result.None? || Sealed(r)
  {
    Collect(FileOf(job, a), launch, now).attempts[0]
  }

  function Closed(job: Job, a: Attempt, now: Time): (r: Attempt)
    ensures r.no == a.no && r.result == a.result && (a.finished.Some? ==> r.finished.Some?)
  {
    Finish(FileOf(job, a), now).attempts[0]
  }

  /** The row after a session's commit; an insert that comes second fails. */
  function Written(row: Option<Attempt>, pc: Pc, now: Time, site: Site): Attempt
    requires !pc.Idle? && (row.None? ==> pc.Adding?)
  {
    match pc
    case Adding(e) => row.GetOr(SealWith(e.no, e, site.hash(e), now))
    case Filling(e, seen) => Filled(row.value, seen, e, site.hash(e), now)
    case Stopping(status, code, seen) => Stopped(row.value, seen, status, code, now)
  }

  function Do(s: State, step: Step, site: Site): State {
    if step.session >= |s.sessions| then s
    else
      var i, pc := step.session, s.sessions[step.session];
      match step
      case Begin(_, late) =>
        if pc.Idle? && s.row.None? && site.no == 1 then s.(row := Some(Unsealed(late))) else s
      case Gather(_, job, launch, now) =>
        if pc.Idle? && s.row.Some? then s.(row := Some(Gathered(job, s.row.value, launch, now))) else s
      case Close(_, job, now) =>
        if pc.Idle? && s.row.Some? then s.(row := Some(Closed(job, s.row.value, now))) else s
      case ReadForPost(_, e) =>
        if !pc.Idle? || e.no != site.no || e.no < 1 then s
        else if s.row.None? then s.(sessions := s.sessions[i := Adding(e)])
        else if Answers(s.row.value, e, site.hash(e)) || Sealed(s.row.value) then s
        else s.(sessions := s.sessions[i := Filling(e, s.row.value)])
      case ReadForStop(_, status, code) =>
        if !pc.Idle? || !Terminal(status) || s.row.None? || Terminal(s.row.value.status) then s
        else s.(sessions := s.sessions[i := Stopping(status, code, s.row.value)])
      case Write(_, now) =>
        if pc.Idle? || (s.row.None? && !pc.Adding?) then s
        else State(Some(Written(s.row, pc, now, site)), s.sessions[i := Idle])
      case Abandon(_) => s.(sessions := s.sessions[i := Idle])
  }

  function Run(s: State, steps: seq<Step>, site: Site): State
    decreases |steps|
  {
    if steps == [] then s else Run(Do(s, steps[0], site), steps[1..], site)
  }

  function Start(n: nat): State {
    State(None, Alike(n, Idle))
  }

  /** A post whose statements are not interleaved stores what the one-step post stores. */
  lemma UninterruptedPost(s: State, i: nat, e: Envelope, now: Time, job: Job, site: Site)
    requires i < |s.sessions| && s.sessions[i].Idle? && e.no == site.no
    requires s.row.Some? ==> s.row.value.no == site.no
    ensures var f := JobFile(job, if s.row.Some? then [s.row.value] else [], [], None);
            var (g, out) := PostResults(f, None, {}, e, site.hash, now);
            var end := Do(Do(s, ReadForPost(i, e), site), Write(i, now), site);
            && end.sessions == s.sessions
            && (out.Stored? ==> g.attempts == [end.row.GetOr(SealWith(e.no, e, site.hash(e), now))] && end.row.Some?)
            && (!out.Stored? ==> end == s)
  {
    assert s.sessions[i := Idle] == s.sessions;
    var attempts := if s.row.Some? then [s.row.value] else [];
    assert FindAttempt(attempts, e.no) == 0;
  }

  ghost function FileAt(job: Job, row: Option<Attempt>): JobFile {
    JobFile(job, if row.Some? then [row.value] else [], [], None)
  }

  ghost predicate RowIs(row: Option<Attempt>, attempts: seq<Attempt>) {
    attempts == if row.Some? then [row.value] else []
  }

  /** The same for the other writers: on the file of this attempt alone they do what they do in one step. */
  lemma UninterruptedWriters(s: State, i: nat, job: Job, launch: Launch, now: Time, site: Site)
    requires i < |s.sessions| && s.sessions[i].Idle?
    ensures site.no == 1 ==>
              && RowIs(Do(s, Begin(i, None), site).row, EnsureAttempt(FileAt(job, s.row).attempts))
              && (s.row.None? ==>
                    RowIs(Do(s, Begin(i, Some(now)), site).row, MarkTimeout(FileAt(job, None), now).attempts))
    ensures s.row.Some? ==>
              && RowIs(Do(s, Gather(i, job, launch, now), site).row, Collect(FileAt(job, s.row), launch, now).attempts)
              && RowIs(Do(s, Close(i, job, now), site).row, Finish(FileAt(job, s.row), now).attempts)
    ensures forall status, code :: Terminal(status) ==>
              var end := Do(Do(s, ReadForStop(i, status, code), site), Write(i, now), site);
              end.sessions == s.sessions
              && RowIs(end.row, StopLatest(FileAt(job, s.row).attempts, status, code, now))
  {
    hide Answers;
    assert s.sessions[i := Idle] == s.sessions;
  }

  /** A session in the middle of a write reads nothing else; giving up writes nothing and ends it. */
  lemma OneWriteAtATime(s: State, i: nat, site: Site, step: Step)
    requires i < |s.sessions| && step.session == i
    ensures !s.sessions[i].Idle? && !step.Write? && !step.Abandon? ==> Do(s, step, site) == s
    ensures step.Abandon? ==> Do(s, step, site) == s.(sessions := s.sessions[i := Idle])
  {
  }

  // ----- what every interleaving keeps

  /** A result is only ever stored together with an end, and a reading that may overwrite it was taken before it. */
  ghost predicate Base(s: State, site: Site) {
    && (s.row.Some? ==> s.row.value.no == site.no && (s.row.value.result.None? || Sealed(s.row.value)))
    && forall i :: 0 <= i < |s.sessions| ==>
         match s.sessions[i]
         case Adding(e) => e.no == site.no
         case Filling(_, seen) =>
           && s.row.Some? && site.no == 1 && seen.result.None?
           && (seen.finished.Some? ==> s.row.value.finished.Some?)
         case Stopping(_, _, seen) => s.row.Some? && (seen.finished.Some? ==> s.row.value.finished.Some?)
         case Idle => true
  }

  /** Later attempts are born sealed; a row never goes away. */
  ghost predicate BornSealed(s: State, site: Site) {
    site.no != 1 && s.row.Some? ==> Sealed(s.row.value)
  }

  ghost predicate Safe(s: State, site: Site) {
    Base(s, site) && BornSealed(s, site)
  }

  lemma DoKeepsSafe(s: State, step: Step, site: Site)
    requires Safe(s, site)
    ensures Safe(Do(s, step, site), site) && (s.row.Some? ==> Do(s, step, site).row.Some?)
    ensures |Do(s, step, site).sessions| == |s.sessions|
  {
    hide Answers;
  }

  lemma {:induction false} RunKeepsSafe(s: State, steps: seq<Step>, site: Site)
    requires Safe(s, site)
    ensures Safe(Run(s, steps, site), site) && (s.row.Some? ==> Run(s, steps, site).row.Some?)
    ensures |Run(s, steps, site).sessions| == |s.sessions|
    decreases |steps|
  {
    hide Do, Safe;
    if steps != [] {
      DoKeepsSafe(s, steps[0], site);
      RunKeepsSafe(Do(s, steps[0], site), steps[1..], site);
    }
  }

  // ----- when a seal stays

  ghost predicate HasDigest(s: State, d: Digest) {
    s.row.Some? && s.row.value.result == Some(d)
  }

  /** The session read the attempt before it was sealed, and is about to store another envelope. */
  ghost predicate Rival(s: State, i: nat, d: Digest, site: Site) {
    i < |s.sessions| && s.sessions[i].Filling? && site.hash(s.sessions[i].e) != d
  }

  ghost predicate NoRival(s: State, d: Digest, site: Site) {
    forall i :: !Rival(s, i, d, site)
  }

  lemma NoRivalStep(s: State, step: Step, d: Digest, site: Site)
    requires Safe(s, site) && HasDigest(s, d) && NoRival(s, d, site)
    ensures HasDigest(Do(s, step, site), d) && NoRival(Do(s, step, site), d, site)
  {
    hide Answers;
    var e := Do(s, step, site);
    assert !Rival(s, step.session, d, site);
    forall i ensures !Rival(e, i, d, site)
    {
      assert !Rival(s, i, d, site);
    }
  }

  lemma {:induction false} NoRivalRuns(s: State, steps: seq<Step>, d: Digest, site: Site)
    requires Safe(s, site) && HasDigest(s, d) && NoRival(s, d, site)
    ensures HasDigest(Run(s, steps, site), d)
    decreases |steps|
  {
    hide Do, Safe, HasDigest, NoRival;
    if steps != [] {
      NoRivalStep(s, steps[0], d, site);
      DoKeepsSafe(s, steps[0], site);
      NoRivalRuns(Do(s, steps[0], site), steps[1..], d, site);
    }
  }

  lemma RivalOverwrites(s: State, i: nat, d: Digest, site: Site)
    requires Safe(s, site) && HasDigest(s, d) && Rival(s, i, d, site)
    ensures Run(s, [Write(i, 0)], site) == Do(s, Write(i, 0), site) && !HasDigest(Do(s, Write(i, 0), site), d)
  {
    RunOne(s, Write(i, 0), site);
  }

  lemma RunOne(s: State, step: Step, site: Site)
    ensures Run(s, [step], site) == Do(s, step, site)
  {
    hide Do;
    assert [step][1..] == [];
    assert Run(Do(s, step, site), [], site) == Do(s, step, site);
  }

  /**
   A sealed attempt keeps its result digest through every later run exactly if no session that read it unsealed is
   still about to store another envelope.
   */
  lemma SealStaysIff(s: State, d: Digest, site: Site)
    requires Safe(s, site) && HasDigest(s, d)
    ensures (forall steps {:trigger Run(s, steps, site)} :: HasDigest(Run(s, steps, site), d))
            <==> NoRival(s, d, site)
  {
    hide Run, Do, Safe, HasDigest, Rival;
    if NoRival(s, d, site) {
      forall steps ensures HasDigest(Run(s, steps, site), d)
      {
        NoRivalRuns(s, steps, d, site);
      }
    } else {
      var i :| Rival(s, i, d, site);
      RivalOverwrites(s, i, d, site);
    }
  }

  // ----- how many sessions

  /** In every run of `n` sessions the first digest stored is the last. */
  ghost predicate SealIsFinal(n: nat, site: Site) {
    forall a, b, d {:trigger HasDigest(Run(Run(Start(n), a, site), b, site), d)} ::
      HasDigest(Run(Start(n), a, site), d) ==> HasDigest(Run(Run(Start(n), a, site), b, site), d)
  }

  /** What a lone session read is still so. */
  ghost predicate ReadsAreFresh(s: State) {
    forall i :: 0 <= i < |s.sessions| && s.sessions[i].Filling? ==> s.row == Some(s.sessions[i].seen)
  }

  lemma LoneStep(s: State, step: Step, site: Site)
    requires Safe(s, site) && ReadsAreFresh(s) && |s.sessions| <= 1
    ensures ReadsAreFresh(Do(s, step, site))
  {
    hide Answers;
  }

  lemma {:induction false} LoneRun(s: State, steps: seq<Step>, site: Site)
    requires Safe(s, site) && ReadsAreFresh(s) && |s.sessions| <= 1
    ensures ReadsAreFresh(Run(s, steps, site))
    decreases |steps|
  {
    hide Do, Safe, ReadsAreFresh;
    if steps != [] {
      DoKeepsSafe(s, steps[0], site);
      LoneStep(s, steps[0], site);
      LoneRun(Do(s, steps[0], site), steps[1..], site);
    }
  }

  lemma StartIsSafe(n: nat, site: Site)
    ensures Safe(Start(n), site) && ReadsAreFresh(Start(n)) && |Start(n).sessions| == n
  {
  }

  lemma FreshHasNoRival(s: State, d: Digest, site: Site)
    requires Safe(s, site) && HasDigest(s, d) && (site.no != 1 || ReadsAreFresh(s))
    ensures NoRival(s, d, site)
  {
  }

  /** The two envelopes of two providers' posts of the first attempt. */
  function Post(output: Digest): Envelope {
    Envelope(1, Succeeded, "{}", None, Some(output), "sim", true, None)
  }

  /** The attempt is under way; both posts read it, both are stored, the second over the first. */
  function TwoPosts(): seq<Step> {
    [Begin(0, None), ReadForPost(0, Post("a")), ReadForPost(1, Post("b")), Write(0, 0)]
  }

  lemma {:induction false} RunFollows(path: seq<State>, steps: seq<Step>, site: Site)
    requires |path| == |steps| + 1 && forall i :: 0 <= i < |steps| ==> Do(path[i], steps[i], site) == path[i + 1]
    ensures Run(path[0], steps, site) == path[|steps|]
    decreases |steps|
  {
    hide Do;
    if steps != [] {
      assert forall i :: 0 <= i < |steps[1..]| ==> Do(path[1..][i], steps[1..][i], site) == path[1..][i + 1] by {
        assert forall i :: 0 <= i < |steps[1..]| ==> path[1..][i] == path[i + 1] && steps[1..][i] == steps[i + 1];
      }
      RunFollows(path[1..], steps[1..], site);
    }
  }

  /** The stored attempt is sealed and does not answer the envelope: a post of it conflicts. */
  ghost predicate Refuses(s: State, e: Envelope, site: Site) {
    s.row.Some? && Sealed(s.row.value) && !Answers(s.row.value, e, site.hash(e))
  }

  /** Both posts are accepted, and from then on the first conflicts with what it had stored. */
  lemma FirstPostConflicts(n: nat, site: Site)
    requires n >= 2 && site.no == 1 && CollisionFree(site.hash)
    ensures var s := Run(Start(n), TwoPosts(), site);
            && HasDigest(s, site.hash(Post("a"))) && Rival(s, 1, site.hash(Post("a")), site)
            && Refuses(Do(s, Write(1, 0), site), Post("a"), site)
  {
    hide Run;
    var a, b := Post("a"), Post("b");
    assert a != b by { assert "a"[0] != "b"[0]; }
    var open := EnsureAttempt([])[0];
    var sealed := SealWith(1, a, site.hash(a), 0);
    TwoAlike(Idle, n);
    TwoUpdate(Idle, Idle, Filling(a, open), Idle, n);
    TwoUpdate(Filling(a, open), Idle, Filling(b, open), Idle, n);
    TwoUpdate(Filling(a, open), Filling(b, open), Idle, Idle, n);
    var s0 := Start(n);
    var s1 := State(Some(open), Two(Idle, Idle, Idle, n));
    var s2 := State(Some(open), Two(Filling(a, open), Idle, Idle, n));
    var s3 := State(Some(open), Two(Filling(a, open), Filling(b, open), Idle, n));
    var s4 := State(Some(sealed), Two(Idle, Filling(b, open), Idle, n));
    RunFollows([s0, s1, s2, s3, s4], TwoPosts(), site);
  }

  /** The first seal is final exactly with a single session, and always for later attempts, which are born sealed. */
  lemma SealIsFinalIff(n: nat, site: Site)
    requires CollisionFree(site.hash)
    ensures SealIsFinal(n, site) <==> n <= 1 || site.no != 1
  {
    hide Run, Do, Safe, ReadsAreFresh, NoRival, HasDigest, Rival, Start, TwoPosts;
    if n <= 1 || site.no != 1 {
      forall a, b, d | HasDigest(Run(Start(n), a, site), d)
        ensures HasDigest(Run(Run(Start(n), a, site), b, site), d)
      {
        StartIsSafe(n, site);
        RunKeepsSafe(Start(n), a, site);
        if n <= 1 {
          LoneRun(Start(n), a, site);
        }
        FreshHasNoRival(Run(Start(n), a, site), d, site);
        NoRivalRuns(Run(Start(n), a, site), b, d, site);
      }
    } else {
      var s := Run(Start(n), TwoPosts(), site);
      var d := site.hash(Post("a"));
      FirstPostConflicts(n, site);
      StartIsSafe(n, site);
      RunKeepsSafe(Start(n), TwoPosts(), site);
      RivalOverwrites(s, 1, d, site);
      assert !HasDigest(Run(Run(Start(n), TwoPosts(), site), [Write(1, 0)], site), d);
    }
  }
}
