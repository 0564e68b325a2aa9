/**
 The job tables as the service updates them: each method is one session that reads rows, assigns
 fields step by step and commits. `files` is the committed state; a local file is the session.
 */
module JobStore {
  import opened Common
  import opened JobRecords
  import opened JobHistory
  import opened JobQueue
  import opened DrainProgress
  import opened JobTable

  /** Jobs whose status a round changed. */
  function Moved(before: seq<JobFile>, after: seq<JobFile>): set<nat>
    requires |before| == |after|
  {
    set j: nat | j < |before| && before[j].job.status != after[j].job.status
  }

  class JobStore {
    const cfg: Config
    const hash: Envelope -> Digest
    const limits: Limits
    var files: seq<JobFile>

    ghost predicate Valid()
      reads this
    {
      TableOk(files, cfg)
    }

    constructor (cfg: Config, hash: Envelope -> Digest, limits: Limits)
      ensures Valid() && files == [] && this.cfg == cfg && this.hash == hash && this.limits == limits
    {
      this.cfg, this.hash, this.limits := cfg, hash, limits;
      files := [];
    }

    method AdmitJob(r: Request, now: Time) returns (a: Admission)
      requires Valid()
      modifies this
      ensures Valid() && (files, a) == Admit(old(files), r, limits, now)
    {
      AdmitKeepsTable(files, r, limits, now, cfg);
      if r.hotkey == "" {
        return Rejected("missing_hotkey");
      }
      var key := RequestKey(r);
      if key.Some? {
        var existing := FindRequest(files, r.hotkey, key);
        if existing < |files| {
          return Existing(existing);
        }
      }
      if r.fault.Some? {
        return Rejected(r.fault.value);
      }
      var fault := ShapeFault(r, limits);
      if fault.Some? {
        return Rejected(fault.value);
      }
      files := files + [JobFile(NewJob(r, now), [], [], None)];
      return Created(|files| - 1);
    }

    method CancelJob(j: nat, hotkey: string, now: Time) returns (outcome: Option<CancelOutcome>)
      requires Valid()
      modifies this
      ensures Valid()
      ensures j >= |old(files)| ==> outcome == None && files == old(files)
      ensures j < |old(files)| ==>
                var (f, o) := CancelBy(old(files)[j], hotkey, now);
                outcome == Some(o) && files == old(files)[j := f]
    {
      if j >= |files| {
        return None;
      }
      var f := files[j];
      if f.job.submitter != hotkey {
        return Some(NotOwner);
      }
      if Terminal(f.job.status) {
        return Some(AlreadyTerminal);
      }
      OnJobKeepsTable(files, j, DoCancel(hotkey, now), Setup(cfg, hash));
      f := f.(job := f.job.(status := Cancelled, failure := Some("cancelled"), finished := Some(now)));
      if f.attempts != [] {
        var i := Latest(f.attempts);
        if !Terminal(f.attempts[i].status) {
          var a := f.attempts[i].(status := Cancelled, failure := Some("cancelled"), finished := Some(now));
          f := f.(attempts := f.attempts[i := a]);
        }
      }
      files := files[j := f];
      return Some(CancelDone);
    }

    method PostJobResults(j: nat, actor: Option<string>, parties: set<string>, e: Envelope, now: Time)
      returns (outcome: Option<PostOutcome>)
      requires Valid()
      modifies this
      ensures Valid()
      ensures j >= |old(files)| ==> files == old(files) && outcome == if e.no < 1 then Some(BadAttemptNo) else None
      ensures j < |old(files)| ==>
                var (f, o) := PostResults(old(files)[j], actor, parties, e, hash, now);
                outcome == Some(o) && files == old(files)[j := f]
    {
      if e.no < 1 {
        return Some(BadAttemptNo);
      }
      if j >= |files| {
        return None;
      }
      OnJobKeepsTable(files, j, DoPost(actor, parties, e, now), Setup(cfg, hash));
      var f := files[j];
      if !MayPost(f.job, actor, parties) {
        return Some(Forbidden);
      }
      var digest := hash(e);
      var i := FindAttempt(f.attempts, e.no);
      var created := i == |f.attempts|;
      if !created {
        if Answers(f.attempts[i], e, digest) {
          return Some(Replayed(i));
        }
        if Sealed(f.attempts[i]) {
          return Some(Conflict);
        }
      } else {
        f := f.(attempts := f.attempts + [Attempt(e.no, e.status, None, None, None, None, None, None)]);
      }
      var a := f.attempts[i];
      a := a.(status := e.status, metrics := Some(e.metrics), fabric := e.fabric, output := e.output);
      a := a.(result := Some(digest), failure := e.failure, finished := Some(now));
      f := f.(attempts := f.attempts[i := a]);
      if Truthy(e.fabric) && f.report.None? {
        f := f.(report := e.fabric);
      }
      if Terminal(e.status) && !Terminal(f.job.status) {
        if e.status.Succeeded? {
          f := f.(job := f.job.(status := Succeeded, finished := Some(now), failure := None));
        } else {
          var code := if Truthy(e.failure) then e.failure.value else StatusName(e.status);
          f := f.(job := f.job.(status := e.status, finished := Some(now), failure := Some(code)));
        }
      }
      assert f == PostResults(files[j], actor, parties, e, hash, now).0;
      hide TableOk, PostResults;
      files := files[j := f];
      return Some(Stored(i, created));
    }

    /** The claim of the next status and its side effects, on the session's rows. */
    method ClaimAndRun(f: JobFile, roomy: bool, w: World) returns (g: JobFile)
      requires Open(f.job.status) && !f.job.status.Submitted? && !f.job.status.Admitted?
      ensures g == ClaimNext(f, roomy, cfg, w)
    {
      g := f;
      if f.job.status == Placing {
        if roomy {
          g := g.(job := g.job.(status := Provisioning));
          g := Place(g, w.placing, w.now);
        }
      } else if f.job.status == Provisioning {
        g := g.(job := g.job.(status := Running));
        g := StartRunning(g, cfg.launchFail, w.now);
      } else if f.job.status == Running {
        g := g.(job := g.job.(status := Collecting));
        if cfg.runSleep && TimeoutDue(g.job, w.wake) {
          return MarkTimeout(g, w.wake);
        }
        g := Collect(g, w.launch, w.now);
      } else if f.job.status == Collecting {
        g := g.(job := g.job.(status := Scoring));
      } else {
        g := g.(job := g.job.(status := Succeeded));
        g := Finish(g, w.now);
      }
    }

    /** One step of one job, as the worker takes it: timeout, admission, binding, gate, claim, side effects. */
    method AdvanceJobOneStep(j: nat, w: World)
      requires Valid() && j < |files|
      modifies this
      ensures Valid() && files == AdvanceAt(old(files), j, cfg, w)
    {
      OnJobKeepsTable(files, j, DoAdvance(CanAdmit(files, j, cfg), w), Setup(cfg, hash));
      hide TableOk, CanAdmit, TimeoutDue, TryBind, ClaimNext, MarkTimeout, MarkFailed;
      var f := files[j];
      if Terminal(f.job.status) {
        return;
      }
      if TimeoutDue(f.job, w.now) {
        files := files[j := MarkTimeout(f, w.now)];
        return;
      }
      if f.job.status == Submitted || f.job.status == Admitted || f.job.status == Placing {
        var bind := TryBind(f.job, w.capacity, cfg, w.now);
        if bind.Unbound? {
          files := files[j := MarkFailed(f, bind.code, w.now)];
          return;
        }
        if f.job.status == Submitted {
          f := f.(job := f.job.(status := Admitted));
        }
        if f.job.status == Admitted {
          f := f.(job := f.job.(status := Placing));
        }
        if bind.Wait? {
          files := files[j := f];
          return;
        }
        f := f.(job := ApplyBind(f.job, bind.ids));
      }
      var g := ClaimAndRun(f, CanAdmit(files, j, cfg), w);
      files := files[j := g];
    }

    /**
     Advance every listed job by one step and count the jobs whose status changed. The count is zero
     exactly when every listed job waits as the table stood at the start of the round.
     */
    method DrainJobsOnce(limit: nat, ids: seq<nat>, worlds: seq<World>) returns (advanced: nat)
      requires Valid() && IsFairQueue(files, limit, ids) && |worlds| == |ids|
      modifies this
      ensures Valid() && files == Drain(old(files), ids, worlds, cfg)
      ensures advanced == |Moved(old(files), files)|
      ensures advanced == 0 <==> AllWait(old(files), ids, worlds, cfg)
    {
      advanced := 0;
      ghost var start := files;
      assert InTable(files, ids) && Distinct(ids) && AllOpen(files, ids);
      hide AllOpen, InTable, Distinct, DrainedTo;
      hide IsFairQueue, NotAfter, Drain, AdvanceAt, TableOk, Moved, AllWait;
      DrainStarts(start, ids, worlds);
      var i := 0;
      while i < |ids|
        invariant i <= |ids| && Valid() && DrainedTo(start, files, ids, worlds, i)
        invariant advanced == |Moved(start, files)|
      {
        var j := ids[i];
        DrainStep(start, files, ids, worlds, i);
        var before := files[j].job.status;
        AdvanceJobOneStep(j, worlds[i]);
        if files[j].job.status != before {
          advanced := advanced + 1;
        }
        i := i + 1;
      }
      DrainEnds(start, files, ids, worlds);
      CountTells(start, files, ids, worlds);
    }

    /** The rows the loop has reached after `i` jobs: what is left of the round gives the whole round. */
    ghost predicate DrainedTo(start: seq<JobFile>, now: seq<JobFile>, ids: seq<nat>, worlds: seq<World>, i: nat)
      requires InTable(start, ids) && |worlds| == |ids|
    {
      && i <= |ids| && |now| == |start|
      && Drain(now, ids[i..], worlds[i..], cfg) == Drain(start, ids, worlds, cfg)
      && forall k :: i <= k < |ids| ==> now[ids[k]] == start[ids[k]]
    }

    ghost predicate AllOpen(now: seq<JobFile>, ids: seq<nat>) {
      forall i :: 0 <= i < |ids| ==> ids[i] < |now| && Open(now[ids[i]].job.status)
    }

    lemma DrainStarts(start: seq<JobFile>, ids: seq<nat>, worlds: seq<World>)
      requires InTable(start, ids) && |worlds| == |ids|
      ensures DrainedTo(start, start, ids, worlds, 0) && Moved(start, start) == {}
    {
    }

    lemma DrainEnds(start: seq<JobFile>, now: seq<JobFile>, ids: seq<nat>, worlds: seq<World>)
      requires InTable(start, ids) && |worlds| == |ids|
      requires DrainedTo(start, now, ids, worlds, |ids|)
      ensures now == Drain(start, ids, worlds, cfg)
    {
    }

    /** One more job: the round still leads to the same table, and the count follows the status. */
    lemma DrainStep(start: seq<JobFile>, now: seq<JobFile>, ids: seq<nat>, worlds: seq<World>, i: nat)
      requires InTable(start, ids) && Distinct(ids) && |worlds| == |ids| && i < |ids|
      requires DrainedTo(start, now, ids, worlds, i)
      ensures |now| == |start| && ids[i] < |now|
      ensures var next := AdvanceAt(now, ids[i], cfg, worlds[i]);
              && DrainedTo(start, next, ids, worlds, i + 1)
              && |Moved(start, next)| == |Moved(start, now)|
                                         + if next[ids[i]].job.status != now[ids[i]].job.status then 1 else 0
    {
      hide AdvanceAt, Moved;
      assert ids[i..][0] == ids[i] && ids[i..][1..] == ids[i + 1..] && worlds[i..][1..] == worlds[i + 1..];
      OtherRowsStay(now, ids[i], worlds[i]);
      MovedStep(start, now, ids[i], worlds[i]);
    }

    lemma OtherRowsStay(now: seq<JobFile>, j: nat, w: World)
      requires j < |now|
      ensures forall k :: 0 <= k < |now| && k != j ==> AdvanceAt(now, j, cfg, w)[k] == now[k]
    {
    }

    lemma MovedStep(start: seq<JobFile>, now: seq<JobFile>, j: nat, w: World)
      requires j < |start| == |now| && now[j] == start[j]
      ensures var next := AdvanceAt(now, j, cfg, w);
              && Moved(start, next) == Moved(start, now) + (if next[j].job.status != now[j].job.status then {j} else {})
              && j !in Moved(start, now)
    {
    }

    lemma CountTells(start: seq<JobFile>, end: seq<JobFile>, ids: seq<nat>, worlds: seq<World>)
      requires TableOk(start, cfg) && InTable(start, ids) && Distinct(ids) && |worlds| == |ids|
      requires AllOpen(start, ids)
      requires end == Drain(start, ids, worlds, cfg)
      ensures |Moved(start, end)| == 0 <==> AllWait(start, ids, worlds, cfg)
    {
      hide Advance, CanAdmit, Waits;
      StartIsSane(start);
      DrainMoves(start, ids, worlds, cfg);
      DrainStallsIff(start, ids, worlds, cfg);
      if Moved(start, end) == {} {
        assert forall j :: 0 <= j < |start| && start[j].job.status != end[j].job.status ==> j in Moved(start, end);
      }
    }

    lemma StartIsSane(start: seq<JobFile>)
      requires TableOk(start, cfg)
      ensures Sane(start)
    {
    }
  }
}
