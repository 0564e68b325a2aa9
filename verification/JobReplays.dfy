/** Exactly when re-posting an accepted result envelope stays without effect forever. */
module JobReplays {
  import opened Common
  import opened JobRecords
  import opened JobHistory

  /** Attempt `i` is the one the envelope names and already answers it. */
  ghost predicate Answered(f: JobFile, i: nat, e: Envelope, s: Setup) {
    i < |f.attempts| && f.attempts[i].no == e.no && Answers(f.attempts[i], e, s.hash(e))
  }

  /** The attempt carries this envelope's digest, or nothing can change the fields it was matched by. */
  ghost predicate Permanent(f: JobFile, i: nat, e: Envelope, s: Setup)
    requires i < |f.attempts|
  {
    f.attempts[i].result == Some(s.hash(e)) || Settled(f, i)
  }

  ghost predicate CollisionFree(hash: Envelope -> Digest) {
    forall a, b :: hash(a) == hash(b) ==> a == b
  }

  lemma {:induction false} PermanentAnswerStays(f: JobFile, i: nat, e: Envelope, ops: seq<Op>, s: Setup)
    requires FileOk(f) && Answered(f, i, e, s) && Permanent(f, i, e, s)
    ensures var g := Run(f, ops, s);
            FileOk(g) && Answered(g, i, e, s) && Permanent(g, i, e, s)
    decreases |ops|
  {
    if ops != [] {
      var g := Commit(f, ops[0], s);
      CommitSafe(f, ops[0], s);
      assert f.attempts[i].no == g.attempts[i].no;
      if Settled(f, i) {
        CommitKeepsSettled(f, i, ops[0], s);
      }
      PermanentAnswerStays(g, i, e, ops[1..], s);
    }
  }

  lemma AnsweredReplays(f: JobFile, i: nat, e: Envelope, s: Setup, actor: Option<string>, parties: set<string>,
                        now: Time)
    requires FileOk(f) && e.no >= 1 && Answered(f, i, e, s)
    ensures PostResults(f, actor, parties, e, s.hash, now)
         == (f, if MayPost(f.job, actor, parties) then Replayed(i) else Forbidden)
  {
  }

  /** Once the envelope itself was stored, every later post of it, by anyone, changes no row. */
  lemma StoredEnvelopeReplays(f: JobFile, actor: Option<string>, parties: set<string>, e: Envelope, now: Time,
                              ops: seq<Op>, s: Setup, actor': Option<string>, parties': set<string>, now': Time)
    requires FileOk(f) && PostResults(f, actor, parties, e, s.hash, now).1.Stored?
    ensures var (g, first) := PostResults(f, actor, parties, e, s.hash, now);
            var h := Run(g, ops, s);
            PostResults(h, actor', parties', e, s.hash, now') ==
              (h, if MayPost(h.job, actor', parties') then Replayed(first.at) else Forbidden)
  {
    var (g, first) := PostResults(f, actor, parties, e, s.hash, now);
    PostKeeps(f, actor, parties, e, s.hash, now);
    PermanentAnswerStays(g, first.at, e, ops, s);
    AnsweredReplays(Run(g, ops, s), first.at, e, s, actor', parties', now');
  }

  /** An answer that rests on equal digests and status alone can be undone by a later writer. */
  lemma LooseAnswerBreaks(f: JobFile, i: nat, e: Envelope, s: Setup) returns (op: Op)
    requires FileOk(f) && e.no >= 1 && Answered(f, i, e, s) && !Permanent(f, i, e, s)
    requires CollisionFree(s.hash)
    ensures PostResults(Commit(f, op, s), None, {}, e, s.hash, 0).1 == Conflict
  {
    var k := FindAttempt(f.attempts, e.no);
    assert k == i;
    if Sealed(f.attempts[i]) {
      op := DoCancel(f.job.submitter, 0);
      assert Latest(f.attempts) == i;
    } else {
      var e' := e.(output := if e.output == Some("") then None else Some(""));
      op := DoPost(None, {}, e', 0);
      assert e' != e && s.hash(e') != s.hash(e);
      assert PostResults(f, None, {}, e', s.hash, 0).1.Stored?;
    }
    var g := Commit(f, op, s);
    CommitSafe(f, op, s);
    assert g.attempts[i].no == e.no && Sealed(g.attempts[i]) && !Answers(g.attempts[i], e, s.hash(e));
    assert FindAttempt(g.attempts, e.no) == i;
  }

  function RunningPost(no: int, metrics: Metrics): Envelope {
    Envelope(no, Running, metrics, None, None, "sim", true, None)
  }

  lemma RunningPostIsStored(f: JobFile, e: Envelope, s: Setup)
    requires Open(f.job.status) && f.attempts == [] && e == RunningPost(e.no, e.metrics) && e.no >= 1
    ensures Commit(f, DoPost(None, {}, e, 0), s) == f.(attempts := [SealWith(e.no, e, s.hash(e), 0)])
  {
  }

  /** On the only attempt: another envelope replays as long as the status stays, and conflicts after a cancel. */
  lemma OnlyAttemptAnswers(f: JobFile, e: Envelope, again: Envelope, s: Setup)
    requires Open(f.job.status) && e.no >= 1 && f.attempts == [SealWith(e.no, e, s.hash(e), 0)]
    requires e == RunningPost(e.no, e.metrics) && again == RunningPost(e.no, again.metrics)
             && s.hash(e) != s.hash(again)
    ensures var cancelled := Commit(f, DoCancel(f.job.submitter, 0), s);
            && PostResults(f, None, {}, again, s.hash, 0) == (f, Replayed(0))
            && PostResults(cancelled, None, {}, again, s.hash, 0) == (cancelled, Conflict)
  {
    assert Latest(f.attempts) == 0 && FindAttempt(f.attempts, e.no) == 0;
    assert FindAttempt(Commit(f, DoCancel(f.job.submitter, 0), s).attempts, e.no) == 0;
  }

  /**
   Such an answer is within reach of every job: post an attempt as running, post it again with other metrics
   (accepted as a replay), cancel, and the very same post is now a conflict.
   */
  lemma LooseAnswerIsReachable(f: JobFile, no: int, s: Setup, a: Metrics, b: Metrics)
    requires Open(f.job.status) && f.attempts == [] && no >= 1 && a != b && CollisionFree(s.hash)
    ensures var again := RunningPost(no, b);
            var posted := Commit(f, DoPost(None, {}, RunningPost(no, a), 0), s);
            var cancelled := Commit(posted, DoCancel(f.job.submitter, 0), s);
            && PostResults(posted, None, {}, again, s.hash, 0) == (posted, Replayed(0))
            && PostResults(cancelled, None, {}, again, s.hash, 0) == (cancelled, Conflict)
  {
    hide Commit, PostResults;
    assert s.hash(RunningPost(no, a)) != s.hash(RunningPost(no, b));
    RunningPostIsStored(f, RunningPost(no, a), s);
    OnlyAttemptAnswers(f.(attempts := [SealWith(no, RunningPost(no, a), s.hash(RunningPost(no, a)), 0)]),
                       RunningPost(no, a), RunningPost(no, b), s);
  }

  ghost predicate ReplaysForever(f: JobFile, i: nat, e: Envelope, s: Setup) {
    forall ops {:trigger Run(f, ops, s)} ::
      PostResults(Run(f, ops, s), None, {}, e, s.hash, 0) == (Run(f, ops, s), Replayed(i))
  }

  lemma AnsweredReplaysForeverIff(f: JobFile, i: nat, e: Envelope, s: Setup)
    requires FileOk(f) && e.no >= 1 && Answered(f, i, e, s) && CollisionFree(s.hash)
    ensures ReplaysForever(f, i, e, s) <==> Permanent(f, i, e, s)
  {
    if Permanent(f, i, e, s) {
      forall ops
        ensures PostResults(Run(f, ops, s), None, {}, e, s.hash, 0) == (Run(f, ops, s), Replayed(i))
      {
        PermanentAnswerStays(f, i, e, ops, s);
        AnsweredReplays(Run(f, ops, s), i, e, s, None, {}, 0);
      }
    } else {
      var op := LooseAnswerBreaks(f, i, e, s);
      assert [op][1..] == [];
      assert Run(f, [op], s) == Run(Commit(f, op, s), [], s) == Commit(f, op, s);
    }
  }

  /**
   An accepted envelope (stored, or matched against what is there) keeps replaying without effect
   through every later run if and only if the attempt it was accepted on is permanent for it.
   */
  lemma ReplaysForeverIff(f: JobFile, actor: Option<string>, parties: set<string>, e: Envelope, now: Time, s: Setup)
    requires FileOk(f) && CollisionFree(s.hash)
    requires PostResults(f, actor, parties, e, s.hash, now).1.Stored?
          || PostResults(f, actor, parties, e, s.hash, now).1.Replayed?
    ensures var (g, first) := PostResults(f, actor, parties, e, s.hash, now);
            && first.at < |g.attempts|
            && (first.Stored? ==> Permanent(g, first.at, e, s))
            && (ReplaysForever(g, first.at, e, s) <==> Permanent(g, first.at, e, s))
  {
    var (g, first) := PostResults(f, actor, parties, e, s.hash, now);
    PostKeeps(f, actor, parties, e, s.hash, now);
    AnsweredReplaysForeverIff(g, first.at, e, s);
  }
}
