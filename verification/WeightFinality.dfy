/** When an acknowledgement is final and a cursor advances once: exactly which readings must not be in flight. */
module WeightFinality {
  import opened Common
  import opened Sessions
  import opened WeightPush
  import opened WeightRaces

  // ----- from a given state

  /** The commit of a demoting session leaves the row unsettled, and the session ready. */
  lemma DemoterDemotes(s: Sys, p: nat, k: Key, cfg: Config)
    requires Inv(s) && k in s.snaps && p < |s.pushers| && Demoter(s.pushers[p], k)
    ensures var e := Do(s, Commit(p), cfg);
            && k in e.snaps && !Settled(e.snaps[k].status) && e.cursors == s.cursors
            && |e.pushers| == |s.pushers| && e.pushers[p].Ready?
  {
    hide AcksProven, RowsOk, Matches, Names, IdKept;
  }

  /** An acknowledgement is final exactly when no session holds an older, unsettled reading it is about to act on. */
  lemma AckedStaysIff(s: Sys, cfg: Config, k: Key)
    requires Inv(s) && IsAcked(s, k)
    ensures (forall steps {:trigger Run(s, steps, cfg)} :: IsAcked(Run(s, steps, cfg), k)) <==> NoDemoter(s, k)
  {
    hide Run, Do, Inv, Demoter;
    if NoDemoter(s, k) {
      forall steps ensures IsAcked(Run(s, steps, cfg), k)
      {
        FirmStays(s, steps, cfg, k);
      }
    } else {
      var p :| 0 <= p < |s.pushers| && Demoter(s.pushers[p], k);
      DemoterDemotes(s, p, k, cfg);
      RunOne(s, Commit(p), cfg);
    }
  }

  function Good(p: Payload): Reply {
    Http(200, Some(Ack(true, p.slug, p.key, p.digest, "id")))
  }

  lemma GoodMatches(p: Payload)
    ensures Good(p).Http? && Good(p).code == 200 && Good(p).ack.Some? && Matches(Good(p).ack.value, p)
  {
    assert |Good(p).ack.value.snapshotId| == 2;
  }

  /** Any valid draft under a stored key sends the stored body. */
  function AnyDraft(): Draft {
    Draft(map["x" := 1.0], 0.0, 1.0, "")
  }

  function Again(p: nat, body: Payload): seq<Step> {
    [Resolve(p, Fresh(body.key.epoch, Some(body.key.revision), AnyDraft()), 0, 0.0), Answer(p, Good(body))]
    + [Look(p), Commit(p)]
  }

  lemma SendAgain(s: Sys, p: nat, body: Payload, cfg: Config)
    requires p < |s.pushers| && s.pushers[p].Ready? && body.key in s.snaps && !Settled(s.snaps[body.key].status)
    requires s.snaps[body.key].payload == body
    ensures Do(Do(s, Again(p, body)[0], cfg), Again(p, body)[1], cfg)
         == s.(pushers := s.pushers[p := Answered(body, Good(body))], posts := s.posts + [body])
  {
    hide Body;
    assert "x" in AnyDraft().weights;
    var sent := s.(pushers := s.pushers[p := Sending(body)], posts := s.posts + [body]);
    assert Do(s, Again(p, body)[0], cfg) == sent;
    assert sent.pushers[p := Answered(body, Good(body))] == s.pushers[p := Answered(body, Good(body))];
  }

  lemma AckAdvances(s: Sys, p: nat, body: Payload, cfg: Config)
    requires p < |s.pushers| && s.pushers[p] == Answered(body, Good(body))
    requires body.key in s.snaps && !Settled(s.snaps[body.key].status)
    ensures Do(Do(s, Look(p), cfg), Commit(p), cfg).cursors == s.cursors + [body.key]
  {
  }

  /** Pushing an unsettled snapshot once more advances its cursor. */
  lemma PushAgain(s: Sys, p: nat, body: Payload, cfg: Config)
    requires p < |s.pushers| && s.pushers[p].Ready? && body.key in s.snaps && !Settled(s.snaps[body.key].status)
    requires s.snaps[body.key].payload == body
    ensures Run(s, Again(p, body), cfg).cursors == s.cursors + [body.key]
  {
    hide Do, Run, Settled;
    var first := [Again(p, body)[0], Again(p, body)[1]];
    SendAgain(s, p, body, cfg);
    RunTwo(s, Again(p, body)[0], Again(p, body)[1], cfg);
    var answered := Run(s, first, cfg);
    RunTwo(answered, Look(p), Commit(p), cfg);
    AckAdvances(answered, p, body, cfg);
    RunConcat(s, first, [Look(p), Commit(p)], cfg);
    assert Again(p, body) == first + [Look(p), Commit(p)];
  }

  /** No run reports another advance of `k`. */
  ghost predicate NeverAdvances(s: Sys, cfg: Config, k: Key) {
    forall steps {:trigger Run(s, steps, cfg)} ::
      s.cursors <= Run(s, steps, cfg).cursors && k !in Run(s, steps, cfg).cursors[|s.cursors|..]
  }

  lemma AdvancerAdvances(s: Sys, p: nat, k: Key, cfg: Config)
    requires Inv(s) && p < |s.pushers| && Advancer(s.pushers[p], k)
    ensures Do(s, Commit(p), cfg).cursors == s.cursors + [k]
  {
    hide AcksProven, RowsOk, Matches, Names, IdKept;
  }

  /**
   The cursor of a settled snapshot never advances again exactly when no session is about to demote it and none
   still holds an acknowledgement judged against an unsettled reading.
   */
  lemma NeverAdvancesIff(s: Sys, cfg: Config, k: Key)
    requires Inv(s) && IsSettled(s, k)
    ensures NeverAdvances(s, cfg, k) <==> NoDemoter(s, k) && NoAdvancer(s, k)
  {
    hide Run, Do, Inv, Demoter, Advancer, Again;
    if NoDemoter(s, k) && NoAdvancer(s, k) {
      forall steps ensures s.cursors <= Run(s, steps, cfg).cursors && k !in Run(s, steps, cfg).cursors[|s.cursors|..]
      {
        FirmStays(s, steps, cfg, k);
      }
    } else if p :| 0 <= p < |s.pushers| && Advancer(s.pushers[p], k) {
      AdvancerAdvances(s, p, k, cfg);
      RunOne(s, Commit(p), cfg);
    } else {
      var p :| 0 <= p < |s.pushers| && Demoter(s.pushers[p], k);
      DemotedAdvances(s, p, k, cfg);
    }
  }

  lemma DemotedAdvances(s: Sys, p: nat, k: Key, cfg: Config)
    requires Inv(s) && k in s.snaps && p < |s.pushers| && Demoter(s.pushers[p], k)
    ensures exists steps :: Run(s, steps, cfg).cursors == s.cursors + [k]
  {
    hide Run, Do, Demoter, Again, AcksProven, BodiesOk;
    var demoted := Do(s, Commit(p), cfg);
    DemoterDemotes(s, p, k, cfg);
    DoKeepsInv(s, Commit(p), cfg);
    var body := demoted.snaps[k].payload;
    PushAgain(demoted, p, body, cfg);
    RunOne(s, Commit(p), cfg);
    RunConcat(s, [Commit(p)], Again(p, body), cfg);
  }

  // ----- a single pusher

  /** A lone pusher's reading is never stale. */
  ghost predicate FreshReading(snaps: Snaps, pc: Pc) {
    && (pc.Voiding? ==> pc.key in snaps && snaps[pc.key] == pc.seen && !Settled(pc.seen.status))
    && (pc.Marking? ==>
          pc.body.key in snaps && snaps[pc.body.key] == pc.seen && (pc.seen.status.Pending? || pc.to.Acked?))
  }

  ghost predicate Distinct(cursors: seq<Key>) {
    forall i, j :: 0 <= i < j < |cursors| ==> cursors[i] != cursors[j]
  }

  ghost predicate Lone(s: Sys) {
    && |s.pushers| <= 1 && (forall p :: 0 <= p < |s.pushers| ==> FreshReading(s.snaps, s.pushers[p]))
    && (forall i :: 0 <= i < |s.cursors| ==> IsSettled(s, s.cursors[i])) && Distinct(s.cursors)
  }

  lemma LoneHasNoDemoter(s: Sys, k: Key)
    requires Lone(s) && IsSettled(s, k)
    ensures NoDemoter(s, k)
  {
  }

  lemma LoneReads(s: Sys, step: Step, cfg: Config)
    requires Lone(s) && !step.Commit?
    ensures Lone(Do(s, step, cfg))
  {
    hide Body, Matches, Names, Distinct;
  }

  lemma LoneCommits(s: Sys, i: nat, cfg: Config)
    requires Inv(s) && Lone(s)
    ensures Lone(Do(s, Commit(i), cfg))
  {
    hide AcksProven, RowsOk, Matches, Names, IdKept;
    var e := Do(s, Commit(i), cfg);
    forall j | 0 <= j < |s.cursors| ensures IsSettled(e, s.cursors[j])
    {
      assert IsSettled(s, s.cursors[j]);
    }
  }

  lemma {:induction false} LoneRuns(s: Sys, steps: seq<Step>, cfg: Config)
    requires Inv(s) && Lone(s)
    ensures Inv(Run(s, steps, cfg)) && Lone(Run(s, steps, cfg))
    decreases |steps|
  {
    hide Do, Inv, Lone;
    if steps != [] {
      DoKeepsInv(s, steps[0], cfg);
      if steps[0].Commit? {
        LoneCommits(s, steps[0].pusher, cfg);
      } else {
        LoneReads(s, steps[0], cfg);
      }
      LoneRuns(Do(s, steps[0], cfg), steps[1..], cfg);
    }
  }

  // ----- nothing can be stored

  predicate CanStore(k: Key, d: Draft, cfg: Config) {
    !Inverted(d) && d.weights != map[] && cfg.accepts(Body(k, d, cfg))
  }

  /** The schema accepts some body at all. */
  ghost predicate Storable(cfg: Config) {
    exists k, d :: CanStore(k, d, cfg)
  }

  ghost predicate Blank(s: Sys) {
    s.snaps == map[] && s.cursors == [] && forall p :: 0 <= p < |s.pushers| ==> s.pushers[p].Ready?
  }

  lemma {:induction false} BlankStays(s: Sys, steps: seq<Step>, cfg: Config)
    requires Blank(s) && !Storable(cfg)
    ensures Blank(Run(s, steps, cfg))
    decreases |steps|
  {
    hide Do, Storable, Blank;
    if steps != [] {
      BlankStep(s, steps[0], cfg);
      BlankStays(Do(s, steps[0], cfg), steps[1..], cfg);
    }
  }

  lemma BlankStep(s: Sys, step: Step, cfg: Config)
    requires Blank(s) && !Storable(cfg)
    ensures Blank(Do(s, step, cfg))
  {
    hide Body;
    if step.Resolve? && step.target.Fresh? {
      assert !CanStore(KeyOf(step.target, step.next), step.target.draft, cfg);
    }
  }

  // ----- two pushers

  lemma {:induction false} RunFollows(path: seq<Sys>, steps: seq<Step>, cfg: Config)
    requires |path| == |steps| + 1 && forall i :: 0 <= i < |steps| ==> Do(path[i], steps[i], cfg) == path[i + 1]
    ensures Run(path[0], steps, cfg) == path[|steps|]
    decreases |steps|
  {
    hide Do;
    if steps != [] {
      assert forall i :: 0 <= i < |steps[1..]| ==> Do(path[1..][i], steps[1..][i], cfg) == path[1..][i + 1] by {
        assert forall i :: 0 <= i < |steps[1..]| ==> path[1..][i] == path[i + 1] && steps[1..][i] == steps[i + 1];
      }
      RunFollows(path[1..], steps[1..], cfg);
    }
  }

  function Pair(a: Pc, b: Pc, n: nat): (r: seq<Pc>)
    requires n >= 2
    ensures |r| == n && r[0] == a && r[1] == b
  {
    Two(a, b, Ready, n)
  }

  lemma PairUpdates(n: nat)
    requires n >= 2
    ensures forall a, b, c :: Pair(a, b, n)[0 := c] == Pair(c, b, n) && Pair(a, b, n)[1 := c] == Pair(a, c, n)
    ensures Pair(Ready, Ready, n) == Start(n).pushers
  {
    TwoAlike(Ready, n);
  }

  /** Both pushers send the same new snapshot and are answered. */
  function Opening(k: Key, d: Draft, r0: Reply, r1: Reply): seq<Step> {
    var t := Fresh(k.epoch, Some(k.revision), d);
    [Resolve(0, t, 0, d.computed), Insert(0), Resolve(1, t, 0, d.computed), Answer(0, r0), Answer(1, r1)]
  }

  function Opened(n: nat, k: Key, d: Draft, cfg: Config, a: Pc, b: Pc): Sys
    requires n >= 2
  {
    var p := Body(k, d, cfg);
    Sys(map[k := Snap(p, Pending, None)], Pair(a, b, n), [p, p], [], [])
  }

  lemma ResolveNew(s: Sys, i: nat, k: Key, d: Draft, cfg: Config)
    requires i < |s.pushers| && s.pushers[i].Ready? && CanStore(k, d, cfg)
    ensures var e := Do(s, Resolve(i, Fresh(k.epoch, Some(k.revision), d), 0, d.computed), cfg);
            && (k !in s.snaps ==> e == s.(pushers := s.pushers[i := Storing(Body(k, d, cfg))]))
            && (k in s.snaps && !Settled(s.snaps[k].status) ==>
                  e == s.(pushers := s.pushers[i := Sending(s.snaps[k].payload)],
                        posts := s.posts + [s.snaps[k].payload]))
  {
  }

  lemma PairOpens(n: nat, k: Key, d: Draft, cfg: Config, r0: Reply, r1: Reply)
    requires n >= 2 && CanStore(k, d, cfg)
    ensures var p := Body(k, d, cfg);
            Run(Start(n), Opening(k, d, r0, r1), cfg) == Opened(n, k, d, cfg, Answered(p, r0), Answered(p, r1))
  {
    hide Run, Decide, Pair, CanStore, Body, Judge;
    PairUpdates(n);
    var p := Body(k, d, cfg);
    assert p.key == k by { BodyKey(k, d, cfg); }
    var snaps := map[k := Snap(p, Pending, None)];
    var s0 := Start(n);
    var s1 := Sys(map[], Pair(Storing(p), Ready, n), [], [], []);
    var s2 := Sys(snaps, Pair(Sending(p), Ready, n), [p], [], []);
    var s3 := Opened(n, k, d, cfg, Sending(p), Sending(p));
    var s4 := Opened(n, k, d, cfg, Answered(p, r0), Sending(p));
    var s5 := Opened(n, k, d, cfg, Answered(p, r0), Answered(p, r1));
    ResolveNew(s0, 0, k, d, cfg);
    assert Do(s1, Insert(0), cfg) == s2;
    ResolveNew(s2, 1, k, d, cfg);
    assert Do(s2, Opening(k, d, r0, r1)[2], cfg) == s3;
    RunFollows([s0, s1, s2, s3, s4, s5], Opening(k, d, r0, r1), cfg);
  }

  lemma BodyKey(k: Key, d: Draft, cfg: Config)
    ensures Body(k, d, cfg).key == k
  {
  }

  /** The mark of a session that read the pending row: failed if the reply was lost, acked if it was good. */
  function MarkOf(p: Payload, r: Reply): Pc {
    var seen := Snap(p, Pending, None);
    if r.Lost? then Marking(p, seen, Failed, None, false) else Marking(p, seen, Acked, Good(p).ack, true)
  }

  lemma LookMarks(s: Sys, i: nat, p: Payload, r: Reply, cfg: Config)
    requires i < |s.pushers| && s.pushers[i] == Answered(p, r) && (r.Lost? || r == Good(p))
    requires p.key in s.snaps && s.snaps[p.key] == Snap(p, Pending, None)
    ensures Do(s, Look(i), cfg) == s.(pushers := s.pushers[i := MarkOf(p, r)])
  {
    hide Matches;
    GoodMatches(p);
  }

  /** Both read the pending row; the good answer is committed first, the other reading is still in flight. */
  lemma AckOverStaleReading(n: nat, k: Key, d: Draft, cfg: Config, r0: Reply)
    requires n >= 2 && k == Body(k, d, cfg).key && (r0.Lost? || r0 == Good(Body(k, d, cfg)))
    ensures var p := Body(k, d, cfg);
            var s := Opened(n, k, d, cfg, Answered(p, r0), Answered(p, Good(p)));
            var e := Do(Do(Do(s, Look(0), cfg), Look(1), cfg), Commit(1), cfg);
            && IsAcked(e, k) && e.cursors == [k] && |e.pushers| == n
            && (r0.Lost? ==> Demoter(e.pushers[0], k)) && (!r0.Lost? ==> Advancer(e.pushers[0], k))
  {
    hide Pair, Body, Judge, Matches;
    var p := Body(k, d, cfg);
    GoodMatches(p);
    var s := Opened(n, k, d, cfg, Answered(p, r0), Answered(p, Good(p)));
    LookMarks(s, 0, p, r0, cfg);
    var one := Do(s, Look(0), cfg);
    LookMarks(one, 1, p, Good(p), cfg);
  }

  /** From an empty table, two pushers reach an acknowledged snapshot with a stale reading in flight. */
  lemma StaleReadingIsReachable(n: nat, k: Key, d: Draft, cfg: Config, r0: Reply) returns (steps: seq<Step>)
    requires n >= 2 && CanStore(k, d, cfg) && (r0.Lost? || r0 == Good(Body(k, d, cfg)))
    ensures var e := Run(Start(n), steps, cfg);
            && Inv(e) && IsAcked(e, k) && e.cursors == [k] && |e.pushers| == n
            && (r0.Lost? ==> Demoter(e.pushers[0], k)) && (!r0.Lost? ==> Advancer(e.pushers[0], k))
  {
    hide Run, Do, Pair, CanStore, Opening, Opened, Demoter, Advancer, IsAcked, Inv, Start, Good;
    var p := Body(k, d, cfg);
    var opening := Opening(k, d, r0, Good(p));
    PairOpens(n, k, d, cfg, r0, Good(p));
    var s := Run(Start(n), opening, cfg);
    AckOverStaleReading(n, k, d, cfg, r0);
    RunTwo(s, Look(0), Look(1), cfg);
    var looked := Run(s, [Look(0), Look(1)], cfg);
    RunOne(looked, Commit(1), cfg);
    RunConcat(s, [Look(0), Look(1)], [Commit(1)], cfg);
    RunConcat(Start(n), opening, [Look(0), Look(1)] + [Commit(1)], cfg);
    steps := opening + ([Look(0), Look(1)] + [Commit(1)]);
    EveryRunIsSafe(Start(n), steps, cfg);
  }

  // ----- how many pushers

  /** In every run of `n` pushers an acknowledged snapshot stays acknowledged. */
  ghost predicate AckedIsFinal(n: nat, cfg: Config) {
    forall a, b, k {:trigger IsAcked(Run(Run(Start(n), a, cfg), b, cfg), k)} ::
      IsAcked(Run(Start(n), a, cfg), k) ==> IsAcked(Run(Run(Start(n), a, cfg), b, cfg), k)
  }

  /** In every run of `n` pushers each cursor advance is reported once. */
  ghost predicate CursorsAdvanceOnce(n: nat, cfg: Config) {
    forall steps {:trigger Run(Start(n), steps, cfg)} :: Distinct(Run(Start(n), steps, cfg).cursors)
  }

  lemma OnePusherIsSafe(n: nat, steps: seq<Step>, cfg: Config)
    requires n <= 1
    ensures var s := Run(Start(n), steps, cfg); Inv(s) && Lone(s)
  {
    hide Run, Inv;
    LoneRuns(Start(n), steps, cfg);
  }

  /** Acknowledgements are final exactly with a single pusher (or if the schema lets nothing be stored at all). */
  lemma AckedIsFinalIff(n: nat, cfg: Config)
    ensures AckedIsFinal(n, cfg) <==> n <= 1 || !Storable(cfg)
  {
    hide Run, Inv, Lone, NoDemoter, IsAcked, CanStore, Demoter, Start;
    if n <= 1 || !Storable(cfg) {
      forall a, b, k | IsAcked(Run(Start(n), a, cfg), k)
        ensures IsAcked(Run(Run(Start(n), a, cfg), b, cfg), k)
      {
        AckedStaysHere(n, a, b, k, cfg);
      }
    } else {
      var k, d :| CanStore(k, d, cfg);
      var a := StaleReadingIsReachable(n, k, d, cfg, Lost);
      var s := Run(Start(n), a, cfg);
      HasDemoter(s, 0, k);
      AckedStaysIff(s, cfg, k);
      var b :| !IsAcked(Run(s, b, cfg), k);
    }
  }

  lemma HasDemoter(s: Sys, p: nat, k: Key)
    requires p < |s.pushers| && Demoter(s.pushers[p], k)
    ensures !NoDemoter(s, k)
  {
  }

  lemma AckedStaysHere(n: nat, a: seq<Step>, b: seq<Step>, k: Key, cfg: Config)
    requires (n <= 1 || !Storable(cfg)) && IsAcked(Run(Start(n), a, cfg), k)
    ensures IsAcked(Run(Run(Start(n), a, cfg), b, cfg), k)
  {
    hide Run, Inv, Lone, NoDemoter, Storable;
    var s := Run(Start(n), a, cfg);
    if n <= 1 {
      OnePusherIsSafe(n, a, cfg);
      LoneHasNoDemoter(s, k);
      FirmStays(s, b, cfg, k);
    } else {
      BlankStays(Start(n), a, cfg);
      assert false;
    }
  }

  /** Each cursor advances once in every run exactly under the same condition. */
  lemma CursorsAdvanceOnceIff(n: nat, cfg: Config)
    ensures CursorsAdvanceOnce(n, cfg) <==> n <= 1 || !Storable(cfg)
  {
    hide Run, Inv, IsAcked, CanStore, Advancer, Storable, Good;
    if n <= 1 || !Storable(cfg) {
      forall steps ensures Distinct(Run(Start(n), steps, cfg).cursors)
      {
        if n <= 1 {
          OnePusherIsSafe(n, steps, cfg);
        } else {
          BlankStays(Start(n), steps, cfg);
        }
      }
    } else {
      TwoPushersAdvanceTwice(n, cfg);
    }
  }

  lemma TwoPushersAdvanceTwice(n: nat, cfg: Config)
    requires n >= 2 && Storable(cfg)
    ensures !CursorsAdvanceOnce(n, cfg)
  {
    hide Run, Do, Inv, IsAcked, CanStore, Advancer, Start, Good;
    var k, d :| CanStore(k, d, cfg);
    var steps := StaleReadingIsReachable(n, k, d, cfg, Good(Body(k, d, cfg)));
    GoodMatches(Body(k, d, cfg));
    var s := Run(Start(n), steps, cfg);
    AdvancerAdvances(s, 0, k, cfg);
    RunOne(s, Commit(0), cfg);
    RunConcat(Start(n), steps, [Commit(0)], cfg);
    assert Run(Start(n), steps + [Commit(0)], cfg).cursors == [k, k];
    assert [k, k][0] == [k, k][1];
  }

}
