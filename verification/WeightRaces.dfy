/**
 Several pushers on one snapshot table, one statement at a time. A session reads a row, and commits the columns
 it changed some statements later without comparing; only inserts are guarded, by the unique (epoch, revision).
 */
module WeightRaces {
  import opened Common
  import opened Sessions
  import opened WeightPush

  /** `seen` is the row as the session read it. `proof` is the matching acknowledgement behind an `acked` mark. */
  datatype Pc =
    | Ready
    | Storing(body: Payload)
    | Voiding(key: Key, seen: Snap)
    | Sending(body: Payload)
    | Answered(body: Payload, reply: Reply)
    | Marking(body: Payload, seen: Snap, to: PushStatus, proof: Option<Ack>, advances: bool)

  /** `posts` are the bodies sent, `acks` the matching replies recorded, `cursors` the advances reported. */
  datatype Sys = Sys(snaps: Snaps, pushers: seq<Pc>, posts: seq<Payload>, acks: seq<(Payload, Ack)>, cursors: seq<Key>)

  datatype Step =
    | Resolve(pusher: nat, target: Target, next: int, now: real) // read the row of the snapshot, if there is one
    | Insert(pusher: nat)                                        // store a new snapshot and send it
    | Answer(pusher: nat, reply: Reply)
    | Look(pusher: nat)                                          // read the row again
    | Commit(pusher: nat)                                        // write the changed columns
    | Abandon(pusher: nat)

  function Begin(s: Sys, i: nat, d: Decision, k: Key): Sys
    requires i < |s.pushers|
  {
    match d
    case Stop(_) => s
    case Void => if k in s.snaps then s.(pushers := s.pushers[i := Voiding(k, s.snaps[k])]) else s
    case Send(p) => s.(pushers := s.pushers[i := Sending(p)], posts := s.posts + [p])
    case Store(p) => s.(pushers := s.pushers[i := Storing(p)])
  }

  function ProofOf(v: Verdict, r: Reply): Option<Ack> {
    if v.Mark? && v.to.Acked? && r.Http? then r.ack else None
  }

  function Judge(s: Sys, i: nat, p: Payload, r: Reply): Sys
    requires i < |s.pushers|
  {
    var v := OnReply(RowOf(s.snaps, p.key), p, r);
    var pc :=
      if v.Mark? && p.key in s.snaps then
        Marking(p, s.snaps[p.key], v.to, ProofOf(v, r), v.out.Acknowledged? && v.out.cursorAdvanced)
      else Ready;
    s.(pushers := s.pushers[i := pc])
  }

  function IdOf(proof: Option<Ack>): Option<string> {
    if proof.Some? then Some(proof.value.snapshotId) else None
  }

  function Do(s: Sys, step: Step, cfg: Config): Sys {
    if step.pusher >= |s.pushers| then s
    else
      var i, pc := step.pusher, s.pushers[step.pusher];
      match step
      case Resolve(_, t, next, now) =>
        if !pc.Ready? then s
        else Begin(s, i, Decide(RowOf(s.snaps, KeyOf(t, next)), t, next, cfg, now), KeyOf(t, next))
      case Insert(_) =>
        if !pc.Storing? then s
        else if pc.body.key in s.snaps then s.(pushers := s.pushers[i := Ready])
        else
          s.(snaps := s.snaps[pc.body.key := Snap(pc.body, Pending, None)],
             pushers := s.pushers[i := Sending(pc.body)], posts := s.posts + [pc.body])
      case Answer(_, r) =>
        if !pc.Sending? then s else s.(pushers := s.pushers[i := Answered(pc.body, r)])
      case Look(_) =>
        if !pc.Answered? then s else Judge(s, i, pc.body, pc.reply)
      case Commit(_) =>
        if pc.Voiding? && pc.key in s.snaps then
          s.(snaps := s.snaps[pc.key := Written(s.snaps[pc.key], pc.seen, InvalidWindow, None)],
             pushers := s.pushers[i := Ready])
        else if pc.Marking? && pc.body.key in s.snaps then
          var k := pc.body.key;
          s.(snaps := s.snaps[k := Written(s.snaps[k], pc.seen, pc.to, IdOf(pc.proof))],
             pushers := s.pushers[i := Ready],
             acks := if pc.proof.Some? then s.acks + [(pc.body, pc.proof.value)] else s.acks,
             cursors := if pc.advances then s.cursors + [k] else s.cursors)
        else s
      case Abandon(_) => s.(pushers := s.pushers[i := Ready])
  }

  function Run(s: Sys, steps: seq<Step>, cfg: Config): Sys
    decreases |steps|
  {
    if steps == [] then s else Run(Do(s, steps[0], cfg), steps[1..], cfg)
  }

  lemma RunOne(s: Sys, step: Step, cfg: Config)
    ensures Run(s, [step], cfg) == Do(s, step, cfg)
  {
    hide Do;
    assert [step][1..] == [];
    assert Run(Do(s, step, cfg), [], cfg) == Do(s, step, cfg);
  }

  lemma {:induction false} RunConcat(s: Sys, a: seq<Step>, b: seq<Step>, cfg: Config)
    ensures Run(s, a + b, cfg) == Run(Run(s, a, cfg), b, cfg)
    decreases |a|
  {
    hide Do;
    if a == [] {
      assert a + b == b;
    } else {
      assert (a + b)[0] == a[0] && (a + b)[1..] == a[1..] + b;
      RunConcat(Do(s, a[0], cfg), a[1..], b, cfg);
    }
  }

  lemma RunTwo(s: Sys, a: Step, b: Step, cfg: Config)
    ensures Run(s, [a, b], cfg) == Do(Do(s, a, cfg), b, cfg)
  {
    hide Do, Run;
    assert [a, b] == [a] + [b];
    RunConcat(s, [a], [b], cfg);
    RunOne(s, a, cfg);
    RunOne(Do(s, a, cfg), b, cfg);
  }

  /** A pusher in the middle of a session resolves nothing new; giving up writes nothing. */
  lemma OneSessionAtATime(s: Sys, i: nat, step: Step, cfg: Config)
    requires i < |s.pushers| && step.pusher == i
    ensures step.Resolve? && !s.pushers[i].Ready? ==> Do(s, step, cfg) == s
    ensures step.Abandon? ==> Do(s, step, cfg) == s.(pushers := s.pushers[i := Ready])
  {
  }

  /** A session whose statements are not interleaved is the session of `WeightPush`. */
  lemma UninterruptedSessions(s: Sys, i: nat, t: Target, next: int, now: real, cfg: Config)
    requires i < |s.pushers|
    ensures s.pushers[i].Ready? ==>
              var e := Run(s, [Resolve(i, t, next, now), Commit(i)], cfg);
              var f := Run(s, [Resolve(i, t, next, now), Insert(i)], cfg);
              Prepare(s.snaps, t, next, cfg, now).0
              == if Decide(RowOf(s.snaps, KeyOf(t, next)), t, next, cfg, now).Void? then e.snaps else f.snaps
    ensures s.pushers[i].Answered? ==>
              Run(s, [Look(i), Commit(i)], cfg).snaps == Record(s.snaps, s.pushers[i].body, s.pushers[i].reply).0
  {
    hide Run;
    RunTwo(s, Resolve(i, t, next, now), Commit(i), cfg);
    RunTwo(s, Resolve(i, t, next, now), Insert(i), cfg);
    RunTwo(s, Look(i), Commit(i), cfg);
    if s.pushers[i].Answered? {
      LookThenCommit(s, i, cfg);
    } else if s.pushers[i].Ready? {
      ResolveThenWrite(s, i, t, next, now, cfg);
    }
  }

  lemma LookThenCommit(s: Sys, i: nat, cfg: Config)
    requires i < |s.pushers| && s.pushers[i].Answered?
    ensures Do(Do(s, Look(i), cfg), Commit(i), cfg).snaps == Record(s.snaps, s.pushers[i].body, s.pushers[i].reply).0
  {
  }

  lemma ResolveThenWrite(s: Sys, i: nat, t: Target, next: int, now: real, cfg: Config)
    requires i < |s.pushers| && s.pushers[i].Ready?
    ensures var d := Decide(RowOf(s.snaps, KeyOf(t, next)), t, next, cfg, now);
            var e := Do(s, Resolve(i, t, next, now), cfg);
            Prepare(s.snaps, t, next, cfg, now).0
            == if d.Void? then Do(e, Commit(i), cfg).snaps else Do(e, Insert(i), cfg).snaps
  {
  }

  // ----- what every interleaving keeps

  ghost predicate BodyOf(snaps: Snaps, pc: Pc) {
    match pc
    case Ready => true
    case Storing(p) => p.draft.weights != map[]
    case Voiding(k, seen) => k in snaps && IdKept(snaps[k], seen)
    case Sending(p) => IsStored(snaps, p)
    case Answered(p, _) => IsStored(snaps, p)
    case Marking(p, seen, to, proof, advances) =>
      && IsStored(snaps, p) && IdKept(snaps[p.key], seen) && !to.Sim?
      && (advances <==> to.Acked? && !Settled(seen.status))
      && (to.Acked? <==> proof.Some?) && (proof.Some? ==> Names(proof.value, p))
  }

  /** An acked reading carries a master id, and a row that once had one still has one. */
  ghost predicate IdKept(current: Snap, seen: Snap) {
    (seen.status.Acked? ==> seen.masterId.Some?) && (seen.masterId.Some? ==> current.masterId.Some?)
  }

  /** Every body ever sent, or held by a pusher, is the stored one of its key. */
  ghost predicate BodiesOk(snaps: Snaps, posts: seq<Payload>, pushers: seq<Pc>) {
    && (forall i :: 0 <= i < |posts| ==> IsStored(snaps, posts[i]))
    && (forall i :: 0 <= i < |pushers| ==> BodyOf(snaps, pushers[i]))
  }

  ghost predicate Proven(s: Snap, acks: seq<(Payload, Ack)>) {
    exists i :: 0 <= i < |acks| && acks[i].0 == s.payload && Names(acks[i].1, s.payload)
                && s.masterId == Some(acks[i].1.snapshotId)
  }

  /** Acked snapshots name a master id, and a master id is that of a recorded reply matching slug, key and digest. */
  ghost predicate AcksProven(snaps: Snaps, acks: seq<(Payload, Ack)>) {
    forall k :: k in snaps ==>
      (snaps[k].status.Acked? ==> snaps[k].masterId.Some?) && (snaps[k].masterId.Some? ==> Proven(snaps[k], acks))
  }

  ghost predicate Inv(s: Sys) {
    RowsOk(s.snaps) && BodiesOk(s.snaps, s.posts, s.pushers) && AcksProven(s.snaps, s.acks)
  }

  /** Rows stay, with their bodies, and a master id once recorded is never erased. */
  ghost predicate KeepsBodies(a: Snaps, b: Snaps) {
    forall k :: k in a ==> k in b && b[k].payload == a[k].payload && (a[k].masterId.Some? ==> b[k].masterId.Some?)
  }

  lemma KeptBodiesOk(a: Snaps, b: Snaps, posts: seq<Payload>, pushers: seq<Pc>)
    requires KeepsBodies(a, b) && BodiesOk(a, posts, pushers)
    ensures BodiesOk(b, posts, pushers)
  {
  }

  lemma ResolveKeepsInv(s: Sys, i: nat, t: Target, next: int, now: real, cfg: Config)
    requires Inv(s)
    ensures var e := Do(s, Resolve(i, t, next, now), cfg); Inv(e) && KeepsBodies(s.snaps, e.snaps)
  {
    hide Proven;
  }

  lemma InsertKeepsInv(s: Sys, i: nat, cfg: Config)
    requires Inv(s)
    ensures Inv(Do(s, Insert(i), cfg)) && KeepsBodies(s.snaps, Do(s, Insert(i), cfg).snaps)
  {
    hide Proven;
    var e := Do(s, Insert(i), cfg);
    KeptBodiesOk(s.snaps, e.snaps, s.posts, s.pushers);
  }

  lemma LookKeepsInv(s: Sys, i: nat, cfg: Config)
    requires Inv(s)
    ensures Inv(Do(s, Look(i), cfg)) && KeepsBodies(s.snaps, Do(s, Look(i), cfg).snaps)
  {
    hide Proven;
  }

  /** What a commit makes of the row it writes. */
  lemma MarkedRow(s: Sys, i: nat, cfg: Config, k: Key)
    requires Inv(s) && k in s.snaps
    ensures var e := Do(s, Commit(i), cfg);
            && k in e.snaps && e.snaps[k].payload == s.snaps[k].payload && s.acks <= e.acks
            && (s.snaps[k].masterId.Some? ==> e.snaps[k].masterId.Some?)
            && (e.snaps[k].status.Acked? ==> e.snaps[k].masterId.Some?)
            && (e.snaps[k].masterId != s.snaps[k].masterId ==>
                  && |e.acks| == |s.acks| + 1 && e.acks[|s.acks|].0 == e.snaps[k].payload
                  && Names(e.acks[|s.acks|].1, e.snaps[k].payload)
                  && e.snaps[k].masterId == Some(e.acks[|s.acks|].1.snapshotId))
  {
    hide Proven;
  }

  lemma ProvenStays(row: Snap, a: seq<(Payload, Ack)>, b: seq<(Payload, Ack)>)
    requires Proven(row, a) && a <= b
    ensures forall row': Snap :: row'.payload == row.payload && row'.masterId == row.masterId ==> Proven(row', b)
  {
    var j :| 0 <= j < |a| && a[j].0 == row.payload && Names(a[j].1, row.payload)
             && row.masterId == Some(a[j].1.snapshotId);
    assert b[j] == a[j];
  }

  lemma CommitKeepsProofs(s: Sys, i: nat, cfg: Config)
    requires Inv(s)
    ensures var e := Do(s, Commit(i), cfg);
            AcksProven(e.snaps, e.acks) && KeepsBodies(s.snaps, e.snaps) && RowsOk(e.snaps)
  {
    hide Written, Names, BodiesOk;
    var e := Do(s, Commit(i), cfg);
    assert e.snaps.Keys == s.snaps.Keys;
    forall k | k in s.snaps
      ensures (e.snaps[k].status.Acked? ==> e.snaps[k].masterId.Some?) && e.snaps[k].payload == s.snaps[k].payload
      ensures s.snaps[k].masterId.Some? ==> e.snaps[k].masterId.Some?
      ensures e.snaps[k].masterId.Some? ==> Proven(e.snaps[k], e.acks)
    {
      MarkedRow(s, i, cfg, k);
      if s.snaps[k].masterId.Some? {
        ProvenStays(s.snaps[k], s.acks, e.acks);
      }
    }
  }

  lemma CommitKeepsInv(s: Sys, i: nat, cfg: Config)
    requires Inv(s)
    ensures Inv(Do(s, Commit(i), cfg)) && KeepsBodies(s.snaps, Do(s, Commit(i), cfg).snaps)
  {
    hide Proven;
    CommitKeepsProofs(s, i, cfg);
    KeptBodiesOk(s.snaps, Do(s, Commit(i), cfg).snaps, s.posts, s.pushers);
  }

  lemma RepliesKeepInv(s: Sys, i: nat, r: Reply, cfg: Config)
    requires Inv(s)
    ensures Inv(Do(s, Answer(i, r), cfg)) && Inv(Do(s, Abandon(i), cfg))
  {
    hide Proven;
  }

  lemma DoKeepsInv(s: Sys, step: Step, cfg: Config)
    requires Inv(s)
    ensures Inv(Do(s, step, cfg)) && KeepsBodies(s.snaps, Do(s, step, cfg).snaps)
  {
    hide Proven, Decide, Judge, Written, BodiesOk, AcksProven;
    match step
    case Resolve(i, t, next, now) => ResolveKeepsInv(s, i, t, next, now, cfg);
    case Insert(i) => InsertKeepsInv(s, i, cfg);
    case Look(i) => LookKeepsInv(s, i, cfg);
    case Commit(i) => CommitKeepsInv(s, i, cfg);
    case Answer(i, r) => RepliesKeepInv(s, i, r, cfg);
    case Abandon(i) => RepliesKeepInv(s, i, Lost, cfg);
  }

  /**
   Under every interleaving of pushers and every master: each body sent is the stored one of its epoch and
   revision, stored bodies never change, and acked means that a matching reply was recorded.
   */
  lemma {:induction false} EveryRunIsSafe(s: Sys, steps: seq<Step>, cfg: Config)
    requires Inv(s)
    ensures Inv(Run(s, steps, cfg)) && KeepsBodies(s.snaps, Run(s, steps, cfg).snaps)
    decreases |steps|
  {
    hide Do, Inv;
    if steps != [] {
      DoKeepsInv(s, steps[0], cfg);
      EveryRunIsSafe(Do(s, steps[0], cfg), steps[1..], cfg);
    }
  }

  function Start(pushers: nat): (s: Sys)
    ensures Inv(s)
  {
    Sys(map[], Alike(pushers, Ready), [], [], [])
  }

  /** Two bodies sent under one epoch and revision, by whichever pushers and whenever, are the same body. */
  lemma OneBodyPerKey(pushers: nat, steps: seq<Step>, cfg: Config, i: nat, j: nat)
    ensures var s := Run(Start(pushers), steps, cfg);
            i < |s.posts| && j < |s.posts| && s.posts[i].key == s.posts[j].key ==> s.posts[i] == s.posts[j]
  {
    hide Run, Start;
    EveryRunIsSafe(Start(pushers), steps, cfg);
  }

  // ----- when a settled snapshot stays settled

  /** The pusher is about to write an unsettled status over row `k`. */
  predicate Demoter(pc: Pc, k: Key) {
    || (pc.Voiding? && pc.key == k && !pc.seen.status.InvalidWindow?)
    || (pc.Marking? && pc.body.key == k && !Settled(pc.to) && pc.to != pc.seen.status)
  }

  /** The pusher is about to report a cursor advance for `k`. */
  predicate Advancer(pc: Pc, k: Key) {
    pc.Marking? && pc.body.key == k && pc.advances
  }

  ghost predicate NoDemoter(s: Sys, k: Key) {
    forall p :: 0 <= p < |s.pushers| ==> !Demoter(s.pushers[p], k)
  }

  ghost predicate NoAdvancer(s: Sys, k: Key) {
    forall p :: 0 <= p < |s.pushers| ==> !Advancer(s.pushers[p], k)
  }

  ghost predicate IsSettled(s: Sys, k: Key) {
    k in s.snaps && Settled(s.snaps[k].status)
  }

  ghost predicate IsAcked(s: Sys, k: Key) {
    k in s.snaps && s.snaps[k].status.Acked?
  }

  /** What one step keeps of a settled row that nobody is about to demote. */
  ghost predicate StaysFirm(s: Sys, e: Sys, k: Key) {
    && IsSettled(e, k) && NoDemoter(e, k) && (IsAcked(s, k) ==> IsAcked(e, k))
    && s.cursors <= e.cursors && (NoAdvancer(s, k) ==> NoAdvancer(e, k) && k !in e.cursors[|s.cursors|..])
  }

  lemma ReadingsKeepFirm(s: Sys, step: Step, cfg: Config, k: Key)
    requires IsSettled(s, k) && NoDemoter(s, k) && !step.Commit?
    ensures StaysFirm(s, Do(s, step, cfg), k)
  {
    hide Body, Matches, Names;
  }

  lemma CommitKeepsFirm(s: Sys, i: nat, cfg: Config, k: Key)
    requires Inv(s) && IsSettled(s, k) && NoDemoter(s, k)
    ensures StaysFirm(s, Do(s, Commit(i), cfg), k)
  {
    hide AcksProven, RowsOk, Matches, Names, IdKept;
    if i < |s.pushers| {
      assert !Demoter(s.pushers[i], k);
      assert NoAdvancer(s, k) ==> !Advancer(s.pushers[i], k);
    }
  }

  lemma DoKeepsFirm(s: Sys, step: Step, cfg: Config, k: Key)
    requires Inv(s) && IsSettled(s, k) && NoDemoter(s, k)
    ensures StaysFirm(s, Do(s, step, cfg), k)
  {
    hide StaysFirm, Do, Inv;
    if step.Commit? {
      CommitKeepsFirm(s, step.pusher, cfg, k);
    } else {
      ReadingsKeepFirm(s, step, cfg, k);
    }
  }

  /** A settled row that no session is about to demote stays settled, whatever runs. */
  lemma {:induction false} FirmStays(s: Sys, steps: seq<Step>, cfg: Config, k: Key)
    requires Inv(s) && IsSettled(s, k) && NoDemoter(s, k)
    ensures StaysFirm(s, Run(s, steps, cfg), k)
    decreases |steps|
  {
    hide Do, Inv, IsSettled, NoDemoter, IsAcked, NoAdvancer;
    if steps != [] {
      var next := Do(s, steps[0], cfg);
      DoKeepsInv(s, steps[0], cfg);
      DoKeepsFirm(s, steps[0], cfg, k);
      FirmStays(next, steps[1..], cfg, k);
      var e := Run(next, steps[1..], cfg);
      assert e.cursors[|s.cursors|..] == next.cursors[|s.cursors|..] + e.cursors[|next.cursors|..];
    }
  }
}
