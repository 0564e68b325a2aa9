/** Which stored snapshot the weights endpoint and the preview serve, and the push store that feeds them. */
module WeightServing {
  import opened Common
  import opened WeightPush
  import opened WeightRaces
  import opened WeightFinality

  predicate Before(a: Key, b: Key) {
    a.epoch < b.epoch || (a.epoch == b.epoch && a.revision < b.revision)
  }

  predicate Eligible(snaps: Snaps, k: Key, settledOnly: bool) {
    k in snaps && (settledOnly ==> Settled(snaps[k].status))
  }

  ghost predicate IsLatest(snaps: Snaps, settledOnly: bool, k: Key) {
    Eligible(snaps, k, settledOnly) && forall j :: Eligible(snaps, j, settledOnly) ==> !Before(k, j)
  }

  /** The answer of the ordered, limit-1 query. */
  ghost predicate Answers(snaps: Snaps, settledOnly: bool, r: Option<Key>) {
    if r.Some? then IsLatest(snaps, settledOnly, r.value)
    else forall k :: k in snaps ==> !Eligible(snaps, k, settledOnly)
  }

  lemma LatestIsUnique(snaps: Snaps, settledOnly: bool, r: Option<Key>, r': Option<Key>)
    requires Answers(snaps, settledOnly, r) && Answers(snaps, settledOnly, r')
    ensures r == r'
  {
  }

  /** It is the one of the newest epoch, and of its highest revision, among those asked for. */
  lemma LatestIsGreatest(snaps: Snaps, settledOnly: bool, r: Option<Key>)
    requires Answers(snaps, settledOnly, r)
    ensures forall k :: k in snaps && (settledOnly ==> snaps[k].status.Acked? || snaps[k].status.Sim?) ==>
              r.Some? && (k.epoch < r.value.epoch || (k.epoch == r.value.epoch && k.revision <= r.value.revision))
    ensures r.Some? ==>
              r.value in snaps && (settledOnly ==> snaps[r.value].status.Acked? || snaps[r.value].status.Sim?)
  {
    forall k | k in snaps && (settledOnly ==> Settled(snaps[k].status))
      ensures r.Some? && (k.epoch < r.value.epoch || (k.epoch == r.value.epoch && k.revision <= r.value.revision))
    {
      assert Eligible(snaps, k, settledOnly);
    }
  }

  datatype Source = FromSnapshot(key: Key) | LiveAggregation

  /** Weights: the latest settled snapshot, else the latest of all unless it is rejected or invalid. */
  function WeightsSource(snaps: Snaps, settled: Option<Key>, any: Option<Key>): Source {
    var pick := if settled.Some? then settled else any;
    if pick.Some? && pick.value in snaps
       && !snaps[pick.value].status.InvalidWindow? && !snaps[pick.value].status.Rejected?
    then FromSnapshot(pick.value)
    else LiveAggregation
  }

  /** Preview: the latest of all, whatever its push outcome, unless its window is invalid. */
  function PreviewSource(snaps: Snaps, any: Option<Key>): Source {
    if any.Some? && any.value in snaps && !snaps[any.value].status.InvalidWindow? then FromSnapshot(any.value)
    else LiveAggregation
  }

  /**
   The two surfaces are meant to show one map. They take it from the same source exactly when the newest snapshot is
   settled, or nothing is settled and the newest was not rejected.
   */
  lemma PreviewAgreesIff(snaps: Snaps, settled: Option<Key>, any: Option<Key>)
    requires Answers(snaps, true, settled) && Answers(snaps, false, any)
    ensures WeightsSource(snaps, settled, any) == PreviewSource(snaps, any) <==>
            any.None? || Settled(snaps[any.value].status) || (settled.None? && !snaps[any.value].status.Rejected?)
  {
    if settled.Some? {
      assert Eligible(snaps, settled.value, false);
      if Settled(snaps[any.value].status) {
        assert Eligible(snaps, any.value, true);
        assert !Before(settled.value, any.value) && !Before(any.value, settled.value);
      }
    }
  }

  /** A snapshot is served exactly if it is the latest settled one, or, with none settled, the latest not refused. */
  lemma ServedIff(snaps: Snaps, settled: Option<Key>, any: Option<Key>, k: Key)
    requires Answers(snaps, true, settled) && Answers(snaps, false, any)
    ensures WeightsSource(snaps, settled, any) == FromSnapshot(k) <==>
            || settled == Some(k)
            || (settled.None? && any == Some(k) && !snaps[k].status.Rejected? && !snaps[k].status.InvalidWindow?)
    ensures PreviewSource(snaps, any) == FromSnapshot(k) <==> any == Some(k) && !snaps[k].status.InvalidWindow?
  {
  }

  lemma {:induction false} LatestExists(snaps: Snaps, settledOnly: bool, keys: set<Key>) returns (r: Option<Key>)
    requires keys <= snaps.Keys
    ensures r.Some? ==> r.value in keys && Eligible(snaps, r.value, settledOnly)
    ensures forall k :: k in keys && Eligible(snaps, k, settledOnly) ==> r.Some? && !Before(r.value, k)
    decreases |keys|
  {
    r := None;
    if k :| k in keys {
      r := LatestExists(snaps, settledOnly, keys - {k});
      if Eligible(snaps, k, settledOnly) && (r.None? || Before(r.value, k)) {
        r := Some(k);
      }
    }
  }

  /** In every later state of every run there is a settled snapshot to serve, and none older than `a` is served. */
  ghost predicate NeverRegresses(s: Sys, cfg: Config, a: Key) {
    forall steps, b {:trigger Answers(Run(s, steps, cfg).snaps, true, b)} ::
      Answers(Run(s, steps, cfg).snaps, true, b) ==> b.Some? && !Before(b.value, a)
  }

  lemma SettledIsServed(snaps: Snaps, settled: Option<Key>, any: Option<Key>)
    requires settled.Some? && Answers(snaps, true, settled)
    ensures WeightsSource(snaps, settled, any) == FromSnapshot(settled.value)
  {
  }

  /**
   The served snapshot never moves back to an older epoch or revision, in any later run, exactly when no session
   is about to demote it.
   */
  lemma NeverRegressesIff(s: Sys, cfg: Config, a: Key)
    requires Inv(s) && Answers(s.snaps, true, Some(a))
    ensures NeverRegresses(s, cfg, a) <==> NoDemoter(s, a)
  {
    hide Run, Do, Inv, Demoter;
    if NoDemoter(s, a) {
      forall steps, b | Answers(Run(s, steps, cfg).snaps, true, b)
        ensures b.Some? && !Before(b.value, a)
      {
        FirmStays(s, steps, cfg, a);
        assert Eligible(Run(s, steps, cfg).snaps, a, true);
      }
    } else {
      var p :| 0 <= p < |s.pushers| && Demoter(s.pushers[p], a);
      DemotionRegresses(s, p, cfg, a);
    }
  }

  lemma DemotionRegresses(s: Sys, p: nat, cfg: Config, a: Key)
    requires Inv(s) && Answers(s.snaps, true, Some(a)) && p < |s.pushers| && Demoter(s.pushers[p], a)
    ensures !NeverRegresses(s, cfg, a)
  {
    hide Run, Demoter, BodiesOk, AcksProven;
    var e := Do(s, Commit(p), cfg);
    DemoterDemotes(s, p, a, cfg);
    OtherRowsStay(s, p, cfg, a);
    RunOne(s, Commit(p), cfg);
    var b := LatestExists(e.snaps, true, e.snaps.Keys);
    assert Answers(Run(s, [Commit(p)], cfg).snaps, true, b);
    if b.Some? {
      assert b.value != a && Eligible(s.snaps, b.value, true);
      assert !Before(a, b.value);
    }
  }

  lemma OtherRowsStay(s: Sys, p: nat, cfg: Config, k: Key)
    requires p < |s.pushers| && Demoter(s.pushers[p], k)
    ensures var e := Do(s, Commit(p), cfg); forall j ::
              j in e.snaps && j != k ==> j in s.snaps && e.snaps[j] == s.snaps[j]
  {
  }

  class PushStore {
    const cfg: Config
    var snaps: Snaps

    constructor (cfg: Config)
      ensures snaps == map[] && this.cfg == cfg
    {
      this.cfg := cfg;
      snaps := map[];
    }

    /** The ordered, limit-1 query of the snapshot table. */
    method LatestSnapshot(settledOnly: bool) returns (r: Option<Key>)
      ensures Answers(snaps, settledOnly, r)
    {
      r := None;
      var todo := snaps.Keys;
      while todo != {}
        invariant todo <= snaps.Keys
        invariant r.Some? ==> Eligible(snaps, r.value, settledOnly)
        invariant forall k :: k in snaps && k !in todo && Eligible(snaps, k, settledOnly) ==>
                    r.Some? && !Before(r.value, k)
        decreases |todo|
      {
        var k :| k in todo;
        if Eligible(snaps, k, settledOnly) && (r.None? || Before(r.value, k)) {
          r := Some(k);
        }
        todo := todo - {k};
      }
    }

    /** Snapshot preferred by the weights surface: settled ones first, then any. */
    method LoadRawWeights() returns (source: Source)
      ensures forall settled, any :: Answers(snaps, true, settled) && Answers(snaps, false, any) ==>
                source == WeightsSource(snaps, settled, any)
    {
      var preferred := LatestSnapshot(true);
      var latest := LatestSnapshot(false);
      forall settled, any | Answers(snaps, true, settled) && Answers(snaps, false, any)
        ensures settled == preferred && any == latest
      {
        LatestIsUnique(snaps, true, settled, preferred);
        LatestIsUnique(snaps, false, any, latest);
      }
      var pick := if preferred.Some? then preferred else latest;
      if pick.None? {
        return LiveAggregation;
      }
      var status := snaps[pick.value].status;
      if status == InvalidWindow || status == Rejected {
        return LiveAggregation;
      }
      return FromSnapshot(pick.value);
    }

    /** 1 + the highest revision of the epoch, or 1. */
    method NextRevision(epoch: int) returns (r: int)
      ensures IsNextRevision(snaps, epoch, r)
    {
      var highest: Option<int> := None;
      var todo := snaps.Keys;
      while todo != {}
        invariant todo <= snaps.Keys
        invariant highest.Some? ==> Key(epoch, highest.value) in snaps
        invariant forall k :: k in snaps && k !in todo && k.epoch == epoch ==>
                    highest.Some? && k.revision <= highest.value
        decreases |todo|
      {
        var k :| k in todo;
        if k.epoch == epoch && (highest.None? || k.revision > highest.value) {
          highest := Some(k.revision);
        }
        todo := todo - {k};
      }
      r := if highest.Some? then highest.value + 1 else 1;
    }

    /** First session of a push, uninterrupted: find or store the snapshot and decide whether to send it. */
    method PreparePush(t: Target, now: real) returns (out: Prepared)
      modifies this
      ensures forall next :: (t.Fresh? ==> IsNextRevision(old(snaps), t.epoch, next)) ==>
                (snaps, out) == Prepare(old(snaps), t, next, cfg, now)
    {
      match t {
        case Reuse(k) =>
          if k !in snaps {
            return NoSnapshot;
          }
          var s := snaps[k];
          var draft := s.payload.draft;
          if draft.expires <= draft.computed || (!Retryable(s.status) && draft.expires <= now) {
            if !Settled(s.status) {
              snaps := snaps[k := s.(status := InvalidWindow)];
            }
            return BadWindow;
          }
          if Settled(s.status) {
            return AlreadyAcked(s.payload);
          }
          return ToPost(s.payload);
        case Fresh(epoch, revision, d) =>
          if d.expires <= d.computed || d.expires <= now {
            return BadWindow;
          }
          if d.weights == map[] {
            return EmptyWeights;
          }
          var n := NextRevision(epoch);
          NextRevisionIsNew(snaps, epoch, n);
          var k := Key(epoch, if revision.Some? then revision.value else n);
          if k in snaps {
            if Settled(snaps[k].status) {
              return AlreadyAcked(snaps[k].payload);
            }
            return ToPost(snaps[k].payload);
          }
          var p := Body(k, d, cfg);
          if !cfg.accepts(p) {
            return SchemaError;
          }
          snaps := snaps[k := Snap(p, Pending, None)];
          return ToPost(p);
      }
    }

    /** Last session of a push, uninterrupted: store what the reply means for the snapshot. */
    method RecordReply(p: Payload, reply: Reply) returns (out: Recorded)
      modifies this
      ensures (snaps, out) == Record(old(snaps), p, reply)
    {
      if reply.Lost? {
        if p.key in snaps && snaps[p.key].status == Pending {
          snaps := snaps[p.key := snaps[p.key].(status := Failed)];
        }
        return TransportError;
      }
      if reply.code != 200 && reply.code != 201 {
        if p.key in snaps && snaps[p.key].status == Pending {
          snaps := snaps[p.key := snaps[p.key].(status := Rejected)];
        }
        return HttpRefused;
      }
      if reply.ack.None? {
        return Malformed;
      }
      var ack := reply.ack.value;
      if !ack.accepted || ack.snapshotId == "" || ack.slug != p.slug || ack.key != p.key || ack.digest != p.digest {
        return Mismatch;
      }
      if p.key !in snaps {
        return SnapshotGone;
      }
      var already := Settled(snaps[p.key].status);
      snaps := snaps[p.key := snaps[p.key].(status := Acked, masterId := Some(ack.snapshotId))];
      return Acknowledged(!already);
    }
  }

  /** Left to itself, the revision query always names a key that is not stored yet, so nothing is overwritten. */
  lemma NextRevisionIsNew(snaps: Snaps, epoch: int, r: int)
    requires IsNextRevision(snaps, epoch, r)
    ensures Key(epoch, r) !in snaps
    ensures forall r' :: IsNextRevision(snaps, epoch, r') ==> r' == r
  {
  }
}
