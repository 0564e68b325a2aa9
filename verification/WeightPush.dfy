/**
 One session of the raw-weight push protocol at a time: snapshots keyed by (epoch, revision), the decision
 whether to send one, and what the master's reply, which may be anything, means for it.
 */
module WeightPush {
  import opened Columns
  import opened Common

  datatype Key = Key(epoch: int, revision: int)

  datatype PushStatus = Pending | Acked | Sim | Rejected | Failed | InvalidWindow

  /** What a pusher wants to send, before epoch and revision are resolved. Times are in seconds. */
  datatype Draft = Draft(weights: map<string, real>, computed: real, expires: real, nonce: string)

  /** The immutable, digest-bound body. */
  datatype Payload = Payload(slug: string, key: Key, draft: Draft, digest: string)

  datatype Snap = Snap(payload: Payload, status: PushStatus, masterId: Option<string>)

  datatype Ack = Ack(accepted: bool, slug: string, key: Key, digest: string, snapshotId: string)

  /** Lost covers timeouts and transport errors; a body that does not parse is `Http(code, None)`. */
  datatype Reply = Lost | Http(code: int, ack: Option<Ack>)

  datatype Target = Fresh(epoch: int, revision: Option<int>, draft: Draft) | Reuse(key: Key)

  /** `accepts` is the master's request schema. */
  datatype Config = Config(slug: string, digestOf: (Draft, Key) -> string, accepts: Payload -> bool)

  type Snaps = map<Key, Snap>

  predicate Settled(s: PushStatus) {
    s.Acked? || s.Sim?
  }

  predicate Matches(a: Ack, p: Payload) {
    a.accepted && a.slug == p.slug && a.key == p.key && a.digest == p.digest && a.snapshotId != ""
  }

  function RowOf(snaps: Snaps, k: Key): Option<Snap> {
    if k in snaps then Some(snaps[k]) else None
  }

  // ----- phase 1: resolve or store the snapshot

  /** One past the highest revision of the epoch; 1 for a new epoch. */
  ghost predicate IsNextRevision(snaps: Snaps, epoch: int, r: int) {
    && (forall k :: k in snaps && k.epoch == epoch ==> k.revision < r)
    && ((r == 1 && forall k :: k in snaps ==> k.epoch != epoch) || Key(epoch, r - 1) in snaps)
  }

  predicate Inverted(d: Draft) { d.expires <= d.computed }

  /** Stored windows are cut to whole seconds. */
  function Whole(d: Draft): Draft {
    d.(computed := d.computed.Floor as real, expires := d.expires.Floor as real)
  }

  function Body(k: Key, d: Draft, cfg: Config): Payload {
    Payload(cfg.slug, k, Whole(d), cfg.digestOf(Whole(d), k))
  }

  datatype Prepared =
    | NoSnapshot | BadWindow | EmptyWeights | SchemaError
    | AlreadyAcked(of: Payload) | ToPost(body: Payload)

  /** What a pusher does after it has read the row: stop, mark its window invalid, send its body, or store a new one. */
  datatype Decision = Stop(out: Prepared) | Void | Send(body: Payload) | Store(body: Payload)

  /** A stored snapshot that may still be sent again although its window has passed. */
  predicate Retryable(s: PushStatus) {
    s.Pending? || s.Failed? || s.Rejected?
  }

  function OnReuse(row: Option<Snap>, now: real): Decision {
    if row.None? then Stop(NoSnapshot)
    else
      var s := row.value;
      if Inverted(s.payload.draft) || (!Retryable(s.status) && s.payload.draft.expires <= now) then
        if Settled(s.status) then Stop(BadWindow) else Void
      else if Settled(s.status) then Stop(AlreadyAcked(s.payload))
      else Send(s.payload)
  }

  function OnFresh(row: Option<Snap>, k: Key, d: Draft, cfg: Config, now: real): Decision {
    if Inverted(d) || d.expires <= now then Stop(BadWindow)
    else if d.weights == map[] then Stop(EmptyWeights)
    else if row.Some? then
      if Settled(row.value.status) then Stop(AlreadyAcked(row.value.payload)) else Send(row.value.payload)
    else if !cfg.accepts(Body(k, d, cfg)) then Stop(SchemaError)
    else Store(Body(k, d, cfg))
  }

  /** `next` is the revision the epoch query answered; it is used only when the caller named none. */
  function KeyOf(t: Target, next: int): Key {
    match t
    case Reuse(k) => k
    case Fresh(epoch, revision, _) => Key(epoch, revision.GetOr(next))
  }

  function Decide(row: Option<Snap>, t: Target, next: int, cfg: Config, now: real): Decision {
    match t
    case Reuse(k) => OnReuse(row, now)
    case Fresh(_, _, d) => OnFresh(row, KeyOf(t, next), d, cfg, now)
  }

  function Prepare(snaps: Snaps, t: Target, next: int, cfg: Config, now: real): (Snaps, Prepared) {
    var k := KeyOf(t, next);
    match Decide(RowOf(snaps, k), t, next, cfg, now)
    case Stop(out) => (snaps, out)
    case Void => (if k in snaps then snaps[k := snaps[k].(status := InvalidWindow)] else snaps, BadWindow)
    case Send(p) => (snaps, ToPost(p))
    case Store(p) => (snaps[k := Snap(p, Pending, None)], ToPost(p))
  }

  // ----- phase 3: record the reply

  datatype Recorded =
    | TransportError | HttpRefused | Malformed | Mismatch | SnapshotGone
    | Acknowledged(cursorAdvanced: bool)

  /** What a pusher does after it has read the row: nothing, or write a status (and the master's id). */
  datatype Verdict = Leave(out: Recorded) | Mark(to: PushStatus, id: Option<string>, out: Recorded)

  function OnReply(row: Option<Snap>, p: Payload, r: Reply): Verdict {
    match r
    case Lost =>
      if row.Some? && row.value.status.Pending? then Mark(Failed, None, TransportError) else Leave(TransportError)
    case Http(code, ack) =>
      if code != 200 && code != 201 then
        if row.Some? && row.value.status.Pending? then Mark(Rejected, None, HttpRefused) else Leave(HttpRefused)
      else if ack.None? then Leave(Malformed)
      else if !Matches(ack.value, p) then Leave(Mismatch)
      else if row.None? then Leave(SnapshotGone)
      else Mark(Acked, Some(ack.value.snapshotId), Acknowledged(!Settled(row.value.status)))
  }

  /** The session writes the columns whose value differs from the one it read, whatever they hold by then. */
  function Written(current: Snap, seen: Snap, to: PushStatus, id: Option<string>): Snap {
    current.(status := Column(current.status, seen.status, to),
             masterId := if id.None? then current.masterId else Column(current.masterId, seen.masterId, id))
  }

  function Record(snaps: Snaps, p: Payload, r: Reply): (Snaps, Recorded) {
    match OnReply(RowOf(snaps, p.key), p, r)
    case Leave(out) => (snaps, out)
    case Mark(to, id, out) =>
      (if p.key in snaps then snaps[p.key := Written(snaps[p.key], snaps[p.key], to, id)] else snaps, out)
  }

  // ----- which replies count

  /** The master accepted exactly this snapshot, and gave it an id. */
  ghost predicate Names(a: Ack, p: Payload) {
    && a.accepted && a.snapshotId != "" && a.slug == p.slug && a.digest == p.digest
    && a.key.epoch == p.key.epoch && a.key.revision == p.key.revision
  }

  lemma MatchesNames(a: Ack, p: Payload)
    ensures Matches(a, p) <==> Names(a, p)
  {
  }

  /**
   Every reply and what it leaves: the row is acknowledged, under the master's id, exactly by a 200 or 201 whose
   parsed answer names this very snapshot; anything else marks a pending row at most.
   */
  lemma RecordOutcomes(snaps: Snaps, p: Payload, reply: Reply)
    ensures var (r, out) := Record(snaps, p, reply);
            var ok := reply.Http? && (reply.code == 200 || reply.code == 201);
            var named := ok && reply.ack.Some? && Names(reply.ack.value, p);
            var pending := p.key in snaps && snaps[p.key].status.Pending?;
            && (out == TransportError <==> reply.Lost?)
            && (out == HttpRefused <==> reply.Http? && !ok)
            && (out == Malformed <==> ok && reply.ack.None?)
            && (out == Mismatch <==> ok && reply.ack.Some? && !named)
            && (out == SnapshotGone <==> named && p.key !in snaps)
            && (out.Acknowledged? <==> named && p.key in snaps)
            && (out.Acknowledged? ==>
                  && r == snaps[p.key := Snap(snaps[p.key].payload, Acked, Some(reply.ack.value.snapshotId))]
                  && (out.cursorAdvanced <==> !snaps[p.key].status.Acked? && !snaps[p.key].status.Sim?))
            && (reply.Lost? && pending ==> r == snaps[p.key := snaps[p.key].(status := Failed)])
            && (out == HttpRefused && pending ==> r == snaps[p.key := snaps[p.key].(status := Rejected)])
            && (!out.Acknowledged? && !(pending && (reply.Lost? || out == HttpRefused)) ==> r == snaps)
  {
  }

  // ----- which snapshots are sent

  /** A stored snapshot is sent again, left as acknowledged, or found to have a window that nothing can save. */
  lemma ReuseOutcomes(snaps: Snaps, k: Key, next: int, cfg: Config, now: real)
    ensures var (r, out) := Prepare(snaps, Reuse(k), next, cfg, now);
            if k !in snaps then r == snaps && out == NoSnapshot
            else
              var row := snaps[k];
              var d := row.payload.draft;
              var settled := row.status.Acked? || row.status.Sim?;
              var lasting := row.status.Pending? || row.status.Failed? || row.status.Rejected?;
              var bad := d.expires <= d.computed || (!lasting && d.expires <= now);
              && out == (if bad then BadWindow else if settled then AlreadyAcked(row.payload) else ToPost(row.payload))
              && r == if bad && !settled then snaps[k := Snap(row.payload, InvalidWindow, row.masterId)] else snaps
  {
  }

  /** A new snapshot is stored as pending, whole seconds and digest and all; an existing one is never overwritten. */
  lemma FreshOutcomes(snaps: Snaps, epoch: int, revision: Option<int>, d: Draft, next: int, cfg: Config, now: real)
    ensures var (r, out) := Prepare(snaps, Fresh(epoch, revision, d), next, cfg, now);
            var k := Key(epoch, if revision.Some? then revision.value else next);
            var cut := Draft(d.weights, d.computed.Floor as real, d.expires.Floor as real, d.nonce);
            var body := Payload(cfg.slug, k, cut, cfg.digestOf(cut, k));
            var open := d.expires > d.computed && d.expires > now;
            && (!open ==> out == BadWindow && r == snaps)
            && (open && d.weights == map[] ==> out == EmptyWeights && r == snaps)
            && (open && d.weights != map[] && k in snaps ==>
                  && r == snaps
                  && out == if snaps[k].status.Acked? || snaps[k].status.Sim? then AlreadyAcked(snaps[k].payload)
                            else ToPost(snaps[k].payload))
            && (open && d.weights != map[] && k !in snaps && !cfg.accepts(body) ==> out == SchemaError && r == snaps)
            && (open && d.weights != map[] && k !in snaps && cfg.accepts(body) ==>
                  out == ToPost(body) && r == snaps[k := Snap(body, Pending, None)])
  {
  }

  // ----- what one session keeps

  /** The body is the one stored for its key. */
  ghost predicate IsStored(snaps: Snaps, p: Payload) {
    p.key in snaps && snaps[p.key].payload == p
  }

  ghost predicate RowsOk(snaps: Snaps) {
    forall k :: k in snaps ==> snaps[k].payload.key == k && snaps[k].payload.draft.weights != map[]
  }

  /** What no session alone undoes: a stored body, an acknowledgement, a settled snapshot. */
  ghost predicate Keeps(a: Snaps, b: Snaps) {
    forall k :: k in a ==>
      && k in b && b[k].payload == a[k].payload
      && (a[k].status.Acked? ==> b[k].status.Acked?) && (Settled(a[k].status) ==> Settled(b[k].status))
  }

  lemma PrepareKeeps(snaps: Snaps, t: Target, next: int, cfg: Config, now: real)
    requires RowsOk(snaps)
    ensures var (r, out) := Prepare(snaps, t, next, cfg, now);
            && Keeps(snaps, r) && RowsOk(r)
            && (out.ToPost? ==> IsStored(r, out.body))
            && (forall k :: k in r && r[k].status.Acked? ==> k in snaps && r[k] == snaps[k])
  {
  }

  lemma RecordKeeps(snaps: Snaps, p: Payload, reply: Reply)
    requires RowsOk(snaps) && IsStored(snaps, p)
    ensures var (r, out) := Record(snaps, p, reply);
            && Keeps(snaps, r) && RowsOk(r)
            && (out.Acknowledged? ==>
                  reply.Http? && reply.ack.Some? && Names(reply.ack.value, p) && Settled(r[p.key].status))
            && (out.Acknowledged? && out.cursorAdvanced ==> !Settled(snaps[p.key].status))
            && (forall k :: k in r && r[k].status.Acked? ==>
                  (k in snaps && r[k] == snaps[k]) || (k == p.key && out.Acknowledged?))
  {
  }

  /**
   A push that was not acknowledged can be repeated at any later time, even after its window, and sends the very
   same body; an acknowledged one is never sent again. Only a pending row is marked, and no other row is touched.
   */
  lemma RetrySendsSameBody(snaps: Snaps, p: Payload, reply: Reply, next: int, cfg: Config, later: real)
    requires IsStored(snaps, p) && Retryable(snaps[p.key].status) && !Inverted(p.draft)
    ensures var (r, out) := Record(snaps, p, reply);
            && Prepare(r, Reuse(p.key), next, cfg, later).1.ToPost? == !out.Acknowledged?
            && (!out.Acknowledged? ==> Prepare(r, Reuse(p.key), next, cfg, later) == (r, ToPost(p)))
            && r.Keys == snaps.Keys && (forall k :: k in snaps && k != p.key ==> r[k] == snaps[k])
            && (!out.Acknowledged? ==>
                  r[p.key].status == if !snaps[p.key].status.Pending? then snaps[p.key].status
                                     else if reply.Lost? then Failed
                                     else if out.HttpRefused? then Rejected else Pending)
  {
  }

  /**
   A window that passed the check is stored as one that can never be retried exactly when it begins and ends
   within the same second.
   */
  lemma StoredWindowInvertedIff(d: Draft)
    requires !Inverted(d)
    ensures Inverted(Whole(d)) <==> d.computed.Floor == d.expires.Floor
  {
  }
}
