/**
 Replay protection of signed requests: a skew window on the timestamp and a pruned table of used nonces.
 Clocks are real numbers; the skew check sees whole seconds.
 */
module NonceAuth {
  import opened Common

  const NONCE_TTL := 86400

  datatype Key = Key(hotkey: string, nonce: string)

  /** `checked`, `stamped` and `pruned` are the three clock readings of one request, in that order. */
  datatype Request = Request(key: Key, timestamp: int, signed: bool, checked: real, stamped: real, pruned: real)

  datatype Outcome = Accepted | Stale | BadSignature | Replayed

  type Table = map<Key, real>

  function Gap(a: int, b: int): int { if a < b then b - a else a - b }

  function Unexpired(t: Table, now: real): (r: Table)
    ensures forall k :: k in r <==> k in t && t[k] >= now
    ensures forall k :: k in r ==> r[k] == t[k]
  {
    map k | k in t && t[k] >= now :: t[k]
  }

  /** A refused insert rolls the prune back with it. */
  function Authenticate(t: Table, r: Request, ttl: nat): (Table, Outcome) {
    if Gap(r.checked.Floor, r.timestamp) > ttl then (t, Stale)
    else if !r.signed then (t, BadSignature)
    else
      var live := Unexpired(t, r.pruned);
      if r.key in live then (t, Replayed)
      else (live[r.key := r.stamped + NONCE_TTL as real], Accepted)
  }

  // ----- one request

  /** The timestamp is at most `ttl` seconds from the whole second of the first clock reading. */
  ghost predicate InWindow(r: Request, ttl: nat) {
    r.checked.Floor - ttl <= r.timestamp <= r.checked.Floor + ttl
  }

  /**
   A request is accepted exactly if it is signed, fresh, and its nonce is not held by the hotkey at the prune; then its
   nonce is held for a day and the expired ones are gone. Any other outcome leaves the table as it was.
   */
  lemma AcceptedIff(t: Table, r: Request, ttl: nat)
    ensures var (t', outcome) := Authenticate(t, r, ttl);
            var held := r.key in t && t[r.key] >= r.pruned;
            && (outcome.Stale? <==> !InWindow(r, ttl))
            && (outcome.BadSignature? <==> InWindow(r, ttl) && !r.signed)
            && (outcome.Replayed? <==> InWindow(r, ttl) && r.signed && held)
            && (outcome.Accepted? <==> InWindow(r, ttl) && r.signed && !held)
            && (!outcome.Accepted? ==> t' == t)
            && (outcome.Accepted? ==>
                  && t'.Keys == (set k | k in t && t[k] >= r.pruned) + {r.key} && t'[r.key] == r.stamped + 86400.0
                  && forall k :: k in t' && k != r.key ==> t'[k] == t[k])
  {
  }

  // ----- runs

  /** The accepted requests, in order. */
  function Accepts(t: Table, rs: seq<Request>, ttl: nat): seq<Request>
    decreases |rs|
  {
    if rs == [] then []
    else
      var (t', outcome) := Authenticate(t, rs[0], ttl);
      (if outcome.Accepted? then [rs[0]] else []) + Accepts(t', rs[1..], ttl)
  }

  /** Nobody is let in without a signature and a fresh timestamp, in any run. */
  lemma {:induction false} AcceptedAreGenuine(t: Table, rs: seq<Request>, ttl: nat)
    ensures forall r :: r in Accepts(t, rs, ttl) ==> r in rs && r.signed && InWindow(r, ttl)
    decreases |rs|
  {
    if rs != [] {
      AcceptedIff(t, rs[0], ttl);
      AcceptedAreGenuine(Authenticate(t, rs[0], ttl).0, rs[1..], ttl);
    }
  }

  /** Clock readings in order within a request, at most `delay` apart, and prunes in commit order. */
  ghost predicate Timely(rs: seq<Request>, delay: real) {
    && (forall i :: 0 <= i < |rs| ==> rs[i].checked <= rs[i].stamped <= rs[i].pruned <= rs[i].checked + delay)
    && (forall i, j :: 0 <= i < j < |rs| ==> rs[i].pruned <= rs[j].pruned)
  }

  predicate SameToken(a: Request, b: Request) {
    a.key == b.key && a.timestamp == b.timestamp
  }

  /** No signed (hotkey, nonce, timestamp) is accepted twice in any timely run. */
  ghost predicate AtMostOnce(ttl: nat, delay: real) {
    forall rs, i, j {:trigger Accepts(map[], rs, ttl)[i], Accepts(map[], rs, ttl)[j]} ::
      Timely(rs, delay) && 0 <= i < j < |Accepts(map[], rs, ttl)| ==>
        !SameToken(Accepts(map[], rs, ttl)[i], Accepts(map[], rs, ttl)[j])
  }

  /** A past accept is still in the table, or was pruned only after its nonce lifetime. */
  ghost predicate Remembers(t: Table, past: Request, latest: real) {
    || (past.key in t && t[past.key] >= past.checked + NONCE_TTL as real)
    || latest > past.checked + NONCE_TTL as real
  }

  ghost predicate Fresh(r: Request, ttl: nat) {
    Gap(r.checked.Floor, r.timestamp) <= ttl
  }

  lemma SecondAcceptImpossible(t: Table, past: Request, r: Request, ttl: nat, delay: real, latest: real)
    requires 2.0 * ttl as real + 1.0 + delay <= NONCE_TTL as real
    requires Fresh(past, ttl) && Remembers(t, past, latest) && latest <= r.pruned <= r.checked + delay
    requires SameToken(past, r)
    ensures !Authenticate(t, r, ttl).1.Accepted?
  {
  }

  lemma AcceptKeepsMemory(t: Table, past: Request, r: Request, ttl: nat, latest: real)
    requires Remembers(t, past, latest) && latest <= r.pruned
    ensures Remembers(Authenticate(t, r, ttl).0, past, r.pruned)
  {
  }

  lemma TailIsTimely(rs: seq<Request>, delay: real)
    requires rs != [] && Timely(rs, delay)
    ensures Timely(rs[1..], delay)
    ensures forall i :: 0 <= i < |rs[1..]| ==> rs[0].pruned <= rs[1..][i].pruned
  {
  }

  /** Nothing accepted later in the run repeats a token that is already remembered. */
  lemma {:induction false} RememberedNeverRepeats(t: Table, past: Request, rs: seq<Request>, ttl: nat, delay: real,
                                                  latest: real)
    requires 2.0 * ttl as real + 1.0 + delay <= NONCE_TTL as real
    requires Timely(rs, delay) && (forall i :: 0 <= i < |rs| ==> latest <= rs[i].pruned)
    requires Fresh(past, ttl) && Remembers(t, past, latest)
    ensures forall j :: 0 <= j < |Accepts(t, rs, ttl)| ==> !SameToken(past, Accepts(t, rs, ttl)[j])
    decreases |rs|
  {
    if rs != [] {
      var (t', outcome) := Authenticate(t, rs[0], ttl);
      if SameToken(past, rs[0]) {
        SecondAcceptImpossible(t, past, rs[0], ttl, delay, latest);
      }
      AcceptKeepsMemory(t, past, rs[0], ttl, latest);
      TailIsTimely(rs, delay);
      RememberedNeverRepeats(t', past, rs[1..], ttl, delay, rs[0].pruned);
    }
  }

  lemma {:induction false} NoTokenTwice(t: Table, rs: seq<Request>, ttl: nat, delay: real)
    requires 2.0 * ttl as real + 1.0 + delay <= NONCE_TTL as real && Timely(rs, delay)
    ensures forall i, j :: 0 <= i < j < |Accepts(t, rs, ttl)| ==>
              !SameToken(Accepts(t, rs, ttl)[i], Accepts(t, rs, ttl)[j])
    decreases |rs|
  {
    if rs != [] {
      var (t', outcome) := Authenticate(t, rs[0], ttl);
      TailIsTimely(rs, delay);
      NoTokenTwice(t', rs[1..], ttl, delay);
      if outcome.Accepted? {
        RememberedNeverRepeats(t', rs[0], rs[1..], ttl, delay, rs[0].pruned);
      }
    }
  }

  /** When the nonce is forgotten too soon: the same token, accepted twice. */
  lemma ForgottenTooSoon(ttl: nat, delay: real) returns (rs: seq<Request>)
    requires delay >= 0.0 && 2.0 * ttl as real + 1.0 + delay > NONCE_TTL as real
    ensures Timely(rs, delay) && |rs| == 2 && SameToken(rs[0], rs[1]) && Accepts(map[], rs, ttl) == rs
  {
    var slack := (2.0 * ttl as real + 1.0 + delay - NONCE_TTL as real) / 2.0;
    var d := if slack < 1.0 then slack else 1.0;
    var late := 2.0 * ttl as real + 1.0 - d;
    assert late.Floor == 2 * ttl;
    var k := Key("hk", "n");
    var a := Request(k, ttl, true, 0.0, 0.0, 0.0);
    var b := Request(k, ttl, true, late, late, late + delay);
    rs := [a, b];
    var t := map[k := NONCE_TTL as real];
    assert Authenticate(map[], a, ttl) == (t, Accepted);
    assert Authenticate(t, b, ttl).1 == Accepted;
    assert rs[1..] == [b] && rs[1..][1..] == [];
    assert Accepts(t, [b], ttl) == [b];
  }

  /**
   Replay protection holds in every run exactly when twice the skew window, plus the second lost to
   whole-second clocks, plus the time a request may take, fits in the nonce lifetime.
   */
  lemma AtMostOnceIff(ttl: nat, delay: real)
    requires delay >= 0.0
    ensures AtMostOnce(ttl, delay) <==> 2.0 * ttl as real + 1.0 + delay <= NONCE_TTL as real
  {
    if 2.0 * ttl as real + 1.0 + delay <= NONCE_TTL as real {
      forall rs | Timely(rs, delay)
        ensures forall i, j :: 0 <= i < j < |Accepts(map[], rs, ttl)| ==>
                  !SameToken(Accepts(map[], rs, ttl)[i], Accepts(map[], rs, ttl)[j])
      {
        NoTokenTwice(map[], rs, ttl, delay);
      }
    } else {
      var rs := ForgottenTooSoon(ttl, delay);
      var acc := Accepts(map[], rs, ttl);
      assert SameToken(acc[0], acc[1]);
    }
  }

  class NonceTable {
    const ttl: nat
    var rows: Table

    constructor (ttl: nat)
      ensures rows == map[] && this.ttl == ttl
    {
      this.ttl := ttl;
      rows := map[];
    }

    method AuthenticateMiner(r: Request) returns (outcome: Outcome)
      modifies this
      ensures (rows, outcome) == Authenticate(old(rows), r, ttl)
    {
      var now := r.checked.Floor;
      if Gap(now, r.timestamp) > ttl {
        return Stale;
      }
      if !r.signed {
        return BadSignature;
      }
      var before := rows;
      rows := Unexpired(rows, r.pruned);
      if r.key in rows {
        rows := before;
        return Replayed;
      }
      rows := rows[r.key := r.stamped + NONCE_TTL as real];
      return Accepted;
    }
  }
}
