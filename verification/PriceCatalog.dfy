/** The GPU price catalog and its append-only history. */
module PriceCatalog {
  import opened Common
  import opened RealMaps

  datatype Price = Price(family: string, perHour: real, currency: string, active: bool, effective: Time)

  datatype Change = Change(key: string, price: Price)

  datatype Books = Books(rows: map<string, Price>, history: seq<Change>)

  /** `price` is None when missing, not a number or not finite; `family` is the derived, never empty, family. */
  datatype Upsert = Upsert(key: string, price: Option<real>, currency: Option<string>, active: Option<bool>,
      family: string)

  function Fault(u: Upsert): (code: Option<string>)
    ensures code.None? <==> u.key != "" && u.price.Some? && u.price.value > 0.0
                            && (u.currency.Some? && u.currency.value != "" ==> u.currency.value == "USD")
  {
    if u.key == "" then Some("model_key_required")
    else if u.price.None? || u.price.value <= 0.0 then Some("invalid_price")
    else if u.currency.Some? && u.currency.value != "" && u.currency.value != "USD" then Some("invalid_currency")
    else None
  }

  function Write(b: Books, key: string, p: Price): Books {
    Books(b.rows[key := p], b.history + [Change(key, p)])
  }

  /** Create or overwrite a row; effective from now. */
  function UpsertPrice(b: Books, u: Upsert, now: Time): (Books, Option<string>) {
    if Fault(u).Some? then (b, Fault(u))
    else (Write(b, u.key, Price(u.family, u.price.GetOr(0.0), "USD", u.active.GetOr(true), now)), None)
  }

  /** Switch a row off; price and effective date stay. */
  function DisablePrice(b: Books, key: string): (Books, Option<string>) {
    if key == "" then (b, Some("model_key_required"))
    else if key !in b.rows then (b, Some("catalog_not_found"))
    else (Write(b, key, b.rows[key].(active := false)), None)
  }

  function SeedEntry(u: Upsert): Upsert {
    u.(currency := Some("USD"), active := Some(true))
  }

  /** Entries without a key are skipped; a bad price aborts. */
  function SeedAll(b: Books, ladder: seq<Upsert>, now: Time): (Books, Option<string>)
    decreases |ladder|
  {
    if ladder == [] then (b, None)
    else if ladder[0].key == "" then SeedAll(b, ladder[1..], now)
    else
      var (b', fault) := UpsertPrice(b, SeedEntry(ladder[0]), now);
      if fault.Some? then (b', fault) else SeedAll(b', ladder[1..], now)
  }

  /** An aborted seed is rolled back. */
  function Seed(b: Books, ladder: seq<Upsert>, onlyIfEmpty: bool, now: Time): (Books, Option<string>) {
    if ladder == [] || (onlyIfEmpty && b.rows != map[]) then (b, None)
    else
      var (b', fault) := SeedAll(b, ladder, now);
      if fault.Some? then (b, fault) else (b', None)
  }

  // ----- what a write leaves

  /** An admissible upsert sets every column of its key's row and appends the same to the history. */
  lemma UpsertWrites(b: Books, u: Upsert, now: Time)
    ensures var (b', fault) := UpsertPrice(b, u, now);
            && (fault == Some("model_key_required") <==> u.key == "")
            && (fault == Some("invalid_price") <==> u.key != "" && (u.price.None? || u.price.value <= 0.0))
            && (fault.Some? ==> b' == b)
            && (fault.None? ==>
                  && u.price.Some?
                  && var p := Price(family := u.family, perHour := u.price.value, currency := "USD",
                                    active := u.active != Some(false), effective := now);
                     b' == Books(b.rows[u.key := p], b.history + [Change(u.key, p)]))
  {
  }

  /** Disabling changes nothing but the flag, and appends the row as it then is. */
  lemma DisableWrites(b: Books, key: string)
    ensures var (b', fault) := DisablePrice(b, key);
            && (fault == Some("model_key_required") <==> key == "")
            && (fault == Some("catalog_not_found") <==> key != "" && key !in b.rows)
            && (fault.None? <==> key != "" && key in b.rows)
            && (fault.Some? ==> b' == b)
            && (fault.None? && key in b.rows ==>
                  var row := b.rows[key];
                  var off := Price(row.family, row.perHour, row.currency, false, row.effective);
                  b' == Books(b.rows[key := off], b.history + [Change(key, off)]))
  {
  }

  /** The changes a ladder asks for: one for each named entry, active, in dollars. */
  ghost function LadderChanges(ladder: seq<Upsert>, now: Time): seq<Change> {
    if ladder == [] then []
    else
      var u := ladder[0];
      (if u.key == "" then []
       else [Change(u.key, Price(u.family, u.price.GetOr(0.0), "USD", true, now))]) + LadderChanges(ladder[1..], now)
  }

  ghost predicate Payable(ladder: seq<Upsert>) {
    forall u :: u in ladder && u.key != "" ==> u.price.Some? && u.price.value > 0.0
  }

  lemma {:induction false} SeedAllWrites(b: Books, ladder: seq<Upsert>, now: Time)
    ensures SeedAll(b, ladder, now).1.None? <==> Payable(ladder)
    ensures SeedAll(b, ladder, now).1 in {None, Some("invalid_price")}
    ensures Payable(ladder) ==> SeedAll(b, ladder, now).0.history == b.history + LadderChanges(ladder, now)
    decreases |ladder|
  {
    if ladder != [] {
      assert ladder == [ladder[0]] + ladder[1..];
      assert Payable(ladder) <==>
             Payable(ladder[1..]) && (ladder[0].key != "" ==> ladder[0].price.Some? && ladder[0].price.value > 0.0);
      hide Payable;
      if ladder[0].key == "" {
        SeedAllWrites(b, ladder[1..], now);
      } else {
        SeedAllWrites(UpsertPrice(b, SeedEntry(ladder[0]), now).0, ladder[1..], now);
      }
    }
  }

  /** A seed appends exactly the ladder's changes, or, on a bad price or where it is not wanted, does nothing. */
  lemma SeedWrites(b: Books, ladder: seq<Upsert>, onlyIfEmpty: bool, now: Time)
    ensures var (b', fault) := Seed(b, ladder, onlyIfEmpty, now);
            var wanted := ladder != [] && !(onlyIfEmpty && b.rows != map[]);
            && (!wanted ==> b' == b && fault.None?)
            && (wanted && Payable(ladder) ==> fault.None? && b'.history == b.history + LadderChanges(ladder, now))
            && (wanted && !Payable(ladder) ==> b' == b && fault == Some("invalid_price"))
  {
    hide SeedAll, LadderChanges;
    SeedAllWrites(b, ladder, now);
  }

  // ----- the history is the catalog

  /** Fold the history from the beginning. */
  function Replay(history: seq<Change>): map<string, Price> {
    if history == [] then map[]
    else Replay(history[..|history| - 1])[history[|history| - 1].key := history[|history| - 1].price]
  }

  ghost predicate Faithful(b: Books) {
    b.rows == Replay(b.history)
  }

  lemma WriteStaysFaithful(b: Books, key: string, p: Price)
    requires Faithful(b)
    ensures Faithful(Write(b, key, p)) && b.history <= Write(b, key, p).history
  {
  }

  lemma {:induction false} SeedStaysFaithful(b: Books, ladder: seq<Upsert>, now: Time)
    requires Faithful(b)
    ensures Faithful(SeedAll(b, ladder, now).0) && b.history <= SeedAll(b, ladder, now).0.history
    decreases |ladder|
  {
    if ladder != [] {
      if ladder[0].key == "" {
        SeedStaysFaithful(b, ladder[1..], now);
      } else {
        var u := SeedEntry(ladder[0]);
        WriteStaysFaithful(b, u.key, Price(u.family, u.price.GetOr(0.0), "USD", true, now));
        SeedStaysFaithful(UpsertPrice(b, u, now).0, ladder[1..], now);
      }
    }
  }

  /** The last change of a key says what its row is; a key without a change has no row. */
  lemma {:induction false} ReplayIsLastChange(history: seq<Change>, key: string, i: nat)
    requires i < |history| && history[i].key == key && forall j :: i < j < |history| ==> history[j].key != key
    ensures key in Replay(history) && Replay(history)[key] == history[i].price
    decreases |history|
  {
    if i < |history| - 1 {
      ReplayIsLastChange(history[..|history| - 1], key, i);
    }
  }

  lemma {:induction false} ReplayKeys(history: seq<Change>, key: string)
    ensures key in Replay(history) <==> exists i :: 0 <= i < |history| && history[i].key == key
    decreases |history|
  {
    if history != [] {
      var init := history[..|history| - 1];
      ReplayKeys(init, key);
      assert forall i :: 0 <= i < |init| ==> init[i] == history[i];
    }
  }

  datatype Op = DoUpsert(upsert: Upsert, at: Time) | DoDisable(key: string)
      | DoSeed(ladder: seq<Upsert>, ifEmpty: bool, now: Time)

  function Commit(b: Books, op: Op): Books {
    match op
    case DoUpsert(u, now) => UpsertPrice(b, u, now).0
    case DoDisable(key) => DisablePrice(b, key).0
    case DoSeed(ladder, ifEmpty, now) => Seed(b, ladder, ifEmpty, now).0
  }

  function Run(b: Books, ops: seq<Op>): Books
    decreases |ops|
  {
    if ops == [] then b else Run(Commit(b, ops[0]), ops[1..])
  }

  /** A run is its sessions in order. */
  lemma {:induction false} RunIsInOrder(b: Books, ops: seq<Op>, next: Op)
    ensures Run(b, ops + [next]) == Commit(Run(b, ops), next) && Run(b, []) == b
    decreases |ops|
  {
    hide Commit;
    if ops == [] {
      assert ops + [next] == [next] && [next][1..] == [];
    } else {
      assert (ops + [next])[0] == ops[0] && (ops + [next])[1..] == ops[1..] + [next];
      RunIsInOrder(Commit(b, ops[0]), ops[1..], next);
    }
  }

  lemma CommitStaysFaithful(b: Books, op: Op)
    requires Faithful(b)
    ensures Faithful(Commit(b, op)) && b.history <= Commit(b, op).history
  {
    match op
    case DoUpsert(u, now) =>
      WriteStaysFaithful(b, u.key, Price(u.family, u.price.GetOr(0.0), "USD", u.active.GetOr(true), now));
    case DoDisable(key) =>
      if key in b.rows {
        WriteStaysFaithful(b, key, b.rows[key].(active := false));
      }
    case DoSeed(ladder, _, now) => SeedStaysFaithful(b, ladder, now);
  }

  /** After any run the catalog is the replay of its history, and the history only ever grew at the end. */
  lemma {:induction false} RunStaysFaithful(b: Books, ops: seq<Op>)
    requires Faithful(b)
    ensures Faithful(Run(b, ops)) && b.history <= Run(b, ops).history
    decreases |ops|
  {
    hide Commit, Faithful;
    if ops != [] {
      CommitStaysFaithful(b, ops[0]);
      RunStaysFaithful(Commit(b, ops[0]), ops[1..]);
    }
  }

  /** A key once in the catalog never leaves it. */
  lemma KeysNeverLeave(b: Books, ops: seq<Op>, key: string)
    requires Faithful(b) && key in b.rows
    ensures key in Run(b, ops).rows
  {
    RunStaysFaithful(b, ops);
    ReplayKeys(b.history, key);
    ReplayKeys(Run(b, ops).history, key);
    var i :| 0 <= i < |b.history| && b.history[i].key == key;
    assert Run(b, ops).history[i] == b.history[i];
  }

  // ----- resolving a price

  /** The query's order: newest first, then by key. */
  predicate Prefers(b: Books, a: string, c: string)
    requires a in b.rows && c in b.rows
  {
    b.rows[a].effective > b.rows[c].effective || (b.rows[a].effective == b.rows[c].effective && Less(a, c))
  }

  predicate Offers(b: Books, key: string, family: string) {
    key in b.rows && b.rows[key].active && b.rows[key].family == family
  }

  ghost predicate IsBest(b: Books, family: string, key: string) {
    Offers(b, key, family) && forall k :: Offers(b, k, family) && k != key ==> Prefers(b, key, k)
  }

  /** `family` is the normalised family of the request, None when nothing normalises. */
  ghost predicate Resolves(b: Books, key: string, family: Option<string>, r: Option<string>) {
    if key != "" && key in b.rows && b.rows[key].active then r == Some(key)
    else if family.None? then r == None
    else if r.Some? then IsBest(b, family.value, r.value)
    else forall k :: k in b.rows ==> !Offers(b, k, family.value)
  }

  /**
   An active row of the very key is the answer; else, of the active rows of the family, the one that took effect last,
   the first by name among equals; else nothing.
   */
  lemma ResolveIs(b: Books, key: string, family: Option<string>, r: Option<string>)
    requires Resolves(b, key, family, r)
    ensures key != "" && key in b.rows && b.rows[key].active ==> r == Some(key)
    ensures !(key != "" && key in b.rows && b.rows[key].active) ==>
              && (r.Some? ==>
                    && family.Some? && r.value in b.rows && b.rows[r.value].active
                    && b.rows[r.value].family == family.value
                    && forall k | k in b.rows && b.rows[k].active && b.rows[k].family == family.value && k != r.value ::
                         b.rows[r.value].effective > b.rows[k].effective
                         || (b.rows[r.value].effective == b.rows[k].effective && Less(r.value, k)))
              && (r.None? <==>
                    family.None? || forall k :: k in b.rows && b.rows[k].active ==> b.rows[k].family != family.value)
  {
    if family.Some? {
      forall k ensures Offers(b, k, family.value) <==>
                       k in b.rows && b.rows[k].active && b.rows[k].family == family.value
      {
      }
    }
  }

  /** The answer is never an inactive row, and there is only one. */
  lemma ResolveIsDetermined(b: Books, key: string, family: Option<string>, r: Option<string>, r': Option<string>)
    requires Resolves(b, key, family, r) && Resolves(b, key, family, r')
    ensures r == r' && (r.Some? ==> r.value in b.rows && b.rows[r.value].active)
  {
    if r.Some? && r'.Some? && r != r' {
      LessTotal(r.value, r'.value);
    }
  }

  /** An upserted active price is what its key resolves to; a disabled key is never an answer, for any request. */
  lemma ServedExactlyWhileActive(b: Books, u: Upsert, now: Time, key: string, family: Option<string>, r: Option<string>)
    ensures var (b', fault) := UpsertPrice(b, u, now);
            fault.None? && key == u.key && u.active.GetOr(true) && Resolves(b', key, family, r) ==>
              r == Some(key) && b'.rows[key].perHour == u.price.value && b'.rows[key].effective == now
    ensures var (b', fault) := DisablePrice(b, u.key);
            fault.None? && Resolves(b', key, family, r) ==>
              r != Some(u.key) && b'.rows[u.key].perHour == b.rows[u.key].perHour
              && b'.rows[u.key].effective == b.rows[u.key].effective
  {
  }

  /** The query's order is total, and whatever the newcomer beats the newcomer's betters beat too. */
  lemma PrefersOrder(b: Books, a: string, c: string)
    requires a in b.rows && c in b.rows && a != c
    ensures Prefers(b, a, c) || Prefers(b, c, a)
    ensures forall k :: k in b.rows && Prefers(b, a, c) && Prefers(b, c, k) ==> Prefers(b, a, k)
  {
    LessTotal(a, c);
    forall k | k in b.rows && Prefers(b, a, c) && Prefers(b, c, k) ensures Prefers(b, a, k)
    {
      if b.rows[a].effective == b.rows[k].effective {
        LessTransitive(a, c, k);
      }
    }
  }

  class CatalogStore {
    var rows: map<string, Price>
    var history: seq<Change>

    ghost function State(): Books
      reads this
    {
      Books(rows, history)
    }

    ghost predicate Valid()
      reads this
    {
      Faithful(State())
    }

    constructor ()
      ensures Valid() && State() == Books(map[], [])
    {
      rows, history := map[], [];
    }

    method UpsertCatalogPrice(u: Upsert, now: Time) returns (fault: Option<string>)
      requires Valid()
      modifies this
      ensures Valid() && (State(), fault) == UpsertPrice(old(State()), u, now)
    {
      CommitStaysFaithful(State(), DoUpsert(u, now));
      fault := Fault(u);
      if fault.Some? {
        return;
      }
      var p := Price(u.family, u.price.value, "USD", if u.active.Some? then u.active.value else true, now);
      if u.key in rows {
        var row := rows[u.key];
        row := row.(family := p.family, perHour := p.perHour, currency := p.currency);
        row := row.(active := p.active, effective := now);
        rows := rows[u.key := row];
      } else {
        rows := rows[u.key := p];
      }
      history := history + [Change(u.key, p)];
    }

    method DisableCatalogPrice(key: string) returns (fault: Option<string>)
      requires Valid()
      modifies this
      ensures Valid() && (State(), fault) == DisablePrice(old(State()), key)
    {
      CommitStaysFaithful(State(), DoDisable(key));
      if key == "" {
        return Some("model_key_required");
      }
      if key !in rows {
        return Some("catalog_not_found");
      }
      var row := rows[key].(active := false);
      rows := rows[key := row];
      history := history + [Change(key, row)];
      return None;
    }

    /** Exact active key first, else the newest active row of the family. */
    method ResolveCatalogPrice(key: string, family: Option<string>) returns (r: Option<string>)
      ensures Resolves(State(), key, family, r)
    {
      if key != "" && key in rows && rows[key].active {
        return Some(key);
      }
      r := None;
      if family.None? {
        return;
      }
      var todo := rows.Keys;
      while todo != {}
        invariant todo <= rows.Keys
        invariant r.Some? ==> Offers(State(), r.value, family.value) && r.value !in todo
        invariant forall k :: k in rows && k !in todo && Offers(State(), k, family.value) ==>
                    r.Some? && (k == r.value || Prefers(State(), r.value, k))
        decreases |todo|
      {
        var k :| k in todo;
        if rows[k].active && rows[k].family == family.value {
          if r.None? {
            r := Some(k);
          } else {
            PrefersOrder(State(), k, r.value);
            if rows[k].effective > rows[r.value].effective
               || (rows[k].effective == rows[r.value].effective && Less(k, r.value)) {
              r := Some(k);
            }
          }
        }
        todo := todo - {k};
      }
    }

    /** Counts the keys that were new and the entries that re-priced an existing key. */
    method SeedDefaultCatalog(ladder: seq<Upsert>, onlyIfEmpty: bool, now: Time)
      returns (inserted: nat, updated: nat, fault: Option<string>)
      requires Valid()
      modifies this
      ensures Valid() && (State(), fault) == Seed(old(State()), ladder, onlyIfEmpty, now)
      ensures fault.None? ==> |rows| == |old(rows)| + inserted && |history| == |old(history)| + inserted + updated
      ensures onlyIfEmpty && old(rows) != map[] ==> State() == old(State()) && inserted == updated == 0
    {
      hide SeedAll, Faithful, UpsertPrice;
      inserted, updated, fault := 0, 0, None;
      if ladder == [] || (onlyIfEmpty && rows != map[]) {
        return;
      }
      var rows0, history0 := rows, history;
      ghost var start := State();
      var i := 0;
      while i < |ladder|
        invariant i <= |ladder| && Valid() && fault.None?
        invariant SeedAll(State(), ladder[i..], now) == SeedAll(start, ladder, now)
        invariant |rows| == |rows0| + inserted && |history| == |history0| + inserted + updated
      {
        var u := SeedEntry(ladder[i]);
        SeedNext(State(), ladder, i, now);
        if u.key != "" {
          var prior := u.key in rows;
          UpsertGrows(State(), u, now);
          fault := UpsertCatalogPrice(u, now);
          if fault.Some? {
            rows, history := rows0, history0;
            return;
          }
          if prior {
            updated := updated + 1;
          } else {
            inserted := inserted + 1;
          }
        }
        i := i + 1;
      }
      SeedNothing(State(), ladder[i..], now);
    }
  }

  lemma SeedNothing(b: Books, ladder: seq<Upsert>, now: Time)
    requires ladder == []
    ensures SeedAll(b, ladder, now) == (b, None)
  {
  }

  lemma UpsertGrows(b: Books, u: Upsert, now: Time)
    ensures var (next, fault) := UpsertPrice(b, u, now);
            fault.None? ==>
              |next.rows| == |b.rows| + (if u.key in b.rows then 0 else 1) && |next.history| == |b.history| + 1
  {
    var (next, fault) := UpsertPrice(b, u, now);
    assert fault.None? ==> next.rows.Keys == b.rows.Keys + {u.key};
    assert forall m: map<string, Price> :: |m| == |m.Keys|;
  }

  /** The rest of a seed, by its next entry. */
  lemma SeedNext(b: Books, ladder: seq<Upsert>, i: nat, now: Time)
    requires i < |ladder|
    ensures ladder[i].key == "" ==> SeedAll(b, ladder[i..], now) == SeedAll(b, ladder[i + 1..], now)
    ensures ladder[i].key != "" ==>
              var (next, fault) := UpsertPrice(b, SeedEntry(ladder[i]), now);
              SeedAll(b, ladder[i..], now) == if fault.Some? then (next, fault) else SeedAll(next, ladder[i + 1..], now)
  {
    assert ladder[i..][0] == ladder[i] && ladder[i..][1..] == ladder[i + 1..];
  }
}
