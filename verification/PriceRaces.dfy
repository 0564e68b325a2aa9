/**
 Several administrators at the price catalog: an upsert or disable reads the row of its key, and later commits the
 columns it changed, without comparing, together with a history row that names every column. A first row of a key is
 guarded by the unique key.
 */
module PriceRaces {
  import opened Columns
  import opened Common
  import opened Sessions
  import opened PriceCatalog

  /** `seen` is the row as read, `next` what the session wants it to be. */
  datatype Pc = Idle | Putting(key: string, seen: Option<Price>, next: Price)

  datatype State = State(books: Books, sessions: seq<Pc>)

  datatype Step =
    | ReadForUpsert(session: nat, upsert: Upsert, now: Time)
    | ReadForDisable(session: nat, key: string)
    | Put(session: nat)
    | Seeding(session: nat, ladder: seq<Upsert>, ifEmpty: bool, now: Time)
    | Abandon(session: nat)

  function Merged(current: Price, seen: Price, next: Price): Price {
    Price(Column(current.family, seen.family, next.family), Column(current.perHour, seen.perHour, next.perHour),
          Column(current.currency, seen.currency, next.currency), Column(current.active, seen.active, next.active),
          Column(current.effective, seen.effective, next.effective))
  }

  /** The commit of a session; the second insert of a key fails. */
  function Written(b: Books, pc: Pc): Books
    requires pc.Putting?
  {
    if pc.seen.None? then if pc.key in b.rows then b else Write(b, pc.key, pc.next)
    else if pc.key !in b.rows then b
    else Books(b.rows[pc.key := Merged(b.rows[pc.key], pc.seen.value, pc.next)], b.history + [Change(pc.key, pc.next)])
  }

  function RowOf(b: Books, key: string): Option<Price> {
    if key in b.rows then Some(b.rows[key]) else None
  }

  function Do(s: State, step: Step): State {
    if step.session >= |s.sessions| then s
    else
      var i, pc := step.session, s.sessions[step.session];
      match step
      case ReadForUpsert(_, u, now) =>
        if !pc.Idle? || Fault(u).Some? then s
        else
          var next := Price(u.family, u.price.GetOr(0.0), "USD", u.active.GetOr(true), now);
          s.(sessions := s.sessions[i := Putting(u.key, RowOf(s.books, u.key), next)])
      case ReadForDisable(_, key) =>
        if !pc.Idle? || key == "" || key !in s.books.rows then s
        else
          var row := s.books.rows[key];
          s.(sessions := s.sessions[i := Putting(key, Some(row), row.(active := false))])
      case Put(_) =>
        if !pc.Putting? then s else State(Written(s.books, pc), s.sessions[i := Idle])
      case Seeding(_, ladder, ifEmpty, now) =>
        if !pc.Idle? then s else s.(books := Seed(s.books, ladder, ifEmpty, now).0)
      case Abandon(_) => s.(sessions := s.sessions[i := Idle])
  }

  function RunAll(s: State, steps: seq<Step>): State
    decreases |steps|
  {
    if steps == [] then s else RunAll(Do(s, steps[0]), steps[1..])
  }

  function Start(n: nat): State {
    State(Books(map[], []), Alike(n, Idle))
  }

  /** Without interleaving, reading and writing commit what the one-step session does. */
  lemma UninterruptedWrites(s: State, i: nat, u: Upsert, now: Time, key: string)
    requires i < |s.sessions| && s.sessions[i].Idle?
    ensures Do(Do(s, ReadForUpsert(i, u, now)), Put(i)) == s.(books := UpsertPrice(s.books, u, now).0)
    ensures Do(Do(s, ReadForDisable(i, key)), Put(i)) == s.(books := DisablePrice(s.books, key).0)
  {
    assert s.sessions[i := Idle] == s.sessions;
  }

  /** A seed runs in one piece; a session in the middle of a write reads nothing else; giving up writes nothing. */
  lemma OneWriteAtATime(s: State, i: nat, step: Step)
    requires i < |s.sessions| && step.session == i
    ensures s.sessions[i].Idle? && step.Seeding? ==>
              Do(s, step) == s.(books := Seed(s.books, step.ladder, step.ifEmpty, step.now).0)
    ensures s.sessions[i].Putting? && !step.Put? && !step.Abandon? ==> Do(s, step) == s
    ensures step.Abandon? ==> Do(s, step) == s.(sessions := s.sessions[i := Idle])
  {
  }

  /** The second of two sessions that found no row of a key leaves row and history of the first. */
  lemma SecondInsertFails(s: State, i: nat)
    requires i < |s.sessions| && s.sessions[i].Putting? && s.sessions[i].seen.None?
    requires s.sessions[i].key in s.books.rows
    ensures Do(s, Put(i)) == s.(sessions := s.sessions[i := Idle])
  {
  }

  // ----- one commit

  /** Every column the session leaves alone still has the value it read. */
  predicate Fits(b: Books, pc: Pc) {
    pc.Putting? && pc.seen.Some? && pc.key in b.rows ==>
      var now, seen, next := b.rows[pc.key], pc.seen.value, pc.next;
      && (next.family == seen.family ==> now.family == seen.family)
      && (next.perHour == seen.perHour ==> now.perHour == seen.perHour)
      && (next.currency == seen.currency ==> now.currency == seen.currency)
      && (next.active == seen.active ==> now.active == seen.active)
      && (next.effective == seen.effective ==> now.effective == seen.effective)
  }

  /** The catalog still is the replay of its history after a commit exactly if the commit fits. */
  lemma PutKeepsFaithfulIff(b: Books, pc: Pc)
    requires Faithful(b) && pc.Putting?
    ensures Faithful(Written(b, pc)) <==> Fits(b, pc)
  {
    var after := Written(b, pc);
    if after != b {
      assert after.history[..|after.history| - 1] == b.history;
      assert Replay(after.history) == b.rows[pc.key := pc.next];
      assert after.rows[pc.key] == pc.next <==> after.rows == b.rows[pc.key := pc.next];
    }
  }

  // ----- whole runs

  ghost predicate SafeStep(s: State, step: Step) {
    step.Put? && step.session < |s.sessions| ==> Fits(s.books, s.sessions[step.session])
  }

  ghost predicate Careful(s: State, steps: seq<Step>)
    decreases |steps|
  {
    steps != [] ==> SafeStep(s, steps[0]) && Careful(Do(s, steps[0]), steps[1..])
  }

  ghost predicate StaysFaithful(s: State, steps: seq<Step>)
    decreases |steps|
  {
    Faithful(s.books) && (steps != [] ==> StaysFaithful(Do(s, steps[0]), steps[1..]))
  }

  lemma StepKeepsFaithfulIff(s: State, step: Step)
    requires Faithful(s.books)
    ensures Faithful(Do(s, step).books) <==> SafeStep(s, step)
  {
    hide Faithful, Written, Fits, Seed, Fault;
    if step.session < |s.sessions| {
      match step
      case Put(i) =>
        if s.sessions[i].Putting? {
          PutKeepsFaithfulIff(s.books, s.sessions[i]);
        } else {
          IdleFits(s.books);
        }
      case Seeding(_, ladder, ifEmpty, now) => CommitStaysFaithful(s.books, DoSeed(ladder, ifEmpty, now));
      case _ =>
    }
  }

  lemma IdleFits(b: Books)
    ensures Fits(b, Idle)
  {
  }

  /** The catalog is the replay of its history at every moment of a run exactly if each commit fits the row it meets. */
  lemma {:induction false} StaysFaithfulIff(s: State, steps: seq<Step>)
    requires Faithful(s.books)
    ensures StaysFaithful(s, steps) <==> Careful(s, steps)
    decreases |steps|
  {
    hide Faithful, Do, SafeStep;
    if steps != [] {
      StepKeepsFaithfulIff(s, steps[0]);
      if SafeStep(s, steps[0]) {
        StaysFaithfulIff(Do(s, steps[0]), steps[1..]);
      } else {
        BreaksAtOnce(Do(s, steps[0]), steps[1..]);
      }
    }
  }

  lemma BreaksAtOnce(s: State, steps: seq<Step>)
    requires !Faithful(s.books)
    ensures !StaysFaithful(s, steps)
  {
  }

  lemma {:induction false} EndsFaithful(s: State, steps: seq<Step>)
    requires StaysFaithful(s, steps)
    ensures Faithful(RunAll(s, steps).books)
    decreases |steps|
  {
    hide Faithful, Do;
    if steps != [] {
      EndsFaithful(Do(s, steps[0]), steps[1..]);
    }
  }

  // ----- how many sessions

  /** What a lone session read is still so. */
  ghost predicate Fresh(s: State) {
    && |s.sessions| <= 1
    && forall i :: 0 <= i < |s.sessions| && s.sessions[i].Putting? ==>
         s.sessions[i].seen == RowOf(s.books, s.sessions[i].key)
  }

  lemma FreshStep(s: State, step: Step)
    requires Fresh(s)
    ensures SafeStep(s, step) && Fresh(Do(s, step))
  {
    hide Seed, Fault, Written;
  }

  lemma {:induction false} FreshIsCareful(s: State, steps: seq<Step>)
    requires Fresh(s)
    ensures Careful(s, steps)
    decreases |steps|
  {
    hide Fresh, Do, SafeStep;
    if steps != [] {
      FreshStep(s, steps[0]);
      FreshIsCareful(Do(s, steps[0]), steps[1..]);
    }
  }

  /** In every run of `n` sessions the catalog is the replay of its history. */
  ghost predicate AlwaysFaithful(n: nat) {
    forall steps {:trigger RunAll(Start(n), steps)} :: Faithful(RunAll(Start(n), steps).books)
  }

  function Quote(price: real): Upsert {
    Upsert("k", Some(price), None, None, "f")
  }

  function Row(price: real, at: Time): Price {
    Price("f", price, "USD", true, at)
  }

  /** Both read the first price; one raises it, the other confirms it, which changes no price column. */
  function Confirmation(): seq<Step> {
    [ReadForUpsert(0, Quote(1.0), 0), Put(0), ReadForUpsert(0, Quote(2.0), 1), ReadForUpsert(1, Quote(1.0), 2), Put(0),
     Put(1)]
  }

  lemma {:induction false} RunFollows(path: seq<State>, steps: seq<Step>)
    requires |path| == |steps| + 1 && forall i :: 0 <= i < |steps| ==> Do(path[i], steps[i]) == path[i + 1]
    ensures RunAll(path[0], steps) == path[|steps|]
    decreases |steps|
  {
    hide Do;
    if steps != [] {
      assert forall i :: 0 <= i < |steps[1..]| ==> Do(path[1..][i], steps[1..][i]) == path[1..][i + 1] by {
        assert forall i :: 0 <= i < |steps[1..]| ==> path[1..][i] == path[i + 1] && steps[1..][i] == steps[i + 1];
      }
      RunFollows(path[1..], steps[1..]);
    }
  }

  /** The catalog keeps the raised price, although the last word of the history is the confirmed one. */
  lemma ConfirmationBreaks(n: nat)
    requires n >= 2
    ensures var b := RunAll(Start(n), Confirmation()).books;
            && b.history == [Change("k", Row(1.0, 0)), Change("k", Row(2.0, 1)), Change("k", Row(1.0, 2))]
            && b.rows == map["k" := Row(2.0, 2)] && !Faithful(b)
  {
    hide RunAll;
    var first, raised, confirmed := Row(1.0, 0), Row(2.0, 1), Row(1.0, 2);
    var raise, confirm := Putting("k", Some(first), raised), Putting("k", Some(first), confirmed);
    var one := Books(map["k" := first], [Change("k", first)]);
    var two := Books(map["k" := raised], [Change("k", first), Change("k", raised)]);
    var three := Books(map["k" := Row(2.0, 2)], [Change("k", first), Change("k", raised), Change("k", confirmed)]);
    TwoAlike(Idle, n);
    TwoUpdate(Idle, Idle, Putting("k", None, first), Idle, n);
    TwoUpdate(Putting("k", None, first), Idle, Idle, Idle, n);
    TwoUpdate(Idle, Idle, raise, Idle, n);
    TwoUpdate(raise, Idle, confirm, Idle, n);
    TwoUpdate(raise, confirm, Idle, Idle, n);
    TwoUpdate(Idle, confirm, Idle, Idle, n);
    var s0 := Start(n);
    var s1 := State(Books(map[], []), Two(Putting("k", None, first), Idle, Idle, n));
    var s2 := State(one, Two(Idle, Idle, Idle, n));
    var s3 := State(one, Two(raise, Idle, Idle, n));
    var s4 := State(one, Two(raise, confirm, Idle, n));
    var s5 := State(two, Two(Idle, confirm, Idle, n));
    var s6 := State(three, Two(Idle, Idle, Idle, n));
    assert Fault(Quote(1.0)).None? && Fault(Quote(2.0)).None? by { assert |"k"| == 1; }
    RunFollows([s0, s1, s2, s3, s4, s5, s6], Confirmation());
    LastWord(three);
  }

  lemma LastWord(b: Books)
    requires b.history != []
    requires var last := b.history[|b.history| - 1]; last.key in b.rows && b.rows[last.key] != last.price
    ensures !Faithful(b)
  {
    ReplayIsLastChange(b.history, b.history[|b.history| - 1].key, |b.history| - 1);
  }

  /** The history tells the catalog in every run exactly with a single session. */
  lemma AlwaysFaithfulIff(n: nat)
    ensures AlwaysFaithful(n) <==> n <= 1
  {
    hide RunAll, Faithful, Careful, StaysFaithful, Confirmation;
    if n <= 1 {
      forall steps ensures Faithful(RunAll(Start(n), steps).books)
      {
        assert Faithful(Start(n).books) by { BlankIsFaithful(); }
        FreshIsCareful(Start(n), steps);
        StaysFaithfulIff(Start(n), steps);
        EndsFaithful(Start(n), steps);
      }
    } else {
      ConfirmationBreaks(n);
    }
  }

  lemma BlankIsFaithful()
    ensures Faithful(Books(map[], []))
  {
  }
}
