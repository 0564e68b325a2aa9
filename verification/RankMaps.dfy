/** Rank placement on simulated nodes, and the fabric report bundle built over it. */
module RankMaps {
  import opened Common

  datatype Binding = Binding(rank: nat, node: string, local: nat)

  function Digit(n: nat): char
    requires n < 10
  {
    ['0', '1', '2', '3', '4', '5', '6', '7', '8', '9'][n]
  }

  function Decimal(n: nat): (s: string)
    ensures s != [] && (n >= 10 ==> |s| >= 2)
  {
    if n < 10 then [Digit(n)] else Decimal(n / 10) + [Digit(n % 10)]
  }

  lemma LastDigit(n: nat)
    ensures var s := Decimal(n);
            s[|s| - 1] == Digit(n % 10) && (n < 10 ==> |s| == 1) && (n >= 10 ==> s[..|s| - 1] == Decimal(n / 10))
  {
  }

  lemma SameDigit(a: nat, b: nat)
    requires a < 10 && b < 10 && Digit(a) == Digit(b)
    ensures a == b
  {
  }

  lemma {:induction false} DecimalInjective(a: nat, b: nat)
    requires Decimal(a) == Decimal(b)
    ensures a == b
  {
    hide Decimal;
    LastDigit(a);
    LastDigit(b);
    SameDigit(a % 10, b % 10);
    if a >= 10 && b >= 10 {
      DecimalInjective(a / 10, b / 10);
    }
  }

  /** The id of simulated node `i`. */
  function NodeId(i: nat): (s: string)
    ensures s != ""
  {
    "sim-node-" + Decimal(i)
  }

  lemma NodeIdInjective(a: nat, b: nat)
    requires NodeId(a) == NodeId(b)
    ensures a == b
  {
    assert NodeId(a)[9..] == Decimal(a) && NodeId(b)[9..] == Decimal(b);
    DecimalInjective(a, b);
  }

  // ----- division

  lemma MulGe(k: int, n: int)
    requires k >= 1 && n >= 0
    ensures k * n >= n
  {
  }

  lemma DivMod(x: nat, n: nat)
    requires n > 0
    ensures x == x / n * n + x % n && 0 <= x % n < n
  {
  }

  lemma DivModUnique(q: int, r: int, q': int, r': int, n: int)
    requires 0 <= r < n && 0 <= r' < n && q * n + r == q' * n + r'
    ensures q == q' && r == r'
  {
    assert (q - q') * n == r' - r && (q' - q) * n == r - r';
    if q > q' {
      MulGe(q - q', n);
    } else if q < q' {
      MulGe(q' - q, n);
    }
  }

  /** Slot `local` of row `node` in a grid of width `nproc`. */
  lemma InRow(node: nat, local: nat, nproc: nat)
    requires local < nproc
    ensures (node * nproc + local) / nproc == node && (node * nproc + local) % nproc == local
  {
    var x := node * nproc + local;
    DivMod(x, nproc);
    DivModUnique(node, local, x / nproc, x % nproc, nproc);
  }

  lemma SameDivMod(r: nat, s: nat, n: nat)
    requires n > 0 && r / n == s / n && r % n == s % n
    ensures r == s
  {
  }

  lemma RowsFit(i: nat, rows: nat, width: nat)
    requires i <= rows
    ensures i * width <= rows * width
  {
  }

  /** Rank `r` sits on node `r / nproc` in slot `r % nproc`. */
  function Slot(r: nat, nproc: nat): Binding
    requires nproc > 0
  {
    Binding(r, NodeId(r / nproc), r % nproc)
  }

  function Layout(ranks: nat, nproc: nat): (m: seq<Binding>)
    requires nproc > 0
    ensures |m| == ranks && forall r :: 0 <= r < ranks ==> m[r] == Slot(r, nproc)
  {
    if ranks == 0 then [] else Layout(ranks - 1, nproc) + [Slot(ranks - 1, nproc)]
  }

  lemma LayoutIsUnique(m: seq<Binding>, ranks: nat, nproc: nat)
    requires nproc > 0 && |m| == ranks && forall r :: 0 <= r < ranks ==> m[r] == Slot(r, nproc)
    ensures m == Layout(ranks, nproc)
  {
  }

  /** No two ranks share a slot. */
  lemma SlotsAreDistinct(ranks: nat, nproc: nat, r: nat, s: nat)
    requires nproc > 0 && r < ranks && s < ranks && r != s
    ensures var m := Layout(ranks, nproc); !(m[r].node == m[s].node && m[r].local == m[s].local)
  {
    if NodeId(r / nproc) == NodeId(s / nproc) && r % nproc == s % nproc {
      NodeIdInjective(r / nproc, s / nproc);
      SameDivMod(r, s, nproc);
    }
  }

  function Least(a: nat, b: nat): (r: nat)
    ensures r <= a && r <= b && (r == a || r == b)
  {
    if a < b then a else b
  }

  function AtLeastOne(n: nat): (r: nat)
    ensures n <= r && 1 <= r && (r == n || r == 1)
  {
    if n < 1 then 1 else n
  }

  // ----- the three builders

  /** Nested loops; only the inner one stops once every rank is placed. */
  method BuildSimRankmap(nnodes: nat, nproc: nat, worldSize: nat) returns (m: seq<Binding>)
    ensures nproc == 0 ==> m == []
    ensures nproc > 0 ==> m == Layout(Least(worldSize, nnodes * nproc), nproc)
  {
    m := [];
    var rank := 0;
    for node := 0 to nnodes
      invariant rank == |m| == Least(worldSize, node * nproc)
      invariant nproc > 0 ==> forall r :: 0 <= r < rank ==> m[r] == Slot(r, nproc)
    {
      var id := NodeId(node);
      var local := 0;
      while local < nproc
        invariant local <= nproc && rank == |m| == Least(worldSize, node * nproc + local)
        invariant nproc > 0 ==> forall r :: 0 <= r < rank ==> m[r] == Slot(r, nproc)
      {
        if rank >= worldSize {
          break;
        }
        InRow(node, local, nproc);
        m := m + [Binding(rank, id, local)];
        rank := rank + 1;
        local := local + 1;
      }
      assert (node + 1) * nproc == node * nproc + nproc;
    }
    if nproc > 0 {
      LayoutIsUnique(m, rank, nproc);
    }
  }

  /** The report's stub: dimensions of at least one, both loops stop early. */
  method BuildReportRankmap(nnodes: nat, nproc: nat, worldSize: nat) returns (m: seq<Binding>)
    ensures m == Layout(Least(worldSize, AtLeastOne(nnodes) * AtLeastOne(nproc)), AtLeastOne(nproc))
  {
    m := [];
    var width := AtLeastOne(nproc);
    var i := 0;
    while i < AtLeastOne(nnodes)
      invariant i <= AtLeastOne(nnodes) && |m| == Least(worldSize, i * width)
      invariant forall r :: 0 <= r < |m| ==> m[r] == Slot(r, width)
    {
      var local := 0;
      while local < width
        invariant local <= width && |m| == Least(worldSize, i * width + local)
        invariant forall r :: 0 <= r < |m| ==> m[r] == Slot(r, width)
      {
        var rank := |m|;
        if rank >= worldSize {
          break;
        }
        InRow(i, local, width);
        m := m + [Binding(rank, NodeId(i), local)];
        local := local + 1;
      }
      assert (i + 1) * width == i * width + width;
      i := i + 1;
      RowsFit(i, AtLeastOne(nnodes), width);
      if |m| >= worldSize {
        break;
      }
    }
    assert |m| == Least(worldSize, AtLeastOne(nnodes) * width);
    LayoutIsUnique(m, |m|, width);
  }

  /** The collector's fallback: one entry per rank, no node limit. */
  function CollectRankmap(nproc: nat, worldSize: nat): seq<Binding> {
    seq(worldSize, (r: nat) => Slot(r, AtLeastOne(nproc)))
  }

  /**
   For positive dimensions the first two builders always agree, and all three exactly when the grid is
   large enough; admission makes it an exact fit.
   */
  lemma BuildersAgreeIff(nnodes: nat, nproc: nat, worldSize: nat)
    requires nnodes >= 1 && nproc >= 1
    ensures Layout(Least(worldSize, nnodes * nproc), nproc)
         == Layout(Least(worldSize, AtLeastOne(nnodes) * AtLeastOne(nproc)), AtLeastOne(nproc))
    ensures CollectRankmap(nproc, worldSize) == Layout(Least(worldSize, nnodes * nproc), nproc)
            <==> worldSize <= nnodes * nproc
  {
  }

  // ----- participating nodes

  /** Non-blank node ids, each once, in order of first appearance. */
  function UniqueNodes(m: seq<Binding>): (ids: seq<string>)
    ensures forall n :: n in ids <==> n != "" && exists i :: 0 <= i < |m| && m[i].node == n
    ensures forall i, k :: 0 <= i < k < |ids| ==> ids[i] != ids[k]
  {
    if m == [] then []
    else
      var init := UniqueNodes(m[..|m| - 1]);
      var n := m[|m| - 1].node;
      assert forall i :: 0 <= i < |m| - 1 ==> m[..|m| - 1][i] == m[i];
      if n != "" && n !in init then init + [n] else init
  }

  method UniqueNodeIdsFromRankmap(m: seq<Binding>) returns (seen: seq<string>)
    ensures seen == UniqueNodes(m)
  {
    seen := [];
    for i := 0 to |m|
      invariant seen == UniqueNodes(m[..i])
    {
      assert m[..i + 1][..i] == m[..i];
      var nid := m[i].node;
      if nid != "" && nid !in seen {
        seen := seen + [nid];
      }
    }
    assert m[..|m|] == m;
  }

  /** A rankmap of `ranks` ranks uses exactly the first ceil(ranks / nproc) nodes, in order. */
  lemma {:induction false} LayoutNodes(ranks: nat, nproc: nat)
    requires nproc > 0
    ensures NumberedNodes(UniqueNodes(Layout(ranks, nproc)), (ranks + nproc - 1) / nproc)
    decreases ranks
  {
    hide NumberedNodes, UniqueNodes, Layout;
    if ranks == 0 {
      NoNodes(nproc);
    } else {
      var r := ranks - 1;
      LayoutNodes(r, nproc);
      CeilStep(r, nproc);
      UniqueNodesGrow(r, nproc);
      NextNode(UniqueNodes(Layout(r, nproc)), (r + nproc - 1) / nproc, r / nproc);
    }
  }

  lemma NoNodes(nproc: nat)
    requires nproc > 0
    ensures NumberedNodes(UniqueNodes(Layout(0, nproc)), (nproc - 1) / nproc)
  {
    InRow(0, nproc - 1, nproc);
  }

  /** The node of the next rank joins the list if it is new. */
  lemma UniqueNodesGrow(r: nat, nproc: nat)
    requires nproc > 0
    ensures var before, n := UniqueNodes(Layout(r, nproc)), Slot(r, nproc).node;
            UniqueNodes(Layout(r + 1, nproc)) == if n in before then before else before + [n]
  {
    hide NodeId;
    assert Layout(r + 1, nproc)[..r] == Layout(r, nproc);
  }

  ghost predicate NumberedNodes(ids: seq<string>, count: nat) {
    |ids| == count && forall i :: 0 <= i < count ==> ids[i] == NodeId(i)
  }

  lemma NextNode(ids: seq<string>, count: nat, node: nat)
    requires NumberedNodes(ids, count) && (node < count || node == count)
    ensures NodeId(node) in ids <==> node < count
    ensures node == count ==> NumberedNodes(ids + [NodeId(node)], count + 1)
  {
    if node < count {
      assert ids[node] in ids;
    } else {
      forall i | 0 <= i < count ensures ids[i] != NodeId(node)
      {
        if NodeId(i) == NodeId(node) {
          NodeIdInjective(i, node);
        }
      }
    }
  }

  lemma CeilStep(r: nat, nproc: nat)
    requires nproc > 0
    ensures r % nproc == 0 ==> (r + nproc - 1) / nproc == r / nproc && (r + nproc) / nproc == r / nproc + 1
    ensures r % nproc != 0 ==> (r + nproc - 1) / nproc == (r + nproc) / nproc == r / nproc + 1
  {
    var q, k := r / nproc, r % nproc;
    DivMod(r, nproc);
    assert (q + 1) * nproc == q * nproc + nproc;
    if k == 0 {
      InRow(q, nproc - 1, nproc);
      InRow(q + 1, 0, nproc);
    } else {
      InRow(q + 1, k - 1, nproc);
      InRow(q + 1, k, nproc);
    }
  }

  /** An admitted job's rankmap uses every one of its nodes. */
  lemma FullGridUsesAllNodes(nnodes: nat, nproc: nat)
    requires nnodes >= 1 && nproc >= 1
    ensures |UniqueNodes(Layout(nnodes * nproc, nproc))| == nnodes
  {
    LayoutNodes(nnodes * nproc, nproc);
    InRow(nnodes, nproc - 1, nproc);
  }

  // ----- the report bundle

  datatype Report = Report(node: string, digest: string)
  datatype Entry = Entry(node: string, digest: string, missing: bool)

  /** The last report of a node wins. */
  function LastReport(reports: seq<Report>, node: string): (r: Option<Report>)
    ensures r.Some? ==> r.value.node == node && r.value in reports
    ensures r.None? <==> forall x :: x in reports ==> x.node != node
  {
    if reports == [] then None
    else
      assert reports == reports[..|reports| - 1] + [reports[|reports| - 1]];
      if reports[|reports| - 1].node == node then Some(reports[|reports| - 1])
      else LastReport(reports[..|reports| - 1], node)
  }

  function EntryFor(node: string, reports: seq<Report>, fallback: string -> string): Entry {
    var found := LastReport(reports, node);
    if found.Some? then Entry(node, found.value.digest, false) else Entry(node, fallback(node), true)
  }

  /** The nodes a bundle covers: those of the rankmap, or simulated ones when it names none. */
  function BundleNodes(m: seq<Binding>, nnodes: nat): seq<string> {
    var ids := UniqueNodes(m);
    if ids == [] then seq(AtLeastOne(nnodes), (i: nat) => NodeId(i)) else ids
  }

  lemma ListedMeansNamed(m: seq<Binding>)
    ensures UniqueNodes(m) != [] ==> exists i :: 0 <= i < |m| && m[i].node != ""
  {
    if UniqueNodes(m) != [] {
      assert UniqueNodes(m)[0] in UniqueNodes(m);
    }
  }

  /** A rankmap without a named node stands for the simulated nodes in order, at least one. */
  lemma BundleNodesAre(m: seq<Binding>, nnodes: nat)
    ensures (forall i :: 0 <= i < |m| ==> m[i].node == "") ==>
              && |BundleNodes(m, nnodes)| == (if nnodes == 0 then 1 else nnodes)
              && forall i :: 0 <= i < |BundleNodes(m, nnodes)| ==> BundleNodes(m, nnodes)[i] == "sim-node-" + Decimal(i)
    ensures (exists i :: 0 <= i < |m| && m[i].node != "") ==>
              forall n :: n in BundleNodes(m, nnodes) <==> n != "" && exists i :: 0 <= i < |m| && m[i].node == n
  {
    var ids := UniqueNodes(m);
    if forall i :: 0 <= i < |m| ==> m[i].node == "" {
      ListedMeansNamed(m);
    } else {
      var i :| 0 <= i < |m| && m[i].node != "";
      assert m[i].node in ids;
    }
  }

  method BundleEntries(m: seq<Binding>, nnodes: nat, reports: seq<Report>, fallback: string -> string)
    returns (entries: seq<Entry>)
    ensures |entries| == |BundleNodes(m, nnodes)|
    ensures forall i :: 0 <= i < |entries| ==> entries[i] == EntryFor(BundleNodes(m, nnodes)[i], reports, fallback)
  {
    var ids := UniqueNodeIdsFromRankmap(m);
    if ids == [] {
      ids := seq(AtLeastOne(nnodes), (i: nat) => NodeId(i));
    }
    entries := [];
    for i := 0 to |ids|
      invariant |entries| == i
      invariant forall k :: 0 <= k < i ==> entries[k] == EntryFor(ids[k], reports, fallback)
    {
      var found := LastReport(reports, ids[i]);
      if found.Some? {
        entries := entries + [Entry(ids[i], found.value.digest, false)];
      } else {
        entries := entries + [Entry(ids[i], fallback(ids[i]), true)];
      }
    }
  }

  function NodesOf(entries: seq<Entry>): set<string> {
    set e | e in entries :: e.node
  }

  function NodeSet(m: seq<Binding>): set<string> {
    set n | n in UniqueNodes(m)
  }

  /** The bundle reports on exactly the nodes of the rankmap; a rankmap without nodes asks for nothing. */
  predicate Complete(entries: seq<Entry>, m: seq<Binding>) {
    NodeSet(m) == {} || (NodeSet(m) == NodesOf(entries) && |NodesOf(entries)| == |NodeSet(m)|)
  }

  /** Every bundle passes its completeness check, whatever the rankmap and whichever reports exist. */
  lemma BundleIsComplete(m: seq<Binding>, nnodes: nat, reports: seq<Report>, fallback: string -> string,
                         entries: seq<Entry>)
    requires |entries| == |BundleNodes(m, nnodes)|
    requires forall i :: 0 <= i < |entries| ==> entries[i] == EntryFor(BundleNodes(m, nnodes)[i], reports, fallback)
    ensures Complete(entries, m)
  {
  }

  /** The check is sharp: drop any one node from a complete bundle over a rankmap with nodes and it fails. */
  lemma DroppedNodeIsNoticed(m: seq<Binding>, entries: seq<Entry>, node: string)
    requires node in NodeSet(m) && forall e :: e in entries ==> e.node != node
    ensures !Complete(entries, m)
  {
  }

  // ----- the pieces, from the numbers themselves

  ghost function Value(s: string): int {
    if s == [] then 0 else 10 * Value(s[..|s| - 1]) + (s[|s| - 1] as int - '0' as int)
  }

  /** The decimal notation says the number. */
  lemma {:induction false} DecimalRoundTrip(n: nat)
    ensures Value(Decimal(n)) == n
  {
    var s := Decimal(n);
    LastDigit(n);
    hide Decimal;
    assert Digit(n % 10) as int - '0' as int == n % 10;
    if n < 10 {
      assert s[..|s| - 1] == [] && Value([]) == 0;
    } else {
      DecimalRoundTrip(n / 10);
    }
  }

  /** Node `i` holds the consecutive ranks from `i * nproc` on, in the order of its slots. */
  lemma NodeHoldsBlock(ranks: nat, nproc: nat, i: nat, k: nat)
    requires k < nproc && i * nproc + k < ranks
    ensures Layout(ranks, nproc)[i * nproc + k] == Binding(i * nproc + k, "sim-node-" + Decimal(i), k)
  {
    InRow(i, k, nproc);
  }

  ghost predicate Used(m: seq<Binding>, n: string) {
    exists i :: 0 <= i < |m| && m[i].node == n
  }

  /** Where node `n` first appears. */
  ghost function FirstUse(m: seq<Binding>, n: string): (i: nat)
    requires Used(m, n)
    ensures i < |m| && m[i].node == n && forall k :: 0 <= k < i ==> m[k].node != n
  {
    if m[0].node == n then 0
    else
      var j :| 0 <= j < |m| && m[j].node == n;
      assert m[1..][j - 1] == m[j];
      1 + FirstUse(m[1..], n)
  }

  ghost predicate ByFirstUse(m: seq<Binding>, ids: seq<string>) {
    && (forall n :: n in ids ==> Used(m, n))
    && forall i, k :: 0 <= i < k < |ids| && Used(m, ids[i]) && Used(m, ids[k]) ==>
         FirstUse(m, ids[i]) < FirstUse(m, ids[k])
  }

  /** The nodes of a rankmap are listed in the order of their first rank. */
  lemma {:induction false} NodesByFirstUse(m: seq<Binding>)
    ensures ByFirstUse(m, UniqueNodes(m))
    decreases |m|
  {
    if m != [] {
      var init := m[..|m| - 1];
      NodesByFirstUse(init);
      UseGrows(m, UniqueNodes(init));
    }
  }

  lemma UseGrows(m: seq<Binding>, ids: seq<string>)
    requires m != [] && ByFirstUse(m[..|m| - 1], ids)
    ensures var n := m[|m| - 1].node;
            && ByFirstUse(m, ids) && (!Used(m[..|m| - 1], n) ==> ByFirstUse(m, ids + [n]))
  {
    hide FirstUse;
    var init, n := m[..|m| - 1], m[|m| - 1].node;
    assert forall i :: 0 <= i < |init| ==> init[i] == m[i];
    assert Used(m, n);
    forall x | Used(init, x) ensures Used(m, x) && FirstUse(m, x) == FirstUse(init, x)
    {
      assert m[FirstUse(init, x)].node == x;
    }
    if !Used(init, n) {
      assert forall i :: 0 <= i < |init| ==> m[i].node != n;
      assert FirstUse(m, n) == |init|;
    }
  }

  /** The entry of a node is its last report, or the stub. */
  lemma {:induction false} LastReportIsLast(reports: seq<Report>, node: string, i: nat)
    requires i < |reports| && reports[i].node == node && forall k :: i < k < |reports| ==> reports[k].node != node
    ensures LastReport(reports, node) == Some(reports[i])
    decreases |reports|
  {
    if i < |reports| - 1 {
      LastReportIsLast(reports[..|reports| - 1], node, i);
    }
  }

  lemma EntryIs(node: string, reports: seq<Report>, fallback: string -> string)
    ensures (forall r :: r in reports ==> r.node != node) ==>
              EntryFor(node, reports, fallback) == Entry(node, fallback(node), true)
    ensures forall i :: 0 <= i < |reports| && reports[i].node == node
                        && (forall k :: i < k < |reports| ==> reports[k].node != node) ==>
              EntryFor(node, reports, fallback) == Entry(node, reports[i].digest, false)
  {
    forall i | 0 <= i < |reports| && reports[i].node == node
               && (forall k :: i < k < |reports| ==> reports[k].node != node)
      ensures EntryFor(node, reports, fallback) == Entry(node, reports[i].digest, false)
    {
      LastReportIsLast(reports, node, i);
    }
  }
}
