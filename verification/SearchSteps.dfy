/** The search loop of router/src/route.cpp as a step relation on labels and heap, without any claim about it. */
module SearchSteps {
  import opened Common
  import opened RoutingGraph
  import opened Routes

  datatype Dist = Infinite | Finite(value: real)

  /** A heap entry: a tentative fee and the node it reaches. */
  datatype Entry = Entry(d: real, node: nat)

  /** The heap's order: by fee, then by node index. */
  predicate Before(a: Entry, b: Entry) {
    a.d < b.d || (a.d == b.d && a.node <= b.node)
  }

  /** The three label arrays of a search. */
  datatype Labels = Labels(dist: seq<Dist>, predNode: seq<Option<nat>>, predEdge: seq<Option<Edge>>) {
    ghost predicate Sized(n: nat) {
      |dist| == n && |predNode| == n && |predEdge| == n
    }

    ghost predicate Reached(v: nat) {
      v < |dist| && dist[v].Finite?
    }

    ghost function Fee(v: nat): real
      requires Reached(v)
    {
      dist[v].value
    }

    /** Going through `e` from `u` is cheaper than what is known for its target. */
    ghost predicate ImprovedBy(u: nat, e: Edge)
      requires Reached(u)
    {
      Reached(e.to) ==> Fee(u) + e.fee < Fee(e.to)
    }

    ghost function Relabel(u: nat, e: Edge): Labels
      requires Reached(u) && e.to < |dist| && Sized(|dist|)
    {
      Labels(dist[e.to := Finite(Fee(u) + e.fee)], predNode[e.to := Some(u)], predEdge[e.to := Some(e)])
    }
  }

  /** What the main loop works on. */
  datatype Config = Config(l: Labels, heap: multiset<Entry>)

  /** One edge of `u`: skipped when it is too thin or no improvement. */
  ghost function ScanEdge(amount: real, c: Config, u: nat, e: Edge): (c': Config)
    requires c.l.Sized(|c.l.dist|) && c.l.Reached(u) && e.to < |c.l.dist|
    ensures c'.l.Sized(|c.l.dist|) && c'.l.Reached(u)
  {
    if Eligible(e, amount) && c.l.ImprovedBy(u, e)
    then Config(c.l.Relabel(u, e), c.heap + multiset{Entry(c.l.Fee(u) + e.fee, e.to)})
    else c
  }

  /** The edge loop. */
  ghost function Scan(amount: real, c: Config, u: nat, es: seq<Edge>): (c': Config)
    requires c.l.Sized(|c.l.dist|) && c.l.Reached(u) && forall i :: 0 <= i < |es| ==> es[i].to < |c.l.dist|
    ensures c'.l.Sized(|c.l.dist|) && c'.l.Reached(u)
    decreases |es|
  {
    if es == [] then c else Scan(amount, ScanEdge(amount, c, u, es[0]), u, es[1..])
  }

  ghost predicate IsTop(heap: multiset<Entry>, top: Entry) {
    top in heap && forall e <- heap :: Before(top, e)
  }

  /** The entry still carries its node's label: the pop goes on to the edges. */
  ghost predicate Live(c: Config, top: Entry) {
    c.l.Reached(top.node) && top.d <= c.l.Fee(top.node)
  }

  ghost predicate Ready(adj: Adjacency, c: Config, top: Entry) {
    Closed(adj) && c.l.Sized(|adj|) && c.l.Reached(top.node) && IsTop(c.heap, top)
  }

  /** One pass of the main loop. */
  ghost function AfterPop(adj: Adjacency, amount: real, c: Config, top: Entry): Config
    requires Ready(adj, c, top)
  {
    var rest := Config(c.l, c.heap - multiset{top});
    if Live(c, top) then Scan(amount, rest, top.node, adj[top.node]) else rest
  }

  ghost predicate Pops(adj: Adjacency, amount: real, c: Config, top: Entry, c': Config) {
    Ready(adj, c, top) && c' == AfterPop(adj, amount, c, top)
  }

  /** All labels infinite but the source's, which is alone in the heap. */
  ghost function Initial(n: nat, source: nat): Config {
    var dist := seq(n, v requires 0 <= v < n => if v == source then Finite(0.0) else Infinite);
    Config(Labels(dist, seq(n, _ => None), seq(n, _ => None)), multiset{Entry(0.0, source)})
  }

  /** `pops[i]` leads from `run[i]` to `run[i + 1]`. */
  ghost predicate IsRun(adj: Adjacency, amount: real, source: nat, run: seq<Config>, pops: seq<Entry>) {
    && |run| == |pops| + 1
    && run[0] == Initial(|adj|, source)
    && forall i :: 0 <= i < |pops| ==> Pops(adj, amount, run[i], pops[i], run[i + 1])
  }

  /** A run of the main loop that has emptied the heap. */
  ghost predicate IsSearch(adj: Adjacency, amount: real, source: nat, run: seq<Config>, pops: seq<Entry>) {
    IsRun(adj, amount, source, run, pops) && run[|pops|].heap == multiset{}
  }

  /** The main loop comes to an end. */
  ghost predicate Halts(adj: Adjacency, amount: real, source: nat) {
    exists run, pops :: IsSearch(adj, amount, source, run, pops)
  }

  /** The nodes whose edges were looked at, in order, once per live pop. */
  ghost function LivePops(run: seq<Config>, pops: seq<Entry>): seq<nat>
    requires |run| == |pops| + 1
  {
    if pops == [] then []
    else
      var k := |pops| - 1;
      var live := LivePops(run[..k + 1], pops[..k]);
      if Live(run[k], pops[k]) then live + [pops[k].node] else live
  }

  /** The search has no choice: a heap has one top. */
  lemma PopsIsDeterministic(adj: Adjacency, amount: real, c: Config, top: Entry, c': Config, other: Entry, c'': Config)
    requires Pops(adj, amount, c, top, c') && Pops(adj, amount, c, other, c'')
    ensures top == other && c' == c''
  {
    assert Before(top, other) && Before(other, top);
  }

  lemma {:induction false} RunsAgree(adj: Adjacency, amount: real, source: nat, run: seq<Config>, pops: seq<Entry>,
                                     run': seq<Config>, pops': seq<Entry>, i: nat)
    requires IsRun(adj, amount, source, run, pops) && IsRun(adj, amount, source, run', pops') && i < |run| && i < |run'|
    ensures run[i] == run'[i]
  {
    hide AfterPop, Ready, Initial;
    if i > 0 {
      RunsAgree(adj, amount, source, run, pops, run', pops', i - 1);
      PopsIsDeterministic(adj, amount, run[i - 1], pops[i - 1], run[i], pops'[i - 1], run'[i]);
    }
  }

  lemma RunGrows(adj: Adjacency, amount: real, source: nat, run: seq<Config>, pops: seq<Entry>, top: Entry, c: Config)
    requires IsRun(adj, amount, source, run, pops) && Pops(adj, amount, run[|pops|], top, c)
    ensures IsRun(adj, amount, source, run + [c], pops + [top])
    ensures LivePops(run + [c], pops + [top]) ==
      if Live(run[|pops|], top) then LivePops(run, pops) + [top.node] else LivePops(run, pops)
  {
    hide Pops, Live, Initial;
    var run', pops' := run + [c], pops + [top];
    assert run'[..|pops| + 1] == run && pops'[..|pops|] == pops;
  }

  // ---- A search that never ends ----

  /** One node whose live entry never leaves the heap for good. */
  ghost predicate Looping(c: Config) {
    && c.l.Sized(1) && c.l.Reached(0) && Entry(c.l.Fee(0), 0) in c.heap
    && forall e <- c.heap :: e.node == 0 && c.l.Fee(0) <= e.d
  }

  /**
   * While the loops of the one node are scanned: once its label has dropped below `d`, the new entry is in the heap.
   */
  ghost predicate Dropping(c: Config, d: real) {
    && c.l.Sized(1) && c.l.Reached(0) && c.l.Fee(0) <= d && (c.l.Fee(0) < d ==> Entry(c.l.Fee(0), 0) in c.heap)
    && forall e <- c.heap :: e.node == 0 && c.l.Fee(0) <= e.d
  }

  ghost predicate Loops(es: seq<Edge>) {
    forall i :: 0 <= i < |es| ==> es[i].to == 0
  }

  ghost predicate LosesMoney(es: seq<Edge>, amount: real) {
    exists i :: 0 <= i < |es| && Eligible(es[i], amount) && es[i].fee < 0.0
  }

  lemma {:induction false} ScanDrops(amount: real, c: Config, es: seq<Edge>, d: real)
    requires Dropping(c, d) && Loops(es)
    ensures Dropping(Scan(amount, c, 0, es), d)
    ensures c.l.Fee(0) < d || LosesMoney(es, amount) ==> Scan(amount, c, 0, es).l.Fee(0) < d
    decreases |es|
  {
    if es != [] {
      var c' := ScanEdge(amount, c, 0, es[0]);
      assert Dropping(c', d);
      ScanDrops(amount, c', es[1..], d);
      if LosesMoney(es, amount) {
        var i :| 0 <= i < |es| && Eligible(es[i], amount) && es[i].fee < 0.0;
        assert i > 0 ==> es[1..][i - 1] == es[i];
      }
    }
  }

  lemma LoopKeeps(es: seq<Edge>, amount: real, c: Config, top: Entry, c': Config)
    requires Looping(c) && Loops(es) && LosesMoney(es, amount) && Pops([es], amount, c, top, c')
    ensures Looping(c')
  {
    var rest := Config(c.l, c.heap - multiset{top});
    assert forall e <- rest.heap :: e in c.heap;
    if Live(c, top) { ScanDrops(amount, rest, es, c.l.Fee(0)); }
  }

  /** On one node with an eligible loop of negative fee, the heap is non-empty after every number of steps. */
  lemma {:induction false} NegativeLoopNeverEnds(es: seq<Edge>, amount: real, run: seq<Config>, pops: seq<Entry>)
    requires Loops(es) && LosesMoney(es, amount) && IsRun([es], amount, 0, run, pops)
    ensures |run| == |pops| + 1 && Looping(run[|pops|]) && run[|pops|].heap != multiset{}
    decreases |pops|
  {
    hide AfterPop, Ready, Loops, LosesMoney;
    if pops != [] {
      var k := |pops| - 1;
      NegativeLoopNeverEnds(es, amount, run[..k + 1], pops[..k]);
      assert Pops([es], amount, run[k], pops[k], run[k + 1]);
      LoopKeeps(es, amount, run[k], pops[k], run[k + 1]);
    }
  }
}
