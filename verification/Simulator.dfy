/** The simulated bridge network (router/src/sim/network_simulator.cpp). */
module NetworkSimulation {
  import opened Words
  import opened DeterministicRng
  import opened RoutingGraph
  import opened Routes
  import Money

  const CHAINS: seq<ChainId> := [Ethereum, Base, Arbitrum, Optimism, Polygon]
  const ASSETS: seq<AssetId> := [USDC, ETH]
  const BRIDGE_NAME_POOL: seq<string> := ["Stargate", "Wormhole", "Across", "Hop", "Synapse", "Celer"]

  const PAIR_INCLUSION_PROBABILITY: real := 0.6
  const MIN_BRIDGES_PER_PAIR: nat := 1
  const MAX_BRIDGES_PER_PAIR: nat := 3

  /** The largest finite double, (2^53 - 1) * 2^971. */
  const MAX_DOUBLE: real :=
    var w := 18446744073709551616.0;
    9007199254740991.0 * (w * w * w * w * w) * (w * w * w * w * w) * (w * w * w * w * w) * 2048.0

  /** The enum value of a chain, which is also its place in `CHAINS`. */
  function ChainIndex(c: ChainId): (i: nat)
    ensures i < |CHAINS| && CHAINS[i] == c
  {
    match c
    case Ethereum => 0
    case Base => 1
    case Arbitrum => 2
    case Optimism => 3
    case Polygon => 4
  }

  /** The assets in the order of their enum values. */
  const ASSET_VALUES: seq<AssetId> := [USDC, USDT, ETH, WBTC, DAI]

  function AssetValue(a: AssetId): (v: Word)
    ensures v < |ASSET_VALUES| && ASSET_VALUES[v] == a
  {
    match a
    case USDC => 0
    case USDT => 1
    case ETH => 2
    case WBTC => 3
    case DAI => 4
  }

  /** The place of an asset in `ASSETS`; assets the simulator does not know share the first place. */
  function AssetIndexOf(a: AssetId): (i: nat)
    ensures i < |ASSETS|
  {
    if a == ETH then 1 else 0
  }

  function PairKey(source: ChainId, target: ChainId): Word {
    ChainIndex(source) * 8 + ChainIndex(target)
  }

  lemma PairKeyIsInjective(s: ChainId, t: ChainId, s': ChainId, t': ChainId)
    requires PairKey(s, t) == PairKey(s', t')
    ensures s == s' && t == t'
  {
    assert ChainIndex(s) == ChainIndex(s') && ChainIndex(t) == ChainIndex(t');
    assert CHAINS[ChainIndex(s)] == s && CHAINS[ChainIndex(t)] == t;
  }

  function Clamp(value: real, lo: real, hi: real): real {
    if value < lo then lo else if value > hi then hi else value
  }

  function Fraction(x: real, width: real): (r: real)
    requires 0.0 <= x < 1.0 && width > 0.0
    ensures 0.0 <= r < width
  {
    assert (1.0 - x) * width > 0.0;
    x * width
  }

  /** Which of `n` equal parts of the unit interval `x` falls in: the truncated product. */
  function Slot(x: real, n: nat): (i: nat)
    requires 0.0 <= x < 1.0 && n > 0
    ensures i < n
  {
    Fraction(x, n as real).Floor
  }

  function ScaledDraw(seed: Word, role: string, a: Word, b: Word, c: Word, d: Word, lo: real, hi: real): real
    requires lo < hi
  {
    lo + Fraction(Drawn(seed, role, a, b, c, d), hi - lo)
  }

  lemma ScaledDrawRange(seed: Word, role: string, a: Word, b: Word, c: Word, d: Word, lo: real, hi: real)
    requires lo < hi
    ensures lo <= ScaledDraw(seed, role, a, b, c, d, lo, hi) < hi
  {
    hide Drawn, Fraction;
  }

  datatype BridgeTemplate = BridgeTemplate(
    source: Node, target: Node, bridgeName: string,
    baseFee: real, baseLatencyMs: real, baseLiquidity: real, baseReliability: real, volatility: real, bridgeIndex: Word)

  /** A bridge joins two different chains of one simulated asset, with base parameters in the documented ranges. */
  ghost predicate WellFormed(b: BridgeTemplate) {
    && b.source.asset == b.target.asset && b.source.asset in ASSETS && b.source.chain != b.target.chain
    && b.bridgeIndex < MAX_BRIDGES_PER_PAIR
    && (exists i ::
        0 <= i < |BRIDGE_NAME_POOL| && b.bridgeName == BRIDGE_NAME_POOL[i] + "#" + Money.PrintNat(b.bridgeIndex + 1))
    && 0.1 <= b.baseFee < 10.0 && 200.0 <= b.baseLatencyMs < 5000.0 && 10000.0 <= b.baseLiquidity < 2000000.0
    && 0.85 <= b.baseReliability < 0.999 && 0.05 <= b.volatility < 0.3
  }

  /** How many bridges join an ordered pair of chains. */
  function BridgeCount(seed: Word, asset: AssetId, source: ChainId, target: ChainId): (n: nat)
    ensures n <= MAX_BRIDGES_PER_PAIR && (source == target ==> n == 0)
  {
    var pk, av := PairKey(source, target), AssetValue(asset);
    if source == target || Drawn(seed, "topo.include", pk, av, 0, 0) >= PAIR_INCLUSION_PROBABILITY then 0
    else
      var roll := Drawn(seed, "topo.count", pk, av, 0, 0);
      MIN_BRIDGES_PER_PAIR + Slot(roll, MAX_BRIDGES_PER_PAIR - MIN_BRIDGES_PER_PAIR + 1)
  }

  /** When an ordered pair of chains is joined at all, and by how many bridges. */
  lemma PairIsJoined(seed: Word, asset: AssetId, source: ChainId, target: ChainId)
    ensures var pk, n := 8 * ChainIndex(source) + ChainIndex(target), BridgeCount(seed, asset, source, target);
      var inclusion, roll := Drawn(seed, "topo.include", pk, AssetValue(asset), 0, 0),
        Drawn(seed, "topo.count", pk, AssetValue(asset), 0, 0);
      && (n == 0 <==> source == target || inclusion >= 0.6)
      && (n == 1 <==> source != target && inclusion < 0.6 && 3.0 * roll < 1.0)
      && (n == 2 <==> source != target && inclusion < 0.6 && 1.0 <= 3.0 * roll < 2.0)
      && (n == 3 <==> source != target && inclusion < 0.6 && 2.0 <= 3.0 * roll)
  {
    hide Drawn, AssetValue, ChainIndex, BridgeCount, Slot;
    CountIs(seed, asset, source, target);
    ThreeParts(Drawn(seed, "topo.count", 8 * ChainIndex(source) + ChainIndex(target), AssetValue(asset), 0, 0));
  }

  lemma CountIs(seed: Word, asset: AssetId, source: ChainId, target: ChainId)
    ensures var pk := 8 * ChainIndex(source) + ChainIndex(target);
      BridgeCount(seed, asset, source, target) ==
        if source == target || Drawn(seed, "topo.include", pk, AssetValue(asset), 0, 0) >= 0.6 then 0
        else 1 + Slot(Drawn(seed, "topo.count", pk, AssetValue(asset), 0, 0), 3)
  {
    hide Drawn, AssetValue, ChainIndex, Slot;
  }

  lemma ThreeParts(x: real)
    requires 0.0 <= x < 1.0
    ensures Slot(x, 3) == if 3.0 * x < 1.0 then 0 else if 3.0 * x < 2.0 then 1 else 2
  {
  }

  function NameIndex(seed: Word, pk: Word, av: Word, idx: Word): (i: nat)
    ensures i < |BRIDGE_NAME_POOL|
  {
    Slot(Drawn(seed, "bridge.name", pk, av, idx, 0), |BRIDGE_NAME_POOL|)
  }

  function Bridge(seed: Word, asset: AssetId, source: ChainId, target: ChainId, idx: Word): BridgeTemplate {
    var pk, av := PairKey(source, target), AssetValue(asset);
    BridgeTemplate(
      Node(source, asset), Node(target, asset),
      BRIDGE_NAME_POOL[NameIndex(seed, pk, av, idx)] + "#" + Money.PrintNat(idx + 1),
      ScaledDraw(seed, "bridge.baseFee", pk, av, idx, 0, 0.1, 10.0),
      ScaledDraw(seed, "bridge.baseLatency", pk, av, idx, 0, 200.0, 5000.0),
      ScaledDraw(seed, "bridge.baseLiquidity", pk, av, idx, 0, 10000.0, 2000000.0),
      ScaledDraw(seed, "bridge.baseReliability", pk, av, idx, 0, 0.85, 0.999),
      ScaledDraw(seed, "bridge.volatility", pk, av, idx, 0, 0.05, 0.3), idx)
  }

  lemma BridgeIsWellFormed(seed: Word, asset: AssetId, source: ChainId, target: ChainId, idx: Word)
    requires asset in ASSETS && source != target && idx < MAX_BRIDGES_PER_PAIR
    ensures WellFormed(Bridge(seed, asset, source, target, idx))
  {
    hide Drawn, ScaledDraw, Money.PrintNat, NameIndex, PairKey, AssetValue;
    var pk, av := PairKey(source, target), AssetValue(asset);
    ScaledDrawRange(seed, "bridge.baseFee", pk, av, idx, 0, 0.1, 10.0);
    ScaledDrawRange(seed, "bridge.baseLatency", pk, av, idx, 0, 200.0, 5000.0);
    ScaledDrawRange(seed, "bridge.baseLiquidity", pk, av, idx, 0, 10000.0, 2000000.0);
    ScaledDrawRange(seed, "bridge.baseReliability", pk, av, idx, 0, 0.85, 0.999);
    ScaledDrawRange(seed, "bridge.volatility", pk, av, idx, 0, 0.05, 0.3);
    assert 0 <= NameIndex(seed, pk, av, idx) < |BRIDGE_NAME_POOL|;
  }

  /** The first `n` bridges of a pair, in order. */
  function PairBridges(seed: Word, asset: AssetId, source: ChainId, target: ChainId, n: nat): seq<BridgeTemplate>
    requires n <= MAX_BRIDGES_PER_PAIR
  {
    if n == 0 then []
    else PairBridges(seed, asset, source, target, n - 1) + [Bridge(seed, asset, source, target, n - 1)]
  }

  /** The bridges of the first `n` ordered pairs: assets outermost, then source chains, then target chains. */
  function Topology(seed: Word, n: nat): seq<BridgeTemplate>
    requires n <= 50
  {
    if n == 0 then []
    else
      var k := n - 1;
      var asset, source, target := ASSETS[k / 25], CHAINS[k / 5 % 5], CHAINS[k % 5];
      Topology(seed, k) + PairBridges(seed, asset, source, target, BridgeCount(seed, asset, source, target))
  }

  lemma {:induction false} PairIsWellFormed(seed: Word, asset: AssetId, source: ChainId, target: ChainId, n: nat)
    requires asset in ASSETS && n <= MAX_BRIDGES_PER_PAIR && (source == target ==> n == 0)
    ensures forall b <- PairBridges(seed, asset, source, target, n) :: WellFormed(b)
  {
    hide Bridge, WellFormed;
    if n > 0 {
      PairIsWellFormed(seed, asset, source, target, n - 1);
      BridgeIsWellFormed(seed, asset, source, target, n - 1);
    }
  }

  lemma {:induction false} TopologyIsWellFormed(seed: Word, n: nat)
    requires n <= 50
    ensures forall b <- Topology(seed, n) :: WellFormed(b)
  {
    hide PairBridges, WellFormed, BridgeCount;
    if n > 0 {
      var k := n - 1;
      var asset, source, target := ASSETS[k / 25], CHAINS[k / 5 % 5], CHAINS[k % 5];
      TopologyIsWellFormed(seed, k);
      PairIsWellFormed(seed, asset, source, target, BridgeCount(seed, asset, source, target));
    }
  }

  method GenerateTopology(seed: Word) returns (topology: seq<BridgeTemplate>)
    ensures topology == Topology(seed, 50) && forall b <- topology :: WellFormed(b)
  {
    hide WellFormed, PairBridges, BridgeCount, Topology;
    TopologyStart(seed);
    TopologyIsWellFormed(seed, 50);
    topology := [];
    for i := 0 to |ASSETS|
      invariant topology == Topology(seed, i * 25)
    {
      for j := 0 to |CHAINS|
        invariant topology == Topology(seed, i * 25 + j * 5)
      {
        for k := 0 to |CHAINS|
          invariant topology == Topology(seed, i * 25 + j * 5 + k)
        {
          TopologyStep(seed, i, j, k);
          var bridges := GeneratePair(seed, ASSETS[i], CHAINS[j], CHAINS[k]);
          topology := topology + bridges;
        }
      }
    }
  }

  lemma TopologyStart(seed: Word)
    ensures Topology(seed, 0) == []
  {
  }

  lemma TopologyStep(seed: Word, i: nat, j: nat, k: nat)
    requires i < 2 && j < 5 && k < 5
    ensures var n, asset, source, target := i * 25 + j * 5 + k, ASSETS[i], CHAINS[j], CHAINS[k];
      Topology(seed, n + 1) ==
        Topology(seed, n) + PairBridges(seed, asset, source, target, BridgeCount(seed, asset, source, target))
  {
    hide PairBridges, BridgeCount;
    Radix(i, j, k);
  }

  lemma Radix(i: nat, j: nat, k: nat)
    requires i < 2 && j < 5 && k < 5
    ensures var n := i * 25 + j * 5 + k; n / 25 == i && n / 5 % 5 == j && n % 5 == k
  {
  }

  method DrawScaled(seed: Word, role: string, pk: Word, av: Word, idx: Word, lo: real, hi: real) returns (r: real)
    requires lo < hi
    ensures r == ScaledDraw(seed, role, pk, av, idx, 0, lo, hi)
  {
    hide Drawn;
    var roll := Draw(seed, role, pk, av, idx, 0);
    r := lo + roll * (hi - lo);
  }

  /** One bridge, roll by roll. */
  method DrawBridge(seed: Word, asset: AssetId, source: ChainId, target: ChainId, idx: Word) returns (b: BridgeTemplate)
    ensures b == Bridge(seed, asset, source, target, idx)
  {
    hide Drawn, PairKey, AssetValue, Slot, ScaledDraw, Money.PrintNat;
    var pk, av := PairKey(source, target), AssetValue(asset);
    var nameRoll := Draw(seed, "bridge.name", pk, av, idx, 0);
    var bridgeName := BRIDGE_NAME_POOL[Slot(nameRoll, |BRIDGE_NAME_POOL|)] + "#" + Money.PrintNat(idx + 1);
    var baseFee := DrawScaled(seed, "bridge.baseFee", pk, av, idx, 0.1, 10.0);
    var baseLatencyMs := DrawScaled(seed, "bridge.baseLatency", pk, av, idx, 200.0, 5000.0);
    var baseLiquidity := DrawScaled(seed, "bridge.baseLiquidity", pk, av, idx, 10000.0, 2000000.0);
    var baseReliability := DrawScaled(seed, "bridge.baseReliability", pk, av, idx, 0.85, 0.999);
    var volatility := DrawScaled(seed, "bridge.volatility", pk, av, idx, 0.05, 0.3);
    b := BridgeTemplate(Node(source, asset), Node(target, asset), bridgeName,
      baseFee, baseLatencyMs, baseLiquidity, baseReliability, volatility, idx);
  }

  method GeneratePair(seed: Word, asset: AssetId, source: ChainId, target: ChainId)
    returns (bridges: seq<BridgeTemplate>)
    ensures bridges == PairBridges(seed, asset, source, target, BridgeCount(seed, asset, source, target))
  {
    hide Bridge, Drawn, PairKey, AssetValue;
    bridges := [];
    if source == target { return; }
    var pk, av := PairKey(source, target), AssetValue(asset);
    var inclusion := Draw(seed, "topo.include", pk, av, 0, 0);
    if inclusion >= PAIR_INCLUSION_PROBABILITY { return; }
    var roll := Draw(seed, "topo.count", pk, av, 0, 0);
    var count := MIN_BRIDGES_PER_PAIR + Slot(roll, MAX_BRIDGES_PER_PAIR - MIN_BRIDGES_PER_PAIR + 1);
    for idx := 0 to count
      invariant bridges == PairBridges(seed, asset, source, target, idx)
    {
      var bridge := DrawBridge(seed, asset, source, target, idx);
      bridges := bridges + [bridge];
    }
  }

  function Noisy(base: real, noise: real, volatility: real): real {
    base + noise * base * volatility
  }

  function TickMetric(seed: Word, b: BridgeTemplate, role: string, base: real, tick: Word, lo: real, hi: real): real {
    var noise := Drawn(seed, role, PairKey(b.source.chain, b.target.chain), AssetValue(b.source.asset), b.bridgeIndex,
      tick) * 2.0 - 1.0;
    Clamp(Noisy(base, noise, b.volatility), lo, hi)
  }

  method DrawMetric(seed: Word, b: BridgeTemplate, role: string, base: real, tick: Word, lo: real, hi: real)
    returns (r: real)
    ensures r == TickMetric(seed, b, role, base, tick, lo, hi)
  {
    hide Drawn, PairKey, AssetValue;
    var pk, av := PairKey(b.source.chain, b.target.chain), AssetValue(b.source.asset);
    var roll := Draw(seed, role, pk, av, b.bridgeIndex, tick);
    var noise := roll * 2.0 - 1.0;
    r := Clamp(base + noise * base * b.volatility, lo, hi);
  }

  /** The four figures of a bridge at a tick. */
  method DrawEdge(seed: Word, tick: Word, b: BridgeTemplate, to: nat) returns (e: Edge)
    ensures e == EdgeTo(seed, tick, b, to)
  {
    hide TickMetric;
    var fee := DrawMetric(seed, b, "tick.fee", b.baseFee, tick, 0.0, MAX_DOUBLE);
    var latencyMs := DrawMetric(seed, b, "tick.latency", b.baseLatencyMs, tick, 1.0, MAX_DOUBLE);
    var liquidity := DrawMetric(seed, b, "tick.liquidity", b.baseLiquidity, tick, 0.0, MAX_DOUBLE);
    var reliability := DrawMetric(seed, b, "tick.reliability", b.baseReliability, tick, 0.0, 1.0);
    e := Edge(to, b.bridgeName, fee, latencyMs, liquidity, reliability);
  }

  const NODE_COUNT: nat := 10

  /** The nodes of every snapshot: assets outermost, then chains. */
  function NodeAt(i: nat): Node
    requires i < NODE_COUNT
  {
    Node(CHAINS[i % 5], ASSETS[i / 5])
  }

  function NodesUpTo(n: nat): (ns: seq<Node>)
    requires n <= NODE_COUNT
    ensures |ns| == n && forall i :: 0 <= i < n ==> ns[i] == NodeAt(i)
  {
    seq(n, i requires 0 <= i < n => NodeAt(i))
  }

  function PlaceOf(n: Node): (i: nat)
    ensures i < NODE_COUNT && (n.asset in ASSETS ==> NodeAt(i) == n)
  {
    AssetIndexOf(n.asset) * 5 + ChainIndex(n.chain)
  }

  lemma Place(i: nat, j: nat)
    requires i < |ASSETS| && j < |CHAINS|
    ensures NodeAt(i * 5 + j) == Node(CHAINS[j], ASSETS[i])
  {
  }

  lemma NodesAreDistinct(i: nat, j: nat)
    requires i < NODE_COUNT && j < NODE_COUNT && NodeAt(i) == NodeAt(j)
    ensures i == j
  {
    assert i == 5 * (i / 5) + i % 5 && j == 5 * (j / 5) + j % 5;
  }

  /** The edge a bridge becomes at a tick, given the place of its target. */
  function EdgeTo(seed: Word, tick: Word, b: BridgeTemplate, to: nat): (e: Edge)
    ensures e.to == to && e.bridgeName == b.bridgeName
  {
    Edge(to, b.bridgeName,
      TickMetric(seed, b, "tick.fee", b.baseFee, tick, 0.0, MAX_DOUBLE),
      TickMetric(seed, b, "tick.latency", b.baseLatencyMs, tick, 1.0, MAX_DOUBLE),
      TickMetric(seed, b, "tick.liquidity", b.baseLiquidity, tick, 0.0, MAX_DOUBLE),
      TickMetric(seed, b, "tick.reliability", b.baseReliability, tick, 0.0, 1.0))
  }

  function EdgeFor(seed: Word, tick: Word, b: BridgeTemplate): Edge {
    EdgeTo(seed, tick, b, PlaceOf(b.target))
  }

  /** The edges out of place `i`: its bridges, in the order of the topology. */
  function EdgesOf(seed: Word, tick: Word, topology: seq<BridgeTemplate>, i: nat): seq<Edge> {
    if topology == [] then []
    else
      var rest, b := topology[..|topology| - 1], topology[|topology| - 1];
      EdgesOf(seed, tick, rest, i) + if PlaceOf(b.source) == i then [EdgeFor(seed, tick, b)] else []
  }

  function Network(seed: Word, tick: Word, topology: seq<BridgeTemplate>): (adj: Adjacency)
    ensures |adj| == NODE_COUNT && forall i :: 0 <= i < NODE_COUNT ==> adj[i] == EdgesOf(seed, tick, topology, i)
  {
    seq(NODE_COUNT, i requires 0 <= i < NODE_COUNT => EdgesOf(seed, tick, topology, i))
  }

  lemma EmptyNetwork(seed: Word, tick: Word)
    ensures Network(seed, tick, []) == seq(NODE_COUNT, _ => [])
  {
  }

  lemma NetworkStep(seed: Word, tick: Word, topology: seq<BridgeTemplate>, k: nat)
    requires k < |topology|
    ensures var adj, b := Network(seed, tick, topology[..k]), topology[k];
      Network(seed, tick, topology[..k + 1]) ==
        adj[PlaceOf(b.source) := adj[PlaceOf(b.source)] + [EdgeFor(seed, tick, b)]]
  {
    hide EdgeFor, PlaceOf;
    var adj, adj', b := Network(seed, tick, topology[..k]), Network(seed, tick, topology[..k + 1]), topology[k];
    assert topology[..k + 1][..k] == topology[..k];
    forall i | 0 <= i < NODE_COUNT
      ensures adj'[i] == adj[PlaceOf(b.source) := adj[PlaceOf(b.source)] + [EdgeFor(seed, tick, b)]][i]
    {
      assert adj'[i] == EdgesOf(seed, tick, topology[..k + 1], i);
    }
  }

  lemma SameAsset(b: BridgeTemplate)
    requires WellFormed(b)
    ensures b.source.asset == b.target.asset
  {
  }

  class NetworkSimulator {
    const seed: Word
    var tick: Word
    const topology: seq<BridgeTemplate>

    ghost predicate Valid() {
      topology == Topology(seed, 50)
    }

    constructor (seed: Word)
      ensures Valid() && this.seed == seed && tick == 0
    {
      hide Topology;
      var generated := GenerateTopology(seed);
      this.seed := seed;
      tick := 0;
      topology := generated;
    }

    /** The counter wraps like the 64-bit word it is. */
    method Tick()
      modifies this
      ensures tick == Add(old(tick), 1)
    {
      tick := Add(tick, 1);
    }

    method AddNext(g: Graph, node: Node, n: nat) returns (index: nat)
      requires g.Valid() && n < NODE_COUNT && node == NodeAt(n) && g.nodes == NodesUpTo(n)
      requires g.adjacency == seq(n, _ => [])
      modifies g
      ensures g.Valid() && g.nodes == NodesUpTo(n + 1) && g.adjacency == seq(n + 1, _ => []) && index == n
    {
      hide NodeAt, g.Valid;
      forall k | 0 <= k < n
        ensures g.nodes[k] != node
      {
        if NodeAt(k) == NodeAt(n) { NodesAreDistinct(k, n); }
      }
      index := g.AddNode(node);
    }

    method AddNodes(g: Graph) returns (nodeIndex: array2<nat>)
      requires g.Valid() && g.nodes == [] && g.adjacency == []
      modifies g
      ensures g.Valid() && g.nodes == NodesUpTo(NODE_COUNT) && g.adjacency == seq(NODE_COUNT, _ => [])
      ensures fresh(nodeIndex) && nodeIndex.Length0 == |ASSETS| && nodeIndex.Length1 == |CHAINS|
      ensures forall i, j :: 0 <= i < |ASSETS| && 0 <= j < |CHAINS| ==> nodeIndex[i, j] == i * 5 + j
    {
      hide g.Valid, NodeAt, NodesUpTo;
      nodeIndex := new nat[|ASSETS|, |CHAINS|];
      assert NodesUpTo(0) == [];
      for i := 0 to |ASSETS|
        invariant g.Valid() && g.nodes == NodesUpTo(i * 5) && g.adjacency == seq(i * 5, _ => [])
        invariant forall x, y :: 0 <= x < i && 0 <= y < |CHAINS| ==> nodeIndex[x, y] == x * 5 + y
      {
        for j := 0 to |CHAINS|
          invariant g.Valid() && g.nodes == NodesUpTo(i * 5 + j) && g.adjacency == seq(i * 5 + j, _ => [])
          invariant forall x, y :: 0 <= x < i && 0 <= y < |CHAINS| ==> nodeIndex[x, y] == x * 5 + y
          invariant forall y :: 0 <= y < j ==> nodeIndex[i, y] == i * 5 + y
        {
          Place(i, j);
          var index := AddNext(g, Node(CHAINS[j], ASSETS[i]), i * 5 + j);
          nodeIndex[i, j] := index;
        }
      }
    }

    /** The network at the current tick. */
    method Snapshot() returns (g: Graph)
      requires Valid()
      ensures fresh(g) && g.Valid() && g.nodes == NodesUpTo(NODE_COUNT) && g.adjacency == Network(seed, tick, topology)
    {
      hide EdgeTo, TickMetric, Topology, EdgesOf, Network, WellFormed, NodeAt;
      EmptyNetwork(seed, tick);
      TopologyIsWellFormed(seed, 50);
      g := new Graph();
      var nodeIndex := AddNodes(g);
      assert topology[..0] == [];
      for k := 0 to |topology|
        invariant g.Valid() && g.nodes == NodesUpTo(NODE_COUNT) && g.adjacency == Network(seed, tick, topology[..k])
        invariant forall i, j :: 0 <= i < |ASSETS| && 0 <= j < |CHAINS| ==> nodeIndex[i, j] == i * 5 + j
      {
        var b := topology[k];
        var from := nodeIndex[AssetIndexOf(b.source.asset), ChainIndex(b.source.chain)];
        var to := nodeIndex[AssetIndexOf(b.source.asset), ChainIndex(b.target.chain)];
        SameAsset(b);
        NetworkStep(seed, tick, topology, k);
        var edge := DrawEdge(seed, tick, b, to);
        var _ := g.AddEdge(from, edge);
      }
      assert topology[..|topology|] == topology;
    }
  }

  // ---- What every snapshot guarantees ----

  /** Noise moves a metric by at most its volatility. */
  lemma MetricRange(seed: Word, b: BridgeTemplate, role: string, base: real, tick: Word, lo: real, hi: real)
    requires base > 0.0 && 0.0 <= b.volatility < 0.3 && lo <= hi && 0.0 < hi
    ensures lo <= TickMetric(seed, b, role, base, tick, lo, hi) <= hi
    ensures TickMetric(seed, b, role, base, tick, lo, hi) > 0.0
    ensures lo <= base <= hi ==> Near(TickMetric(seed, b, role, base, tick, lo, hi), base, b.volatility)
  {
    hide Drawn, PairKey, AssetValue, Noisy, Near;
    var noise := Drawn(seed, role, PairKey(b.source.chain, b.target.chain), AssetValue(b.source.asset), b.bridgeIndex,
      tick) * 2.0 - 1.0;
    NoisyIsPositive(base, noise, b.volatility);
    NoiseIsBounded(base, noise, b.volatility);
    if lo <= base <= hi { ClampStaysNear(Noisy(base, noise, b.volatility), base, b.volatility, lo, hi); }
  }

  lemma ProductIsPositive(x: real, y: real)
    requires x > 0.0 && y > 0.0
    ensures x * y > 0.0
  {
  }

  lemma ProductIsNonNegative(x: real, y: real)
    requires x >= 0.0 && y >= 0.0
    ensures x * y >= 0.0
  {
  }

  lemma OneMore(x: real, y: real)
    ensures (x + 1.0) * y == x * y + y && y * (1.0 + x) == y + y * x
  {
  }

  lemma Reorders(x: real, y: real, z: real)
    ensures x * y * z == y * (x * z)
  {
  }

  /** `x` is at most `part` of `base` away from it. */
  ghost predicate Near(x: real, base: real, part: real) {
    base - part * base <= x <= base + part * base
  }

  lemma NoiseIsBounded(base: real, noise: real, volatility: real)
    requires base > 0.0 && -1.0 <= noise < 1.0 && 0.0 <= volatility
    ensures Near(Noisy(base, noise, volatility), base, volatility)
  {
    var most := volatility * base;
    ProductIsNonNegative(volatility, base);
    ProductIsNonNegative(noise + 1.0, most);
    OneMore(noise, most);
    var below, above := (noise + 1.0) * most, (1.0 - noise) * most;
    ProductIsNonNegative(1.0 - noise, most);
    OneLess(noise, most);
    Reassociates(noise, base, volatility);
    assert below >= 0.0 && above >= 0.0;
    assert below == noise * most + most && above == most - noise * most;
  }

  lemma OneLess(x: real, y: real)
    ensures (1.0 - x) * y == y - x * y
  {
  }

  lemma Reassociates(x: real, y: real, z: real)
    ensures x * y * z == x * (z * y)
  {
  }

  /** Cutting a value off at bounds around the base does not move it away from the base. */
  lemma ClampStaysNear(x: real, base: real, part: real, lo: real, hi: real)
    requires Near(x, base, part) && lo <= base <= hi
    ensures Near(Clamp(x, lo, hi), base, part)
  {
  }

  lemma SwingIsSmall(noise: real, volatility: real)
    requires -1.0 <= noise && 0.0 <= volatility < 0.3
    ensures noise * volatility > -0.3
  {
    var shifted := (noise + 1.0) * volatility;
    ProductIsNonNegative(noise + 1.0, volatility);
    OneMore(noise, volatility);
    assert shifted >= 0.0;
    assert shifted == noise * volatility + volatility;
  }

  lemma NoisyIsPositive(base: real, noise: real, volatility: real)
    requires base > 0.0 && -1.0 <= noise < 1.0 && 0.0 <= volatility < 0.3
    ensures Noisy(base, noise, volatility) > 0.0
  {
    var swing := noise * volatility;
    SwingIsSmall(noise, volatility);
    ProductIsPositive(base, 1.0 + swing);
    OneMore(swing, base);
    Reorders(noise, base, volatility);
  }

  /** An edge of the network at place `u`: positive fee, sane metrics, and the same asset at both ends. */
  ghost predicate SoundEdge(u: nat, e: Edge) {
    && u < NODE_COUNT && e.to < NODE_COUNT
    && e.fee > 0.0 && e.latencyMs >= 1.0 && e.liquidity > 0.0 && 0.0 < e.reliability <= 1.0
    && NodeAt(u).asset == NodeAt(e.to).asset && NodeAt(u).chain != NodeAt(e.to).chain
  }

  /** The edge is this bridge: its name, and each figure within the bridge's volatility of its own base. */
  ghost predicate IsBridge(e: Edge, b: BridgeTemplate) {
    && e.bridgeName == b.bridgeName
    && Near(e.fee, b.baseFee, b.volatility) && Near(e.latencyMs, b.baseLatencyMs, b.volatility)
    && Near(e.liquidity, b.baseLiquidity, b.volatility) && Near(e.reliability, b.baseReliability, b.volatility)
  }

  lemma MaxDoubleIsLarge()
    ensures MAX_DOUBLE > 2000000.0
  {
  }

  lemma BridgeEdgeIsSound(seed: Word, tick: Word, b: BridgeTemplate)
    requires WellFormed(b)
    ensures NodeAt(PlaceOf(b.source)) == b.source && NodeAt(EdgeFor(seed, tick, b).to) == b.target
    ensures SoundEdge(PlaceOf(b.source), EdgeFor(seed, tick, b)) && IsBridge(EdgeFor(seed, tick, b), b)
  {
    hide TickMetric, PlaceOf, NodeAt, Near;
    MaxDoubleIsLarge();
    MetricRange(seed, b, "tick.fee", b.baseFee, tick, 0.0, MAX_DOUBLE);
    MetricRange(seed, b, "tick.latency", b.baseLatencyMs, tick, 1.0, MAX_DOUBLE);
    MetricRange(seed, b, "tick.liquidity", b.baseLiquidity, tick, 0.0, MAX_DOUBLE);
    MetricRange(seed, b, "tick.reliability", b.baseReliability, tick, 0.0, 1.0);
  }

  /** Every edge out of a place is a bridge from that place's own chain and asset. */
  lemma {:induction false} EdgesAreSound(seed: Word, tick: Word, topology: seq<BridgeTemplate>, u: nat)
    requires u < NODE_COUNT && forall b <- topology :: WellFormed(b)
    ensures forall e <- EdgesOf(seed, tick, topology, u) ::
      SoundEdge(u, e) && exists b ::
        b in topology && b.source == NodeAt(u) && b.target == NodeAt(e.to) && IsBridge(e, b)
  {
    hide WellFormed, SoundEdge, PlaceOf, NodeAt, EdgeTo, IsBridge;
    if topology != [] {
      var rest, b := topology[..|topology| - 1], topology[|topology| - 1];
      EdgesAreSound(seed, tick, rest, u);
      BridgeEdgeIsSound(seed, tick, b);
    }
  }

  /** For every seed and tick, the network meets the route search's precondition, for every amount. */
  lemma SnapshotIsTame(seed: Word, tick: Word, amount: real)
    ensures var adj := Network(seed, tick, Topology(seed, 50));
      Tame(adj, amount) && Closed(adj) && forall u, k :: 0 <= u < |adj| && 0 <= k < |adj[u]| ==> SoundEdge(u, adj[u][k])
  {
    hide WellFormed, Topology, EdgesOf, NodeAt;
    TopologyIsWellFormed(seed, 50);
    var topology := Topology(seed, 50);
    var adj := Network(seed, tick, topology);
    forall u, k | 0 <= u < |adj| && 0 <= k < |adj[u]|
      ensures SoundEdge(u, adj[u][k])
    {
      EdgesAreSound(seed, tick, topology, u);
      assert adj[u][k] in EdgesOf(seed, tick, topology, u);
    }
  }

  /** No walk through the network ever changes the asset. */
  lemma {:induction false} WalksKeepAsset(seed: Word, tick: Word, amount: real, from: nat, w: seq<Edge>, to: nat)
    requires from < NODE_COUNT && IsWalk(Network(seed, tick, Topology(seed, 50)), amount, from, w, to)
    ensures to < NODE_COUNT && NodeAt(to).asset == NodeAt(from).asset
    decreases |w|
  {
    hide Topology, EdgesOf, NodeAt, Network;
    var adj := Network(seed, tick, Topology(seed, 50));
    if w != [] {
      SnapshotIsTame(seed, tick, amount);
      var k :| 0 <= k < |adj[from]| && adj[from][k] == w[0];
      assert SoundEdge(from, adj[from][k]);
      WalksKeepAsset(seed, tick, amount, w[0].to, w[1..], to);
    }
  }
}
