/** The routing service (cpp-routing-service/src/routing_service.cpp). */
module RoutingService {
  import opened Common
  import opened RoutingGraph
  import opened Routes
  import opened NetworkSimulation
  import opened SearchSteps
  import Dijkstra

  datatype CandidateEdge =
    CandidateEdge(bridgeName: string, fee: real, latencyMs: real, liquidity: real, reliability: real)

  datatype RouteHop = RouteHop(
    fromChain: ChainId, toChain: ChainId, bridgeName: string,
    fee: real, latencyMs: real, liquidity: real, reliability: real)

  /** Chains and assets the wire format could not name arrive as `None`. */
  datatype FindRouteRequest = FindRouteRequest(
    source: Option<ChainId>, destination: Option<ChainId>, asset: Option<AssetId>,
    amount: real, candidates: seq<CandidateEdge>)

  datatype FindRouteResponse = FindRouteResponse(routeFound: bool, totalFee: real, hops: seq<RouteHop>)

  datatype RpcError = InvalidSourceChain | InvalidDestinationChain | InvalidAsset | AmountNotPositive | NodeNotPresent

  function EdgeOf(c: CandidateEdge, to: nat): Edge {
    Edge(to, c.bridgeName, c.fee, c.latencyMs, c.liquidity, c.reliability)
  }

  function EdgesFor(cs: seq<CandidateEdge>, to: nat): (es: seq<Edge>)
    ensures |es| == |cs| && forall i :: 0 <= i < |cs| ==> es[i] == EdgeOf(cs[i], to)
  {
    seq(|cs|, i requires 0 <= i < |cs| => EdgeOf(cs[i], to))
  }

  /**
   * The candidate graph: parallel edges from the source to the destination,
   * in the order given; a loop when the two are the same.
   */
  function CandidateNetwork(source: ChainId, destination: ChainId, cs: seq<CandidateEdge>): Adjacency {
    if source == destination then [EdgesFor(cs, 0)] else [EdgesFor(cs, 1), []]
  }

  function CandidateNodes(source: ChainId, destination: ChainId, asset: AssetId): seq<Node> {
    if source == destination then [Node(source, asset)] else [Node(source, asset), Node(destination, asset)]
  }

  method BuildGraphFromCandidates(source: ChainId, destination: ChainId, asset: AssetId, cs: seq<CandidateEdge>)
    returns (g: Graph)
    ensures fresh(g) && g.Valid()
    ensures g.nodes == CandidateNodes(source, destination, asset)
    ensures g.adjacency == CandidateNetwork(source, destination, cs)
  {
    hide CandidateNetwork, EdgesFor, g.Valid;
    var s, d;
    g, s, d := StartCandidates(source, destination, asset);
    NoCandidates(source, destination);
    assert cs[..0] == [];
    for i := 0 to |cs|
      invariant g.Valid() && g.nodes == CandidateNodes(source, destination, asset)
      invariant g.adjacency == CandidateNetwork(source, destination, cs[..i])
    {
      var _ := g.AddEdge(s, EdgeOf(cs[i], d));
      OneMoreCandidate(source, destination, cs, i);
    }
    assert cs[..|cs|] == cs;
  }

  method StartCandidates(source: ChainId, destination: ChainId, asset: AssetId) returns (g: Graph, s: nat, d: nat)
    ensures fresh(g) && g.Valid() && g.nodes == CandidateNodes(source, destination, asset)
    ensures g.adjacency == if source == destination then [[]] else [[], []]
    ensures s == 0 && d == if source == destination then 0 else 1
  {
    hide g.Valid;
    g := new Graph();
    s := g.AddNode(Node(source, asset));
    d := g.AddNode(Node(destination, asset));
  }

  lemma NoCandidates(source: ChainId, destination: ChainId)
    ensures CandidateNetwork(source, destination, []) == if source == destination then [[]] else [[], []]
  {
  }

  lemma OneMoreCandidate(source: ChainId, destination: ChainId, cs: seq<CandidateEdge>, i: nat)
    requires i < |cs|
    ensures var adj, d := CandidateNetwork(source, destination, cs[..i]), if source == destination then 0 else 1;
      CandidateNetwork(source, destination, cs[..i + 1]) == adj[0 := adj[0] + [EdgeOf(cs[i], d)]]
  {
    var d := if source == destination then 0 else 1;
    assert EdgesFor(cs[..i + 1], d) == EdgesFor(cs[..i], d) + [EdgeOf(cs[i], d)];
  }

  /** With two different chains, fees may have any sign. */
  lemma CandidatesAreTame(source: ChainId, destination: ChainId, cs: seq<CandidateEdge>, amount: real)
    requires source != destination || forall c <- cs :: c.liquidity >= amount ==> c.fee >= 0.0
    ensures Tame(CandidateNetwork(source, destination, cs), amount) && Closed(CandidateNetwork(source, destination, cs))
  {
    if source == destination {
      var es := EdgesFor(cs, 0);
      assert forall i :: 0 <= i < |es| ==> es[i].fee == cs[i].fee && es[i].liquidity == cs[i].liquidity && cs[i] in cs;
    }
  }

  /** The hops of a route, from place `from` on. */
  function HopsOf(nodes: seq<Node>, from: nat, edges: seq<Edge>): (hops: seq<RouteHop>)
    requires from < |nodes| && forall e <- edges :: e.to < |nodes|
    ensures |hops| == |edges|
    decreases |edges|
  {
    if edges == [] then []
    else [HopOf(nodes, from, edges[0])] + HopsOf(nodes, edges[0].to, edges[1..])
  }

  function HopOf(nodes: seq<Node>, from: nat, e: Edge): RouteHop
    requires from < |nodes| && e.to < |nodes|
  {
    RouteHop(nodes[from].chain, nodes[e.to].chain, e.bridgeName, e.fee, e.latencyMs, e.liquidity, e.reliability)
  }

  ghost function HopFees(hops: seq<RouteHop>): real {
    if hops == [] then 0.0 else hops[0].fee + HopFees(hops[1..])
  }

  /** The hops lead from chain to chain without a gap, and their fees add up to the total. */
  ghost predicate Linked(hops: seq<RouteHop>, source: ChainId, destination: ChainId) {
    if hops == [] then source == destination
    else hops[0].fromChain == source && Linked(hops[1..], hops[0].toChain, destination)
  }

  lemma {:induction false} HopsAreLinked(nodes: seq<Node>, adj: Adjacency, amount: real, from: nat, edges: seq<Edge>,
                                         to: nat)
    requires |nodes| == |adj| && Closed(adj) && from < |nodes| && IsWalk(adj, amount, from, edges, to)
    ensures to < |nodes| && forall e <- edges :: e.to < |nodes|
    ensures Linked(HopsOf(nodes, from, edges), nodes[from].chain, nodes[to].chain)
    ensures HopFees(HopsOf(nodes, from, edges)) == TotalFee(edges)
    decreases |edges|
  {
    if edges != [] {
      var k :| 0 <= k < |adj[from]| && adj[from][k] == edges[0];
      HopsAreLinked(nodes, adj, amount, edges[0].to, edges[1..], to);
      var hops := HopsOf(nodes, from, edges);
      assert hops[1..] == HopsOf(nodes, edges[0].to, edges[1..]);
    }
  }

  method BuildHops(g: Graph, source: nat, edges: seq<Edge>) returns (hops: seq<RouteHop>)
    requires g.Valid() && source < |g.nodes| && forall e <- edges :: e.to < |g.nodes|
    ensures hops == HopsOf(g.nodes, source, edges)
  {
    hops := [];
    var current: nat := source;
    for i := 0 to |edges|
      invariant current < |g.nodes|
      invariant hops + HopsOf(g.nodes, current, edges[i..]) == HopsOf(g.nodes, source, edges)
    {
      assert edges[i..][1..] == edges[i + 1..];
      hops := hops + [HopOf(g.nodes, current, edges[i])];
      current := edges[i].to;
    }
  }

  ghost function NetworkOf(sim: NetworkSimulator, r: FindRouteRequest): Adjacency
    requires r.source.Some? && r.destination.Some?
    reads sim
  {
    if r.candidates != [] then CandidateNetwork(r.source.value, r.destination.value, r.candidates)
    else Network(sim.seed, sim.tick, sim.topology)
  }

  ghost function PlaceIn(r: FindRouteRequest, chain: ChainId): nat
    requires r.source.Some? && r.asset.Some?
  {
    if r.candidates == [] then PlaceOf(Node(chain, r.asset.value)) else if chain == r.source.value then 0 else 1
  }

  /** What is wrong with a request, in the order it is checked; the simulated network only knows two assets. */
  function Rejection(r: FindRouteRequest): Option<RpcError> {
    if r.source.None? then Some(InvalidSourceChain)
    else if r.destination.None? then Some(InvalidDestinationChain)
    else if r.asset.None? then Some(InvalidAsset)
    else if r.amount <= 0.0 then Some(AmountNotPositive)
    else if r.candidates == [] && r.asset.value !in ASSETS then Some(NodeNotPresent)
    else None
  }

  /**
   * What a request must meet for its search to end: it is rejected before the search, or its chains differ,
   * or no candidate that carries the amount has a negative fee.
   */
  predicate Terminates(r: FindRouteRequest) {
    || Rejection(r).Some? || r.source != r.destination
    || forall c <- r.candidates :: c.liquidity >= r.amount ==> c.fee >= 0.0
  }

  lemma NetworkIsTame(sim: NetworkSimulator, r: FindRouteRequest)
    requires sim.Valid() && Rejection(r).None? && Terminates(r)
    ensures Tame(NetworkOf(sim, r), r.amount) && Closed(NetworkOf(sim, r))
  {
    hide Tame, Network, Topology, CandidateNetwork, Closed;
    if r.candidates == [] {
      SnapshotIsTame(sim.seed, sim.tick, r.amount);
    } else {
      CandidatesAreTame(r.source.value, r.destination.value, r.candidates, r.amount);
    }
  }

  /** The request's search comes to an end, or is never started. */
  ghost predicate Answers(sim: NetworkSimulator, r: FindRouteRequest)
    reads sim
  {
    Rejection(r).Some? || Halts(NetworkOf(sim, r), r.amount, PlaceIn(r, r.source.value))
  }

  lemma SourceIsPlaced(sim: NetworkSimulator, r: FindRouteRequest)
    requires Rejection(r).None?
    ensures PlaceIn(r, r.source.value) < |NetworkOf(sim, r)|
  {
    hide Network, EdgesFor;
  }

  /** A loop that loses money, as the step relation sees it. */
  lemma LosingRequest(r: FindRouteRequest)
    requires Rejection(r).None? && !Terminates(r)
    ensures r.candidates != []
    ensures CandidateNetwork(r.source.value, r.destination.value, r.candidates) == [EdgesFor(r.candidates, 0)]
    ensures Loops(EdgesFor(r.candidates, 0)) && LosesMoney(EdgesFor(r.candidates, 0), r.amount)
  {
    var c :| c in r.candidates && c.liquidity >= r.amount && c.fee < 0.0;
    var i :| 0 <= i < |r.candidates| && r.candidates[i] == c;
    var es := EdgesFor(r.candidates, 0);
    assert Eligible(es[i], r.amount) && es[i].fee < 0.0;
  }

  /** A request is answered if and only if it meets that condition; otherwise its search goes on forever. */
  lemma AnsweredExactlyWhen(sim: NetworkSimulator, r: FindRouteRequest)
    requires sim.Valid()
    ensures Answers(sim, r) <==> Terminates(r)
  {
    hide Network, Tame, Closed, Terminates, IsRun, CandidateNetwork, Loops, LosesMoney, sim.Valid;
    if Rejection(r).None? {
      if Terminates(r) {
        NetworkIsTame(sim, r);
        SourceIsPlaced(sim, r);
        Dijkstra.TameHalts(NetworkOf(sim, r), r.amount, PlaceIn(r, r.source.value));
      } else {
        LosingRequest(r);
        forall run: seq<Config>, pops: seq<Entry> | IsRun(NetworkOf(sim, r), r.amount, 0, run, pops)
          ensures |run| == |pops| + 1 && run[|pops|].heap != multiset{}
        {
          NegativeLoopNeverEnds(EdgesFor(r.candidates, 0), r.amount, run, pops);
        }
      }
    } else {
      RejectedTerminates(r);
    }
  }

  lemma RejectedTerminates(r: FindRouteRequest)
    requires Rejection(r).Some?
    ensures Terminates(r)
  {
  }

  /** The cheapest route between the two chains, hop by hop. `edges` is the route found. */
  method FindRoute(sim: NetworkSimulator, r: FindRouteRequest)
    returns (reply: Result<FindRouteResponse, RpcError>, ghost edges: seq<Edge>)
    requires sim.Valid() && Terminates(r)
    ensures reply.Err? <==> Rejection(r).Some?
    ensures reply.Err? ==> reply.error == Rejection(r).value
    ensures reply == Err(InvalidSourceChain) <==> r.source.None?
    ensures reply == Err(InvalidDestinationChain) <==> r.source.Some? && r.destination.None?
    ensures reply == Err(InvalidAsset) <==> r.source.Some? && r.destination.Some? && r.asset.None?
    ensures reply == Err(AmountNotPositive) <==>
      r.source.Some? && r.destination.Some? && r.asset.Some? && r.amount <= 0.0
    ensures reply == Err(NodeNotPresent) <==>
      && r.source.Some? && r.destination.Some? && r.asset.Some? && r.amount > 0.0
      && r.candidates == [] && r.asset != Some(USDC) && r.asset != Some(ETH)
    ensures reply.Ok? ==>
      var adj, s, d := NetworkOf(sim, r), PlaceIn(r, r.source.value), PlaceIn(r, r.destination.value);
      && (reply.value.routeFound <==> Reachable(adj, r.amount, s, d))
      && (!reply.value.routeFound ==> reply.value == FindRouteResponse(false, 0.0, []))
      && (reply.value.routeFound ==>
        && Cheapest(adj, r.amount, s, edges, d) && Canonical(adj, r.amount, s, edges)
        && reply.value.totalFee == TotalFee(edges)
        && |reply.value.hops| == |edges| && HopFees(reply.value.hops) == reply.value.totalFee
        && Linked(reply.value.hops, r.source.value, r.destination.value)
        && forall i :: 0 <= i < |edges| ==> Shows(reply.value.hops[i], edges[i], r.amount))
  {
    hide Tame, Network, Topology, Reachable, Canonical, TotalFee, Cheapest, IsWalk, Linked, HopFees, HopsOf, PlaceOf,
      CandidateNetwork, NodeAt, Shows;
    edges := [];
    if r.source.None? { return Err(InvalidSourceChain), []; }
    if r.destination.None? { return Err(InvalidDestinationChain), []; }
    if r.asset.None? { return Err(InvalidAsset), []; }
    if !(r.amount > 0.0) { return Err(AmountNotPositive), []; }
    var source, destination := Node(r.source.value, r.asset.value), Node(r.destination.value, r.asset.value);
    var g: Graph;
    if |r.candidates| > 0 {
      g := BuildGraphFromCandidates(r.source.value, r.destination.value, r.asset.value, r.candidates);
    } else {
      g := sim.Snapshot();
    }
    PlacesAre(r, source);
    PlacesAre(r, destination);
    var s := g.FindNode(source);
    var d := g.FindNode(destination);
    if s.None? || d.None? { return Err(NodeNotPresent), []; }
    NetworkIsTame(sim, r);
    var found, _, _ := Dijkstra.FindCheapestRoute(g, s.value, d.value, r.amount);
    if found.value.None? { return Ok(FindRouteResponse(false, 0.0, [])), []; }
    var route := found.value.value;
    edges := route.edges;
    RouteFacts(g, r.amount, s.value, edges, d.value);
    var hops := BuildHops(g, s.value, route.edges);
    reply := Ok(FindRouteResponse(true, route.totalFee, hops));
  }

  lemma RouteFacts(g: Graph, amount: real, s: nat, edges: seq<Edge>, d: nat)
    requires g.Valid() && s < |g.nodes| && d < |g.nodes| && Cheapest(g.adjacency, amount, s, edges, d)
    ensures Reachable(g.adjacency, amount, s, d) && forall e <- edges :: e.to < |g.nodes|
    ensures Linked(HopsOf(g.nodes, s, edges), g.nodes[s].chain, g.nodes[d].chain)
    ensures HopFees(HopsOf(g.nodes, s, edges)) == TotalFee(edges)
    ensures forall i :: 0 <= i < |edges| ==> Shows(HopsOf(g.nodes, s, edges)[i], edges[i], amount)
  {
    hide IsWalk, Linked, HopFees, HopsOf, TotalFee, Shows;
    HopsAreLinked(g.nodes, g.adjacency, amount, s, edges, d);
    HopsShow(g.nodes, g.adjacency, amount, s, edges, d);
  }

  /** The hop carries the amount, and shows the bridge it uses with all its figures. */
  ghost predicate Shows(hop: RouteHop, e: Edge, amount: real) {
    && hop.bridgeName == e.bridgeName && hop.fee == e.fee && hop.latencyMs == e.latencyMs
    && hop.liquidity == e.liquidity && hop.reliability == e.reliability && hop.liquidity >= amount
  }

  lemma {:induction false} HopsShow(nodes: seq<Node>, adj: Adjacency, amount: real, from: nat, edges: seq<Edge>,
                                    to: nat)
    requires from < |nodes| && (forall e <- edges :: e.to < |nodes|) && IsWalk(adj, amount, from, edges, to)
    ensures forall i :: 0 <= i < |edges| ==> Shows(HopsOf(nodes, from, edges)[i], edges[i], amount)
    decreases |edges|
  {
    if edges != [] {
      HopsShow(nodes, adj, amount, edges[0].to, edges[1..], to);
      var hops := HopsOf(nodes, from, edges);
      forall i | 0 <= i < |edges|
        ensures Shows(hops[i], edges[i], amount)
      {
        if i > 0 { assert hops[i] == HopsOf(nodes, edges[0].to, edges[1..])[i - 1] && edges[i] == edges[1..][i - 1]; }
      }
    }
  }

  /** Where a node of the request is, in the graph the request is routed on. */
  lemma PlacesAre(r: FindRouteRequest, n: Node)
    requires r.source.Some? && r.destination.Some? && r.asset.Some? && n.asset == r.asset.value
    requires n.chain == r.source.value || n.chain == r.destination.value
    ensures r.candidates == [] ==>
      && (n.asset in ASSETS <==> n in NodesUpTo(NODE_COUNT))
      && (n.asset in ASSETS ==> NodesUpTo(NODE_COUNT)[PlaceIn(r, n.chain)] == n)
    ensures r.candidates != [] ==>
      var nodes := CandidateNodes(r.source.value, r.destination.value, r.asset.value);
      PlaceIn(r, n.chain) < |nodes| && nodes[PlaceIn(r, n.chain)] == n
  {
    assert n.asset in ASSETS ==> NodesUpTo(NODE_COUNT)[PlaceOf(n)] == n;
    if r.candidates == [] && n in NodesUpTo(NODE_COUNT) {
      var i :| 0 <= i < NODE_COUNT && NodesUpTo(NODE_COUNT)[i] == n;
      assert NodeAt(i) == n;
    }
  }
}
