/** The routing graph (router/src/graph.cpp): nodes are (chain, asset) pairs, edges are bridges. */
module RoutingGraph {
  import opened Common

  datatype ChainId = Ethereum | Base | Arbitrum | Optimism | Polygon

  datatype AssetId = USDC | USDT | ETH | WBTC | DAI

  datatype Node = Node(chain: ChainId, asset: AssetId)

  /** Money and metrics are exact reals; the source stores them as doubles. */
  datatype Edge = Edge(to: nat, bridgeName: string, fee: real, latencyMs: real, liquidity: real, reliability: real)

  datatype GraphError = OutOfRange

  type Adjacency = seq<seq<Edge>>

  /** Every edge ends at a node of the graph. */
  ghost predicate Closed(adj: Adjacency) {
    forall u, k :: 0 <= u < |adj| && 0 <= k < |adj[u]| ==> adj[u][k].to < |adj|
  }

  class Graph {
    var nodes: seq<Node>
    var nodeIndex: map<Node, nat>
    var adjacency: Adjacency

    /** `nodeIndex` is exactly the inverse of `nodes`, and adjacency lists stay inside the node range. */
    ghost predicate Valid()
      reads this
    {
      && |adjacency| == |nodes|
      && (forall n :: n in nodeIndex ==> nodeIndex[n] < |nodes| && nodes[nodeIndex[n]] == n)
      && (forall i :: 0 <= i < |nodes| ==> nodes[i] in nodeIndex && nodeIndex[nodes[i]] == i)
      && Closed(adjacency)
    }

    constructor ()
      ensures Valid() && nodes == [] && adjacency == []
    {
      nodes, nodeIndex, adjacency := [], map[], [];
    }

    method FindNode(node: Node) returns (r: Option<nat>)
      requires Valid()
      ensures r.Some? <==> node in nodes
      ensures r.Some? ==> r.value < |nodes| && nodes[r.value] == node
      ensures forall i :: 0 <= i < |nodes| && nodes[i] == node ==> r == Some(i)
    {
      if node in nodeIndex {
        r := Some(nodeIndex[node]);
      } else {
        r := None;
      }
    }

    /** Adding a node twice is a lookup; adding a new one appends it with no edges and renumbers nothing. */
    method AddNode(node: Node) returns (index: nat)
      requires Valid()
      modifies this
      ensures Valid()
      ensures index < |nodes| && nodes[index] == node
      ensures if node in old(nodes)
              then nodes == old(nodes) && adjacency == old(adjacency)
              else nodes == old(nodes) + [node] && adjacency == old(adjacency) + [[]]
    {
      var existing := FindNode(node);
      if existing.Some? {
        return existing.value;
      }
      nodes := nodes + [node];
      adjacency := adjacency + [[]];
      index := |nodes| - 1;
      nodeIndex := nodeIndex[node := index];
    }

    method AddEdge(from: nat, edge: Edge) returns (r: Result<(), GraphError>)
      requires Valid()
      modifies this`adjacency
      ensures Valid()
      ensures r.Ok? <==> from < |nodes| && edge.to < |nodes|
      ensures r.Ok? ==> adjacency == old(adjacency)[from := old(adjacency)[from] + [edge]]
      ensures r.Err? ==> adjacency == old(adjacency)
    {
      if from >= |nodes| || edge.to >= |nodes| {
        return Err(OutOfRange);
      }
      adjacency := adjacency[from := adjacency[from] + [edge]];
      r := Ok(());
    }

    method EdgesFrom(index: nat) returns (r: Result<seq<Edge>, GraphError>)
      requires Valid()
      ensures r.Ok? <==> index < |nodes|
      ensures r.Ok? ==> r.value == adjacency[index] && forall i :: 0 <= i < |r.value| ==> r.value[i].to < |nodes|
    {
      r := if index < |nodes| then Ok(adjacency[index]) else Err(OutOfRange);
    }
  }
}
