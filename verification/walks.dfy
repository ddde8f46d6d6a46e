/**
 * What the two planners share: the node lookup by id, the endpoints a walk
 * may start from, the key under which a walked edge is remembered, the test
 * for a neighbour a walk may still step to, and the measure that makes every
 * walk finite.
 */
module Walks {
  import opened Wrappers
  import opened Seqs
  import opened Text
  import opened Graphs
  import opened NodeTypes

  /** An edge remembered in `visited_edges`: its two ends in sorted order. */
  type EdgeKey = (string, string)

  /**
   * `{node.id: node for node in nodes}`: one entry per id, holding the last
   * node of the list that carries it.
   */
  function ById(nodes: seq<NodeInfo>): (r: map<string, NodeInfo>)
    ensures r.Keys == set n | n in nodes :: n.id
    ensures forall k :: k in r ==> r[k].id == k && r[k] in nodes
  {
    if nodes == [] then map[]
    else
      var init := nodes[..|nodes| - 1];
      var last := nodes[|nodes| - 1];
      assert nodes == init + [last];
      assert (set n | n in nodes :: n.id) == (set n | n in init :: n.id) + {last.id};
      ById(init)[last.id := last]
  }

  /** The entry of an id is the last node of the list that carries it. */
  lemma {:induction false} ByIdLast(nodes: seq<NodeInfo>, i: int)
    requires 0 <= i < |nodes|
    requires forall j :: i < j < |nodes| ==> nodes[j].id != nodes[i].id
    ensures ById(nodes)[nodes[i].id] == nodes[i]
  {
    var init := nodes[..|nodes| - 1];
    if i < |nodes| - 1 {
      ByIdLast(init, i);
    }
  }

  /** Every node of the list is a node of the graph. */
  predicate Covered(g: PipeGraph, nodes: seq<NodeInfo>) {
    forall n :: n in nodes ==> n.id in g.nodeData
  }

  /**
   * A graph and a lookup a walk can run on: every edge carries data, and
   * every node looked up is a node of the graph.
   */
  ghost predicate Fits(g: PipeGraph, byId: map<string, NodeInfo>) {
    && (forall n, m :: Adjacent(g, n, m) ==> m in g.adj && Edge(n, m) in g.attrs)
    && (forall k :: k in byId ==> byId[k].id == k && k in g.adj)
  }

  /** The lookup of a list of nodes of a well-formed graph fits the graph. */
  lemma CoveredFits(g: PipeGraph, nodes: seq<NodeInfo>)
    requires Valid(g) && Covered(g, nodes)
    ensures Fits(g, ById(nodes))
  {
  }

  /** The nodes a planner starts from: the endpoints, in list order. */
  function Starts(nodes: seq<NodeInfo>): (r: seq<NodeInfo>)
    ensures forall n :: n in r <==> n in nodes && n.kind.Endpoint?
  {
    Filter(nodes, (n: NodeInfo) => n.kind.Endpoint?)
  }

  /** The elements of `ns` the walk may step to from `id`, in their order. */
  function OpenAmong(id: string, prev: Option<string>, visited: set<EdgeKey>, ns: seq<string>): seq<string> {
    if ns == [] then []
    else (if Some(ns[0]) != prev && SortedPair(id, ns[0]) !in visited then [ns[0]] else []) + OpenAmong(id, prev, visited, ns[1..])
  }

  /** Exactly the open elements are kept. */
  lemma {:induction false} OpenAmongMembers(id: string, prev: Option<string>, visited: set<EdgeKey>, ns: seq<string>)
    ensures forall n :: n in OpenAmong(id, prev, visited, ns) <==> n in ns && Some(n) != prev && SortedPair(id, n) !in visited
  {
    if ns != [] {
      OpenAmongMembers(id, prev, visited, ns[1..]);
    }
  }

  /** The first open element is the first element of `ns` that is open. */
  lemma {:induction false} OpenAmongFirst(id: string, prev: Option<string>, visited: set<EdgeKey>, ns: seq<string>, j: int)
    requires 0 <= j < |ns| && Some(ns[j]) != prev && SortedPair(id, ns[j]) !in visited
    requires forall i :: 0 <= i < j ==> Some(ns[i]) == prev || SortedPair(id, ns[i]) in visited
    ensures OpenAmong(id, prev, visited, ns) != [] && OpenAmong(id, prev, visited, ns)[0] == ns[j]
  {
    if j > 0 {
      OpenAmongFirst(id, prev, visited, ns[1..], j - 1);
    }
  }

  /** `if next_node_id:`: no neighbour, and a neighbour whose id is empty, both end the walk. */
  predicate Truthy(id: Option<string>) {
    id.Some? && id.value != ""
  }

  /** The keys of all edges of the graph. */
  function Keys(g: PipeGraph): set<EdgeKey> {
    set n, m | n in g.adj && m in g.adj[n] :: SortedPair(n, m)
  }

  /** The key of an edge of the graph is one of its keys. */
  lemma KeyOf(g: PipeGraph, n: string, m: string)
    requires Adjacent(g, n, m)
    ensures SortedPair(n, m) in Keys(g)
  {
  }

  /** Walking an edge not walked before leaves one edge fewer to walk. */
  lemma KeysShrink(g: PipeGraph, visited: set<EdgeKey>, n: string, m: string)
    requires Adjacent(g, n, m) && SortedPair(n, m) !in visited
    ensures |Keys(g) - (visited + {SortedPair(n, m)})| < |Keys(g) - visited|
  {
    var k := SortedPair(n, m);
    assert k in Keys(g);
    assert (Keys(g) - (visited + {k})) + {k} == Keys(g) - visited;
  }

  /**
   * The test `create_plans` makes before starting a walk at `start`: it has
   * a neighbour, and the edge to its first neighbour was already walked.
   */
  predicate Skipped(g: PipeGraph, start: NodeInfo, visited: set<EdgeKey>)
    requires start.id in g.adj
  {
    Degree(g, start.id) > 0 && SortedPair(start.id, g.adj[start.id][0]) in visited
  }
}
