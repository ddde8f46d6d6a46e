/**
 * The part of `networkx.Graph` the pipeline relies on: an undirected graph
 * whose nodes keep their insertion order, whose neighbour lists keep the
 * order in which edges were added, and whose nodes and edges carry
 * attribute data.  A self-loop lists the node among its own neighbours once
 * and counts twice towards its degree.
 */
module Graphs {
  import opened Seqs

  /**
   * `order`: nodes in insertion order; `nodeData`: each node's data;
   * `adj`: each node's neighbours in insertion order; `attrs`: the data of
   * each edge, under the set of its two endpoints.
   */
  datatype Graph<N, V, E> = Graph(order: seq<N>, nodeData: map<N, V>, adj: map<N, seq<N>>, attrs: map<set<N>, E>)

  /** The key of the edge between `n` and `m`, whichever way round. */
  function Edge<N>(n: N, m: N): set<N> {
    {n, m}
  }

  /** `m` is a neighbour of `n`. */
  predicate Adjacent<N(==), V, E>(g: Graph<N, V, E>, n: N, m: N) {
    n in g.adj && m in g.adj[n]
  }

  /** The structural invariant every graph built by the operations below keeps. */
  ghost predicate Valid<N(!new), V, E>(g: Graph<N, V, E>) {
    && Distinct(g.order)
    && (forall n :: n in g.order <==> n in g.nodeData)
    && (forall n :: n in g.adj <==> n in g.nodeData)
    && (forall n :: n in g.adj ==> Distinct(g.adj[n]))
    && (forall n, m :: Adjacent(g, n, m) ==> Adjacent(g, m, n) && Edge(n, m) in g.attrs)
  }

  function Empty<N(==, !new), V, E>(): (g: Graph<N, V, E>)
    ensures Valid(g) && g.order == []
  {
    Graph([], map[], map[], map[])
  }

  /** `G.degree(n)`: the number of neighbours, a self-loop counting twice. */
  function Degree<N(==), V, E>(g: Graph<N, V, E>, n: N): nat
    requires n in g.adj
  {
    |g.adj[n]| + (if n in g.adj[n] then 1 else 0)
  }

  /** A node has degree 0 exactly when it has no neighbour at all. */
  lemma DegreeZero<N, V, E>(g: Graph<N, V, E>, n: N)
    requires n in g.adj
    ensures Degree(g, n) == 0 <==> g.adj[n] == []
  {
  }

  /** `G.add_node(n, data=v)`: a new node goes last; an existing node gets the new data. */
  method AddNode<N(==, !new), V, E>(g: Graph<N, V, E>, n: N, v: V) returns (r: Graph<N, V, E>)
    requires Valid(g)
    ensures Valid(r)
    ensures r.nodeData == g.nodeData[n := v] && r.attrs == g.attrs
    ensures r.order == if n in g.nodeData then g.order else g.order + [n]
    ensures forall k :: k in r.adj ==> r.adj[k] == Neighbours(g, k)
    ensures forall k, m :: Adjacent(r, k, m) <==> Adjacent(g, k, m)
  {
    if n in g.nodeData {
      r := g.(nodeData := g.nodeData[n := v]);
      assert forall k, m :: Adjacent(r, k, m) <==> Adjacent(g, k, m);
    } else {
      r := Graph(g.order + [n], g.nodeData[n := v], g.adj[n := []], g.attrs);
      assert Distinct(r.order) by {
        assert forall i :: 0 <= i < |g.order| ==> r.order[i] == g.order[i];
      }
      assert forall k, m :: Adjacent(r, k, m) ==> Adjacent(g, k, m);
    }
  }

  /** `s` with `x` appended, unless `x` is in `s` already. */
  function AppendNew<N(==)>(s: seq<N>, x: N): seq<N> {
    if x in s then s else s + [x]
  }

  /** The neighbours of `n`; none for a node not in the graph. */
  function Neighbours<N(==), V, E>(g: Graph<N, V, E>, n: N): seq<N> {
    if n in g.adj then g.adj[n] else []
  }

  /** The nodes `add_edge(u, v)` creates, in the order it creates them. */
  function NewEnds<N(==), V, E>(g: Graph<N, V, E>, u: N, v: N): seq<N> {
    (if u in g.nodeData then [] else [u]) + (if v in g.nodeData || v == u then [] else [v])
  }

  /** Adds `m` to the end of `n`'s neighbours unless it is there already. */
  function Link<N(==, !new)>(adj: map<N, seq<N>>, n: N, m: N): (r: map<N, seq<N>>)
    requires n in adj
    ensures forall k :: k in r <==> k in adj
    ensures forall k, x :: k in r && x in r[k] <==> k in adj && (x in adj[k] || (k == n && x == m))
    ensures forall k :: k in adj && Distinct(adj[k]) ==> Distinct(r[k])
  {
    adj[n := AppendNew(adj[n], m)]
  }

  /** Links two nodes already in the graph and sets the data of the edge between them. */
  function Connect<N(==, !new), V, E>(g: Graph<N, V, E>, u: N, v: N, e: E): (r: Graph<N, V, E>)
    requires Valid(g) && u in g.nodeData && v in g.nodeData
    ensures r.order == g.order && r.nodeData == g.nodeData && r.attrs == g.attrs[Edge(u, v) := e]
    ensures r.adj == Link(Link(g.adj, u, v), v, u)
    ensures forall n, m :: Adjacent(r, n, m) <==> Adjacent(g, n, m) || (n, m) == (u, v) || (n, m) == (v, u)
    ensures Valid(r)
  {
    var adj1 := Link(g.adj, u, v);
    var adj2 := Link(adj1, v, u);
    var r := Graph(g.order, g.nodeData, adj2, g.attrs[Edge(u, v) := e]);
    assert Edge(v, u) == Edge(u, v);
    assert forall n, m :: Adjacent(r, n, m) ==> Adjacent(r, m, n) && Edge(n, m) in r.attrs by {
      forall n, m | Adjacent(r, n, m) ensures Adjacent(r, m, n) && Edge(n, m) in r.attrs {
        if !Adjacent(g, n, m) {
          assert (n, m) == (u, v) || (n, m) == (v, u);
        }
      }
    }
    r
  }

  /** The two endpoints of an edge determine its key, whichever way round. */
  lemma EdgeSame<N>(n: N, m: N, u: N, v: N)
    ensures Edge(n, m) == Edge(u, v) <==> (n, m) == (u, v) || (n, m) == (v, u)
  {
    if Edge(n, m) == Edge(u, v) {
      assert n in Edge(u, v) && m in Edge(u, v) && u in Edge(n, m) && v in Edge(n, m);
    }
  }

  /**
   * `G.add_edge(u, v, **e)`: endpoints not yet in the graph are added first
   * with the data `blank` (`u` before `v`); a new neighbour goes last in
   * each neighbour list; the edge's data becomes `e`.  A method, so that
   * callers reason from this contract alone.
   */
  method AddEdge<N(==, !new), V, E>(g: Graph<N, V, E>, u: N, v: N, e: E, blank: V) returns (r: Graph<N, V, E>)
    requires Valid(g)
    ensures Valid(r)
    ensures r.order == g.order + NewEnds(g, u, v)
    ensures forall n :: n in r.nodeData <==> n in g.nodeData || n == u || n == v
    ensures forall n :: n in r.nodeData ==> r.nodeData[n] == if n in g.nodeData then g.nodeData[n] else blank
    ensures r.attrs == g.attrs[Edge(u, v) := e]
    ensures r.adj[u] == AppendNew(Neighbours(g, u), v)
    ensures u != v ==> r.adj[v] == AppendNew(Neighbours(g, v), u)
    ensures forall n :: n in g.adj && n != u && n != v ==> r.adj[n] == g.adj[n]
    ensures forall n, m :: Adjacent(r, n, m) <==> Adjacent(g, n, m) || (n, m) == (u, v) || (n, m) == (v, u)
  {
    var g2 := AddEnds(g, u, v, blank);
    r := Connect(g2, u, v, e);
  }

  /** The first half of `add_edge`: adds whichever of `u` and `v` is missing, without edges. */
  method AddEnds<N(==, !new), V, E>(g: Graph<N, V, E>, u: N, v: N, blank: V) returns (r: Graph<N, V, E>)
    requires Valid(g)
    ensures Valid(r) && u in r.nodeData && v in r.nodeData
    ensures r.order == g.order + NewEnds(g, u, v)
    ensures forall n :: n in r.nodeData <==> n in g.nodeData || n == u || n == v
    ensures forall n :: n in r.nodeData ==> r.nodeData[n] == if n in g.nodeData then g.nodeData[n] else blank
    ensures r.attrs == g.attrs
    ensures forall n :: n in r.adj ==> r.adj[n] == Neighbours(g, n)
    ensures forall n, m :: Adjacent(r, n, m) <==> Adjacent(g, n, m)
  {
    r := AddFresh(g, NewEnds(g, u, v), blank);
  }

  /** Appends the nodes `ns`, none of them in the graph yet, each with the data `blank` and no edges. */
  method AddFresh<N(==, !new), V, E>(g: Graph<N, V, E>, ns: seq<N>, blank: V) returns (r: Graph<N, V, E>)
    requires Valid(g) && Distinct(ns)
    requires forall n :: n in ns ==> n !in g.nodeData
    ensures Valid(r)
    ensures r.order == g.order + ns
    ensures forall n :: n in r.nodeData <==> n in g.nodeData || n in ns
    ensures forall n :: n in r.nodeData ==> r.nodeData[n] == if n in g.nodeData then g.nodeData[n] else blank
    ensures r.attrs == g.attrs
    ensures forall n :: n in r.adj ==> r.adj[n] == Neighbours(g, n)
    ensures forall n, m :: Adjacent(r, n, m) <==> Adjacent(g, n, m)
  {
    var keys := g.nodeData.Keys + set n | n in ns;
    var data := map n | n in keys :: if n in g.nodeData then g.nodeData[n] else blank;
    var adj := map n | n in keys :: Neighbours(g, n);
    r := Graph(g.order + ns, data, adj, g.attrs);
    assert forall n, m :: Adjacent(r, n, m) <==> Adjacent(g, n, m);
    assert Distinct(r.order) by {
      forall i, j | 0 <= i < j < |r.order| ensures r.order[i] != r.order[j] {
        if j >= |g.order| && i < |g.order| {
          assert r.order[j] in ns && r.order[i] in g.nodeData;
        }
      }
    }
  }


  /** Whether the edge between `n` and `m` survives a removal of the edges whose data satisfies `drop`. */
  function Keeps<N(==), V, E>(g: Graph<N, V, E>, drop: E -> bool, n: N, m: N): bool {
    Edge(n, m) !in g.attrs || !drop(g.attrs[Edge(n, m)])
  }

  /**
   * `G.remove_edges_from([...])` for every edge whose data satisfies
   * `drop`: each neighbour list keeps the order of what remains.
   */
  function RemoveEdgesWhere<N(==, !new), V, E>(g: Graph<N, V, E>, drop: E -> bool): (r: Graph<N, V, E>)
    requires Valid(g)
    ensures Valid(r)
    ensures r.order == g.order && r.nodeData == g.nodeData
    ensures forall n, m :: Adjacent(r, n, m) <==> Adjacent(g, n, m) && !drop(g.attrs[Edge(n, m)])
    ensures forall k :: k in r.attrs ==> k in g.attrs && r.attrs[k] == g.attrs[k] && !drop(r.attrs[k])
  {
    PrunedAdjacent(g, drop);
    PrunedValid(g, drop);
    Pruned(g, drop)
  }

  /** The graph `RemoveEdgesWhere` builds: filtered neighbour lists and edge data. */
  function Pruned<N(==, !new), V, E>(g: Graph<N, V, E>, drop: E -> bool): Graph<N, V, E> {
    var adj := map n | n in g.adj :: Filter(g.adj[n], m => Keeps(g, drop, n, m));
    var attrs := map k | k in g.attrs && !drop(g.attrs[k]) :: g.attrs[k];
    Graph(g.order, g.nodeData, adj, attrs)
  }

  lemma PrunedAdjacent<N(!new), V, E>(g: Graph<N, V, E>, drop: E -> bool)
    ensures forall n, m :: Adjacent(Pruned(g, drop), n, m) <==> Adjacent(g, n, m) && Keeps(g, drop, n, m)
  {
  }

  lemma PrunedValid<N(!new), V, E>(g: Graph<N, V, E>, drop: E -> bool)
    requires Valid(g)
    ensures Valid(Pruned(g, drop))
  {
    var r := Pruned(g, drop);
    PrunedAdjacent(g, drop);
    forall n | n in r.adj ensures Distinct(r.adj[n]) {
      FilterDistinct(g.adj[n], m => Keeps(g, drop, n, m));
    }
    forall n, m | Adjacent(r, n, m) ensures Adjacent(r, m, n) && Edge(n, m) in r.attrs {
      assert Edge(m, n) == Edge(n, m);
    }
  }

  /** Whether `n` is a node without any edge. */
  function Isolated<N(==), V, E>(g: Graph<N, V, E>, n: N): bool {
    n in g.adj && |g.adj[n]| == 0
  }

  /** `G.remove_nodes_from` applied to the nodes of degree 0; the rest keep their order. */
  function RemoveIsolated<N(==, !new), V, E>(g: Graph<N, V, E>): (r: Graph<N, V, E>)
    requires Valid(g)
    ensures Valid(r)
    ensures r.order == Filter(g.order, n => !Isolated(g, n))
    ensures forall n :: n in r.nodeData <==> n in g.nodeData && !Isolated(g, n)
    ensures forall n :: n in r.nodeData ==> r.nodeData[n] == g.nodeData[n]
    ensures forall n :: n in r.adj ==> r.adj[n] == g.adj[n]
    ensures forall n, m :: Adjacent(r, n, m) <==> Adjacent(g, n, m)
    ensures r.attrs == g.attrs
  {
    var keep := (n: N) => !Isolated(g, n);
    var nodeData := map n | n in g.nodeData && !Isolated(g, n) :: g.nodeData[n];
    var adj := map n | n in g.adj && !Isolated(g, n) :: g.adj[n];
    var r := Graph(Filter(g.order, keep), nodeData, adj, g.attrs);
    assert forall n, m :: Adjacent(g, n, m) ==> Adjacent(r, n, m) by {
      forall n, m | Adjacent(g, n, m) ensures Adjacent(r, n, m) {
        assert !Isolated(g, n);
      }
    }
    assert Distinct(r.order) by {
      FilterDistinct(g.order, keep);
    }
    assert forall n :: n in r.order <==> n in r.nodeData;
    assert forall n :: n in r.adj <==> n in r.nodeData;
    assert forall n, m :: Adjacent(r, n, m) ==> Adjacent(g, n, m);
    r
  }
}
