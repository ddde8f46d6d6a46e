/**
 * The topology builder: from the segments of a parsed isometric sketch to a
 * 3D pipe graph whose nodes are classified as endpoints, bends and tees.
 *
 * Sketch points are exact decimal pairs; 3D coordinates, lengths and
 * bearings are reals, with `atan2`, `acos`, `sqrt` and `round(x, 6)` taken
 * from the `MathOracle` the caller supplies.  Node ids, which the source
 * draws from `uuid4`, are supplied by the caller as a sequence of fresh ids.
 */
module Topology {
  import opened Wrappers
  import opened Seqs
  import opened Text
  import opened Vectors
  import opened Graphs
  import opened Snap
  import opened Catalog
  import opened NodeTypes
  import opened Enrichment

  /** A point of the 2D sketch. */
  datatype Point2 = Point2(x: real, y: real)

  const Origin2: Point2 := Point2(0.0, 0.0)

  /**
   * One segment of the parsed sketch.  `lengthDimension` is None for a
   * shortcut (an undimensioned segment); `isConstruction` is None when the
   * segment does not say.
   */
  datatype Segment = Segment(
    id: string,
    start: Point2,
    end: Point2,
    lengthDimension: Option<real>,
    specName: string,
    isConstruction: Option<bool>)

  /** A sketch segment together with the rounded 3D coordinates of its two ends. */
  datatype Segment3 = Segment3(seg: Segment, start3: Vec3, end3: Vec3)

  type SketchGraph = Graph<Point2, (), Segment>

  /** The bearing, in degrees, of the direction from `p` to `q` in the sketch plane. */
  function Bearing(m: MathOracle, p: Point2, q: Point2): real {
    Degrees(m, m.atan2(q.y - p.y, q.x - p.x))
  }

  /** The length a dimensioned segment carries. */
  function Len(s: Segment): real {
    s.lengthDimension.GetOr(0.0)
  }

  function IsDimensioned(s: Segment): bool {
    s.lengthDimension.Some?
  }

  function IsShortcut(s: Segment): bool {
    s.lengthDimension.None?
  }

  /** `p` is an end of one of the first `n` segments. */
  predicate IsEndAmong(segments: seq<Segment>, n: int, p: Point2) {
    exists i :: 0 <= i < n && i < |segments| && (segments[i].start == p || segments[i].end == p)
  }

  /** One of the first `n` segments joins `p` and `q`. */
  predicate IsJoinedAmong(segments: seq<Segment>, n: int, p: Point2, q: Point2) {
    exists i :: 0 <= i < n && i < |segments| && Edge(p, q) == Edge(segments[i].start, segments[i].end)
  }

  /**
   * The last of the first `n` segments whose two ends are the points of `k`,
   * if any: the segment a networkx edge keeps, as each `add_edge` between
   * the same two points overwrites the edge's data.
   */
  function LastJoining(segments: seq<Segment>, n: nat, k: set<Point2>): (r: Option<nat>)
    requires n <= |segments|
    ensures r.Some? ==> r.value < n && Edge(segments[r.value].start, segments[r.value].end) == k
    ensures r.Some? ==> forall j :: r.value < j < n ==> Edge(segments[j].start, segments[j].end) != k
    ensures r.None? ==> forall j :: 0 <= j < n ==> Edge(segments[j].start, segments[j].end) != k
  {
    if n == 0 then None
    else if Edge(segments[n - 1].start, segments[n - 1].end) == k then Some(n - 1)
    else LastJoining(segments, n - 1, k)
  }

  /** Every edge of `g` carries the last of the first `n` segments joining its two points. */
  ghost predicate CarriesLast(segments: seq<Segment>, n: nat, g: SketchGraph)
    requires n <= |segments|
  {
    forall k :: k in g.attrs ==>
      var j := LastJoining(segments, n, k); j.Some? && g.attrs[k] == segments[j.value]
  }

  /** Storing segment `i` on the edge of its two points keeps every edge carrying the last segment. */
  lemma CarriesStep(segments: seq<Segment>, i: nat, g: SketchGraph, g': SketchGraph)
    requires i < |segments| && CarriesLast(segments, i, g)
    requires g'.attrs == g.attrs[Edge(segments[i].start, segments[i].end) := segments[i]]
    ensures CarriesLast(segments, i + 1, g')
  {
    forall k | k in g'.attrs
      ensures var j := LastJoining(segments, i + 1, k); j.Some? && g'.attrs[k] == segments[j.value]
    {
      if k != Edge(segments[i].start, segments[i].end) {
        assert LastJoining(segments, i + 1, k) == LastJoining(segments, i, k);
      }
    }
  }

  /** The points after adding segment `i` are the ends of the first `i + 1` segments. */
  lemma EndsStep(segments: seq<Segment>, i: nat, before: set<Point2>, after: set<Point2>)
    requires i < |segments|
    requires forall p :: p in before <==> IsEndAmong(segments, i, p)
    requires forall p :: p in after <==> p in before || p == segments[i].start || p == segments[i].end
    ensures forall p {:trigger IsEndAmong(segments, i + 1, p)} :: p in after <==> IsEndAmong(segments, i + 1, p)
  {
    forall p ensures p in after <==> IsEndAmong(segments, i + 1, p) {
      if IsEndAmong(segments, i + 1, p) {
        var j :| 0 <= j < i + 1 && j < |segments| && (segments[j].start == p || segments[j].end == p);
        if j < i {
          assert IsEndAmong(segments, i, p);
        }
      }
    }
  }

  /** The adjacency after adding segment `i` joins the ends of the first `i + 1` segments. */
  lemma JoinsStep(segments: seq<Segment>, i: nat, g: SketchGraph, g': SketchGraph)
    requires i < |segments|
    requires forall p, q :: Adjacent(g, p, q) <==> IsJoinedAmong(segments, i, p, q)
    requires forall p, q :: Adjacent(g', p, q) <==>
      (Adjacent(g, p, q) || (p, q) == (segments[i].start, segments[i].end) || (p, q) == (segments[i].end, segments[i].start))
    ensures forall p, q {:trigger IsJoinedAmong(segments, i + 1, p, q)} :: Adjacent(g', p, q) <==> IsJoinedAmong(segments, i + 1, p, q)
  {
    forall p, q ensures Adjacent(g', p, q) <==> IsJoinedAmong(segments, i + 1, p, q) {
      EdgeSame(p, q, segments[i].start, segments[i].end);
      if IsJoinedAmong(segments, i + 1, p, q) {
        var j :| 0 <= j < i + 1 && j < |segments| && Edge(p, q) == Edge(segments[j].start, segments[j].end);
        if j < i {
          assert IsJoinedAmong(segments, i, p, q);
        }
      }
    }
  }

  /**
   * `_create_preliminary_2d_graph`: one edge per segment between its two
   * sketch points, added in segment order.  The points are exactly the
   * segment ends, two points are adjacent exactly when a segment joins them,
   * and every edge carries the last segment added between its two points.
   */
  method CreateSketchGraph(segments: seq<Segment>) returns (g: SketchGraph)
    ensures Valid(g)
    ensures forall p {:trigger IsEndAmong(segments, |segments|, p)} :: p in g.nodeData <==> IsEndAmong(segments, |segments|, p)
    ensures forall p, q {:trigger IsJoinedAmong(segments, |segments|, p, q)} :: Adjacent(g, p, q) <==> IsJoinedAmong(segments, |segments|, p, q)
    ensures CarriesLast(segments, |segments|, g)
  {
    g := Empty();
    for i := 0 to |segments|
      invariant Valid(g)
      invariant forall p {:trigger IsEndAmong(segments, i, p)} :: p in g.nodeData <==> IsEndAmong(segments, i, p)
      invariant forall p, q {:trigger IsJoinedAmong(segments, i, p, q)} :: Adjacent(g, p, q) <==> IsJoinedAmong(segments, i, p, q)
      invariant CarriesLast(segments, i, g)
    {
      var s := segments[i];
      var g' := AddEdge(g, s.start, s.end, s, ());
      EndsStep(segments, i, g.nodeData.Keys, g'.nodeData.Keys);
      JoinsStep(segments, i, g, g');
      CarriesStep(segments, i, g, g');
      g := g';
    }
  }

  /** The index of the first node, from `i` on, of degree 1, if there is one. */
  function FirstOfDegreeOne<N(!new), V, E>(g: Graph<N, V, E>, i: nat): (r: Option<nat>)
    requires Valid(g) && i <= |g.order|
    ensures r.Some? ==> i <= r.value < |g.order| && Degree(g, g.order[r.value]) == 1
    ensures r.Some? ==> forall j :: i <= j < r.value ==> Degree(g, g.order[j]) != 1
    ensures r.None? ==> forall j :: i <= j < |g.order| ==> Degree(g, g.order[j]) != 1
    decreases |g.order| - i
  {
    if i == |g.order| then None
    else if Degree(g, g.order[i]) == 1 then Some(i)
    else FirstOfDegreeOne(g, i + 1)
  }

  /** Where the traversal starts: the first point of degree 1, or else the first point. */
  function Root<N(!new), V, E>(g: Graph<N, V, E>): (r: N)
    requires Valid(g) && g.order != []
    ensures r in g.nodeData
  {
    match FirstOfDegreeOne(g, 0)
    case Some(i) => g.order[i]
    case None => g.order[0]
  }

  /** Where a child lands: its parent's point moved along the snapped bearing by the segment's length. */
  function ChildPoint(m: MathOracle, from: Vec3, p: Point2, c: Point2, s: Segment): Vec3 {
    Add(from, Scale(SnapDirection(Bearing(m, p, c)), Len(s)))
  }

  /** A sketch segment with its two placed ends, rounded as the builder stores them. */
  function Lift(m: MathOracle, s: Segment, a: Vec3, b: Vec3): Segment3 {
    Segment3(s, Round6(m, a), Round6(m, b))
  }

  /**
   * One tree segment of the traversal: the edge from parent `p` to child `c`
   * of `g`, lifted with the points `coords` gives them, the child placed from
   * the parent.
   */
  ghost predicate TreeStep(m: MathOracle, g: SketchGraph, coords: map<Point2, Vec3>, p: Point2, c: Point2, x: Segment3) {
    p in coords && c in coords && Adjacent(g, p, c) && Edge(p, c) in g.attrs &&
    coords[c] == ChildPoint(m, coords[p], p, c, g.attrs[Edge(p, c)]) &&
    x == Lift(m, g.attrs[Edge(p, c)], coords[p], coords[c])
  }

  /**
   * The state of the breadth-first placement: the root sits at the origin,
   * every other placed point is the child of exactly one tree segment, whose
   * parent was placed before it, and the placed points are points of `g`.
   * So `tree` has one segment fewer than there are placed points.
   */
  ghost predicate Placed(m: MathOracle, g: SketchGraph, root: Point2, coords: map<Point2, Vec3>,
                         tree: seq<Segment3>, parents: seq<Point2>, children: seq<Point2>) {
    |tree| == |parents| == |children| && |coords| == |tree| + 1 &&
    root in coords && coords[root] == Origin &&
    (forall p :: p in coords ==> p in g.nodeData) &&
    (forall p :: p in coords <==> p == root || p in children) &&
    Distinct(children) && root !in children &&
    (forall t :: 0 <= t < |tree| ==> parents[t] == root || parents[t] in children[..t]) &&
    (forall t {:trigger tree[t]} :: 0 <= t < |tree| ==> TreeStep(m, g, coords, parents[t], children[t], tree[t]))
  }

  /** Placing a new neighbour `c` of a placed point `p` keeps the placement state. */
  lemma PlacedExtend(m: MathOracle, g: SketchGraph, root: Point2, coords: map<Point2, Vec3>,
                     tree: seq<Segment3>, parents: seq<Point2>, children: seq<Point2>, p: Point2, c: Point2)
    requires Valid(g) && Placed(m, g, root, coords, tree, parents, children)
    requires p in coords && c !in coords && Adjacent(g, p, c)
    ensures var s := g.attrs[Edge(p, c)];
            var v := ChildPoint(m, coords[p], p, c, s);
            Placed(m, g, root, coords[c := v], tree + [Lift(m, s, coords[p], v)], parents + [p], children + [c])
  {
    assert Adjacent(g, c, p);
    TreeStepsExtend(m, g, coords, tree, parents, children, p, c);
    ParentsExtend(root, parents, children, p, c);
  }

  /** Placing a new point keeps every earlier tree segment, and adds the one from `p` to `c`. */
  lemma TreeStepsExtend(m: MathOracle, g: SketchGraph, coords: map<Point2, Vec3>,
                        tree: seq<Segment3>, parents: seq<Point2>, children: seq<Point2>, p: Point2, c: Point2)
    requires |tree| == |parents| == |children|
    requires forall t {:trigger tree[t]} :: 0 <= t < |tree| ==> TreeStep(m, g, coords, parents[t], children[t], tree[t])
    requires p in coords && c !in coords && Adjacent(g, p, c) && Edge(p, c) in g.attrs
    ensures var s := g.attrs[Edge(p, c)];
            var v := ChildPoint(m, coords[p], p, c, s);
            var coords', tree' := coords[c := v], tree + [Lift(m, s, coords[p], v)];
            forall t {:trigger tree'[t]} :: 0 <= t < |tree'| ==>
              TreeStep(m, g, coords', (parents + [p])[t], (children + [c])[t], tree'[t])
  {
    var s := g.attrs[Edge(p, c)];
    var v := ChildPoint(m, coords[p], p, c, s);
    var coords', tree' := coords[c := v], tree + [Lift(m, s, coords[p], v)];
    forall t | 0 <= t < |tree'| ensures TreeStep(m, g, coords', (parents + [p])[t], (children + [c])[t], tree'[t]) {
      if t < |tree| {
        assert TreeStep(m, g, coords, parents[t], children[t], tree[t]);
      }
    }
  }

  /** A child placed from the root or an earlier child keeps parents ahead of their children. */
  lemma ParentsExtend(root: Point2, parents: seq<Point2>, children: seq<Point2>, p: Point2, c: Point2)
    requires |parents| == |children|
    requires forall t :: 0 <= t < |parents| ==> parents[t] == root || parents[t] in children[..t]
    requires p == root || p in children
    ensures forall t :: 0 <= t < |parents| + 1 ==>
      (parents + [p])[t] == root || (parents + [p])[t] in (children + [c])[..t]
  {
    forall t | 0 <= t < |parents| + 1 ensures (parents + [p])[t] == root || (parents + [p])[t] in (children + [c])[..t] {
      if t < |parents| {
        assert (children + [c])[..t] == children[..t];
      } else {
        assert (children + [c])[..t] == children;
      }
    }
  }

  /** The variables of the breadth-first traversal, with the tree's parents and children alongside. */
  datatype Bfs = Bfs(visited: set<Point2>, queue: seq<Point2>, coords: map<Point2, Vec3>,
                     tree: seq<Segment3>, parents: seq<Point2>, children: seq<Point2>)

  /** The traversal state is a placement, and the visited points are the placed ones. */
  ghost predicate BfsPlaced(m: MathOracle, g: SketchGraph, root: Point2, st: Bfs) {
    Placed(m, g, root, st.coords, st.tree, st.parents, st.children) && st.visited == st.coords.Keys
  }

  /**
   * One pass of the inner loop of `_translate_2d_to_3d`, at neighbour `n` of
   * `cur`: a point not yet visited is visited, placed as `cur`'s child,
   * emitted as a tree segment and queued; a visited one changes nothing.
   */
  function Step(m: MathOracle, g: SketchGraph, cur: Point2, st: Bfs, n: Point2): (r: Bfs)
    requires cur in st.coords && Edge(cur, n) in g.attrs
    ensures cur in r.coords && st.coords.Keys <= r.coords.Keys
  {
    if n in st.visited then st
    else
      var s := g.attrs[Edge(cur, n)];
      var end3 := ChildPoint(m, st.coords[cur], cur, n, s);
      Bfs(st.visited + {n}, st.queue + [n], st.coords[n := end3],
          st.tree + [Lift(m, s, st.coords[cur], end3)], st.parents + [cur], st.children + [n])
  }

  /** The inner loop over the neighbours `ns` of `cur`, in order. */
  function VisitAll(m: MathOracle, g: SketchGraph, cur: Point2, st: Bfs, ns: seq<Point2>): (r: Bfs)
    requires cur in st.coords && forall n :: n in ns ==> Edge(cur, n) in g.attrs
    ensures cur in r.coords && st.coords.Keys <= r.coords.Keys
  {
    if ns == [] then st
    else Step(m, g, cur, VisitAll(m, g, cur, st, ns[..|ns| - 1]), ns[|ns| - 1])
  }

  /** Visiting the neighbours of a placed point keeps the placement state. */
  lemma {:induction false} VisitAllPlaced(m: MathOracle, g: SketchGraph, root: Point2, cur: Point2, st: Bfs, ns: seq<Point2>)
    requires Valid(g) && BfsPlaced(m, g, root, st) && cur in st.coords
    requires forall n :: n in ns ==> Adjacent(g, cur, n)
    ensures BfsPlaced(m, g, root, VisitAll(m, g, cur, st, ns))
  {
    if ns != [] {
      var init, n := ns[..|ns| - 1], ns[|ns| - 1];
      VisitAllPlaced(m, g, root, cur, st, init);
      var prev := VisitAll(m, g, cur, st, init);
      if n !in prev.visited {
        PlacedExtend(m, g, root, prev.coords, prev.tree, prev.parents, prev.children, cur, n);
      }
    }
  }

  /**
   * Visiting neighbours `ns` visits all of them and queues exactly the newly
   * visited points behind the old queue; when nothing new is visited the
   * queue is unchanged.
   */
  lemma {:induction false} VisitAllQueue(m: MathOracle, g: SketchGraph, cur: Point2, st: Bfs, ns: seq<Point2>)
    requires cur in st.coords && forall n :: n in ns ==> Edge(cur, n) in g.attrs
    ensures var r := VisitAll(m, g, cur, st, ns);
      st.visited <= r.visited && (forall n :: n in ns ==> n in r.visited) &&
      (forall p :: p in st.queue ==> p in r.queue) &&
      (forall p :: p in r.queue ==> p in st.queue || p in r.visited) &&
      (forall p :: p in r.visited ==> p in st.visited || p in r.queue) &&
      (r.visited == st.visited ==> r.queue == st.queue)
  {
    if ns != [] {
      VisitAllQueue(m, g, cur, st, ns[..|ns| - 1]);
    }
  }

  /**
   * The inner loop of `_translate_2d_to_3d`: the neighbours of `cur` are
   * taken in adjacency order.
   */
  method Visit(m: MathOracle, g: SketchGraph, cur: Point2,
               visited0: set<Point2>, queue0: seq<Point2>, coords0: map<Point2, Vec3>, tree0: seq<Segment3>,
               ghost parents0: seq<Point2>, ghost children0: seq<Point2>)
    returns (visited: set<Point2>, queue: seq<Point2>, coords: map<Point2, Vec3>, tree: seq<Segment3>,
             ghost parents: seq<Point2>, ghost children: seq<Point2>)
    requires Valid(g) && cur in g.adj && cur in coords0
    ensures Bfs(visited, queue, coords, tree, parents, children) ==
      VisitAll(m, g, cur, Bfs(visited0, queue0, coords0, tree0, parents0, children0), g.adj[cur])
  {
    ghost var st0 := Bfs(visited0, queue0, coords0, tree0, parents0, children0);
    visited, queue, coords, tree, parents, children := visited0, queue0, coords0, tree0, parents0, children0;
    var neighbours := g.adj[cur];
    assert forall n :: n in neighbours ==> Adjacent(g, cur, n);
    for k := 0 to |neighbours|
      invariant Bfs(visited, queue, coords, tree, parents, children) == VisitAll(m, g, cur, st0, neighbours[..k])
    {
      var n := neighbours[k];
      assert neighbours[..k + 1][..k] == neighbours[..k];
      if n !in visited {
        visited := visited + {n};
        var s := g.attrs[Edge(cur, n)];
        var start3 := coords[cur];
        var direction := SnapDirection(Bearing(m, cur, n));
        var end3 := Add(start3, Scale(direction, Len(s)));
        coords := coords[n := end3];
        tree := tree + [Lift(m, s, start3, end3)];
        parents, children := parents + [cur], children + [n];
        queue := queue + [n];
      }
    }
    assert neighbours[..|neighbours|] == neighbours;
  }

  /**
   * The breadth-first traversal of `_translate_2d_to_3d` from `root`: the
   * placed points are closed under adjacency, so they are exactly the points
   * connected to the root, and each one is placed once.  The contract speaks
   * of some spanning tree (the ghost `parents` and `children`), not of the
   * breadth-first one the loop follows: the order of the tree segments, and
   * which point's coordinates win when the lengths around a cycle do not
   * close, are left unstated.
   */
  method Traverse(m: MathOracle, g: SketchGraph, root: Point2)
    returns (coords: map<Point2, Vec3>, tree: seq<Segment3>, ghost parents: seq<Point2>, ghost children: seq<Point2>)
    requires Valid(g) && root in g.nodeData
    ensures Placed(m, g, root, coords, tree, parents, children)
    ensures forall p, n :: p in coords && Adjacent(g, p, n) ==> n in coords
  {
    var queue := [root];
    var visited := {root};
    coords, tree, parents, children := map[root := Origin], [], [], [];
    ghost var done: set<Point2> := {};
    TraverseStart(m, g, root);
    while queue != []
      invariant TraverseInv(m, g, root, Bfs(visited, queue, coords, tree, parents, children), done)
      decreases g.nodeData.Keys - visited, |queue|
    {
      ghost var st := Bfs(visited, queue, coords, tree, parents, children);
      TraverseRound(m, g, root, st, done);
      var cur := queue[0];
      queue := queue[1..];
      visited, queue, coords, tree, parents, children := Visit(m, g, cur, visited, queue, coords, tree, parents, children);
      done := done + {cur};
    }
    TraverseDone(m, g, root, Bfs(visited, queue, coords, tree, parents, children), done);
  }

  /** The traversal's initial state, the root alone at the origin, meets the loop invariant. */
  lemma TraverseStart(m: MathOracle, g: SketchGraph, root: Point2)
    requires root in g.nodeData
    ensures TraverseInv(m, g, root, Bfs({root}, [root], map[root := Origin], [], [], []), {})
  {
  }

  /** When the queue runs empty, the placed points are closed under adjacency. */
  lemma TraverseDone(m: MathOracle, g: SketchGraph, root: Point2, st: Bfs, done: set<Point2>)
    requires TraverseInv(m, g, root, st, done) && st.queue == []
    ensures Placed(m, g, root, st.coords, st.tree, st.parents, st.children)
    ensures forall p, n :: p in st.coords && Adjacent(g, p, n) ==> n in st.coords
  {
  }

  /**
   * The invariant of the traversal loop: the state is a placement, the
   * queue holds only visited points, every visited point is done or queued,
   * and the neighbours of every done point are visited.
   */
  ghost predicate TraverseInv(m: MathOracle, g: SketchGraph, root: Point2, st: Bfs, done: set<Point2>) {
    BfsPlaced(m, g, root, st) && Frontier(g, st, done)
  }

  /** The queue holds only visited points, and every visited point is done or queued with its neighbours visited once done. */
  ghost predicate Frontier(g: SketchGraph, st: Bfs, done: set<Point2>) {
    && (forall p :: p in st.queue ==> p in st.visited)
    && (forall p :: p in st.visited ==> p in done || p in st.queue)
    && (forall p, n :: p in done && Adjacent(g, p, n) ==> n in st.visited)
  }

  /** One round of the traversal loop keeps its invariant and either visits a new point or shortens the queue. */
  lemma TraverseRound(m: MathOracle, g: SketchGraph, root: Point2, st: Bfs, done: set<Point2>)
    requires Valid(g) && TraverseInv(m, g, root, st, done) && st.queue != []
    ensures st.queue[0] in g.adj && st.queue[0] in st.coords
    ensures var cur := st.queue[0];
      var r := VisitAll(m, g, cur, st.(queue := st.queue[1..]), g.adj[cur]);
      && TraverseInv(m, g, root, r, done + {cur})
      && (r.visited == st.visited ==> r.queue == st.queue[1..])
      && (r.visited != st.visited ==> g.nodeData.Keys - r.visited < g.nodeData.Keys - st.visited)
  {
    var cur := st.queue[0];
    var st1 := st.(queue := st.queue[1..]);
    var ns := g.adj[cur];
    assert forall n :: n in ns ==> Adjacent(g, cur, n);
    VisitAllPlaced(m, g, root, cur, st1, ns);
    FrontierRound(m, g, st, done);
    var r := VisitAll(m, g, cur, st1, ns);
    if r.visited != st.visited {
      var n :| n in r.visited && n !in st.visited;
      assert n in g.nodeData.Keys - st.visited;
    }
  }

  /** The frontier part of `TraverseRound`, which does not depend on the placement. */
  lemma FrontierRound(m: MathOracle, g: SketchGraph, st: Bfs, done: set<Point2>)
    requires Valid(g) && Frontier(g, st, done) && st.queue != []
    requires st.queue[0] in g.adj && st.queue[0] in st.coords
    ensures var cur := st.queue[0];
      var r := VisitAll(m, g, cur, st.(queue := st.queue[1..]), g.adj[cur]);
      && Frontier(g, r, done + {cur})
      && st.visited <= r.visited
      && (r.visited == st.visited ==> r.queue == st.queue[1..])
  {
    var cur := st.queue[0];
    var st1 := st.(queue := st.queue[1..]);
    var ns := g.adj[cur];
    assert forall n :: n in ns ==> Edge(cur, n) in g.attrs by {
      assert forall n :: n in ns ==> Adjacent(g, cur, n);
    }
    VisitAllQueue(m, g, cur, st1, ns);
    var r := VisitAll(m, g, cur, st1, ns);
    assert forall p :: p in st.visited ==> p in done + {cur} || p in st1.queue by {
      assert forall p :: p in st.queue ==> p == cur || p in st1.queue;
    }
    assert forall p, n :: p in done + {cur} && Adjacent(g, p, n) ==> n in r.visited by {
      forall p, n | p in done + {cur} && Adjacent(g, p, n) ensures n in r.visited {
        if p == cur { assert n in ns; }
      }
    }
  }

  /** Both ends of `s` have a 3D point. */
  predicate Resolved(points: map<Point2, Vec3>, s: Segment) {
    s.start in points && s.end in points
  }

  /**
   * The shortcut segments `_translate_2d_to_3d` emits, in order: exactly
   * those whose two ends were both placed, each lifted with the points of
   * its ends.
   */
  function ShortcutSegments(m: MathOracle, shortcuts: seq<Segment>, points: map<Point2, Vec3>): (r: seq<Segment3>)
    ensures |r| <= |shortcuts|
    ensures forall x :: x in r ==>
      (x.seg in shortcuts && Resolved(points, x.seg) && x == Lift(m, x.seg, points[x.seg.start], points[x.seg.end]))
    ensures forall s :: s in shortcuts && Resolved(points, s) ==> Lift(m, s, points[s.start], points[s.end]) in r
  {
    if shortcuts == [] then []
    else
      var s := shortcuts[|shortcuts| - 1];
      assert shortcuts == shortcuts[..|shortcuts| - 1] + [s];
      ShortcutSegments(m, shortcuts[..|shortcuts| - 1], points) +
        (if Resolved(points, s) then [Lift(m, s, points[s.start], points[s.end])] else [])
  }

  /** The shortcut loop of `_translate_2d_to_3d`: the resolved shortcuts are appended to `tree`, in order. */
  method EmitShortcuts(m: MathOracle, tree: seq<Segment3>, shortcuts: seq<Segment>, points: map<Point2, Vec3>)
    returns (out: seq<Segment3>)
    ensures out == tree + ShortcutSegments(m, shortcuts, points)
  {
    out := tree;
    for k := 0 to |shortcuts|
      invariant out == tree + ShortcutSegments(m, shortcuts[..k], points)
    {
      var s := shortcuts[k];
      assert shortcuts[..k + 1][..k] == shortcuts[..k];
      if s.start in points && s.end in points {
        out := out + [Lift(m, s, points[s.start], points[s.end])];
      }
    }
    assert shortcuts[..|shortcuts|] == shortcuts;
  }

  /** What `_create_preliminary_2d_graph` promises about the sketch graph `g` of `segments`. */
  ghost predicate IsSketchGraph(segments: seq<Segment>, g: SketchGraph) {
    Valid(g) &&
    (forall p {:trigger IsEndAmong(segments, |segments|, p)} :: p in g.nodeData <==> IsEndAmong(segments, |segments|, p)) &&
    (forall p, q {:trigger IsJoinedAmong(segments, |segments|, p, q)} :: Adjacent(g, p, q) <==> IsJoinedAmong(segments, |segments|, p, q)) &&
    CarriesLast(segments, |segments|, g)
  }

  /** A sketch graph has no point exactly when there is no segment. */
  lemma SketchGraphEmpty(segments: seq<Segment>, g: SketchGraph)
    requires IsSketchGraph(segments, g)
    ensures g.order == [] <==> segments == []
  {
    if segments != [] {
      assert IsEndAmong(segments, |segments|, segments[0].start);
      assert segments[0].start in g.order;
    }
    if g.order != [] {
      assert g.order[0] in g.nodeData;
      assert IsEndAmong(segments, |segments|, g.order[0]);
    }
  }

  /**
   * Steps 1 and 2 of `_translate_2d_to_3d`: the sketch graph of the
   * dimensioned segments and, when it has a point, the traversal from its
   * root.
   */
  method PlaceSketch(m: MathOracle, dimensioned: seq<Segment>)
    returns (g: SketchGraph, root: Point2, coords: map<Point2, Vec3>, tree: seq<Segment3>,
             ghost parents: seq<Point2>, ghost children: seq<Point2>)
    ensures IsSketchGraph(dimensioned, g)
    ensures g.order == [] <==> dimensioned == []
    ensures g.order == [] ==> coords == map[] && tree == []
    ensures g.order != [] ==>
      root == Root(g) && Placed(m, g, root, coords, tree, parents, children) &&
      (forall p, n :: p in coords && Adjacent(g, p, n) ==> n in coords)
  {
    g := CreateSketchGraph(dimensioned);
    SketchGraphEmpty(dimensioned, g);
    root, coords, tree, parents, children := Origin2, map[], [], [], [];
    if g.order != [] {
      root := Root(g);
      coords, tree, parents, children := Traverse(m, g, root);
    }
  }

  /**
   * Each tree segment of a placement over the sketch graph of `segments` is
   * the last of those segments drawn between its parent and its child, and
   * the child sits that segment's length from the parent.
   */
  lemma TreeSegmentsJoin(m: MathOracle, segments: seq<Segment>, g: SketchGraph, root: Point2,
                         coords: map<Point2, Vec3>, tree: seq<Segment3>, parents: seq<Point2>, children: seq<Point2>)
    requires IsSketchGraph(segments, g) && Placed(m, g, root, coords, tree, parents, children)
    ensures forall t :: 0 <= t < |tree| ==>
      var j := LastJoining(segments, |segments|, Edge(parents[t], children[t]));
      && j.Some? && tree[t].seg == segments[j.value]
      && Edge(segments[j.value].start, segments[j.value].end) == Edge(parents[t], children[t])
      && coords[children[t]] == ChildPoint(m, coords[parents[t]], parents[t], children[t], segments[j.value])
  {
    forall t | 0 <= t < |tree|
      ensures var j := LastJoining(segments, |segments|, Edge(parents[t], children[t]));
        && j.Some? && tree[t].seg == segments[j.value]
        && coords[children[t]] == ChildPoint(m, coords[parents[t]], parents[t], children[t], segments[j.value])
    {
      assert TreeStep(m, g, coords, parents[t], children[t], tree[t]);
    }
  }

  /** The data `_build_graph` puts on the edge of a 3D segment; it never sets a length. */
  function EdgeFor(s: Segment3): EdgeData {
    EdgeData(s.seg.id, CleanName(s.seg.specName), s.seg.isConstruction.GetOr(false), None)
  }

  /** `c` is an end of one of the first `n` 3D segments. */
  predicate IsEnd3Among(segs: seq<Segment3>, n: int, c: Vec3) {
    exists j :: 0 <= j < n && j < |segs| && (segs[j].start3 == c || segs[j].end3 == c)
  }

  /** Nodes `a` and `b` are, under `idOf`, the nodes of the two ends of one of the first `n` 3D segments. */
  predicate Joins3Among(segs: seq<Segment3>, n: int, idOf: map<Vec3, string>, a: string, b: string) {
    exists j :: 0 <= j < n && j < |segs| && segs[j].start3 in idOf && segs[j].end3 in idOf &&
      Edge(a, b) == Edge(idOf[segs[j].start3], idOf[segs[j].end3])
  }

  /**
   * One node per coordinate: the nodes of `t` are the first `|created|`
   * fresh ids, in order, the `j`-th standing for the `j`-th distinct
   * coordinate met, as a plain node at that coordinate; `idOf` maps each
   * coordinate met to its node.
   */
  ghost predicate NodesFor(ids: seq<string>, idOf: map<Vec3, string>, created: seq<Vec3>, t: PipeGraph) {
    Valid(t) && Distinct(created) && |created| <= |ids| && t.order == ids[..|created|] &&
    (forall c :: c in idOf <==> c in created) &&
    (forall j :: 0 <= j < |created| ==>
      created[j] in idOf && idOf[created[j]] == ids[j] && ids[j] in t.nodeData &&
      t.nodeData[ids[j]] == NewNode(created[j], ids[j]))
  }

  /** The coordinates met are the ends of the first `n` 3D segments. */
  ghost predicate EndsFor(segs: seq<Segment3>, n: int, idOf: map<Vec3, string>) {
    forall c {:trigger IsEnd3Among(segs, n, c)} :: c in idOf <==> IsEnd3Among(segs, n, c)
  }

  /**
   * The edges of `t` are those of the first `n` 3D segments: each joins the
   * nodes of its two ends, every adjacency comes from one of them, and each
   * edge carries the data of the one `source` names: the last of them whose
   * ends have the edge's two nodes.
   */
  ghost predicate EdgesFor(segs: seq<Segment3>, n: nat, idOf: map<Vec3, string>, source: map<set<string>, nat>, t: PipeGraph) {
    n <= |segs| &&
    (forall j :: 0 <= j < n ==> segs[j].start3 in idOf && segs[j].end3 in idOf) &&
    (forall j {:trigger Adjacent(t, idOf[segs[j].start3], idOf[segs[j].end3])} :: 0 <= j < n ==>
      Adjacent(t, idOf[segs[j].start3], idOf[segs[j].end3])) &&
    (forall a, b {:trigger Joins3Among(segs, n, idOf, a, b)} :: Adjacent(t, a, b) ==> Joins3Among(segs, n, idOf, a, b)) &&
    SourcesFor(segs, n, idOf, source, t)
  }

  /**
   * Segment `j` is the last of the first `n` 3D segments whose ends have,
   * under `idOf`, the two nodes of `k`.
   */
  ghost predicate LastSource(segs: seq<Segment3>, n: nat, idOf: map<Vec3, string>, k: set<string>, j: nat) {
    j < n <= |segs| && (forall i :: j <= i < n ==> segs[i].start3 in idOf && segs[i].end3 in idOf) &&
    Edge(idOf[segs[j].start3], idOf[segs[j].end3]) == k &&
    forall i :: j < i < n ==> Edge(idOf[segs[i].start3], idOf[segs[i].end3]) != k
  }

  /** Each edge of `t` carries the data of segment `source[k]`, the last segment between its two nodes. */
  ghost predicate SourcesFor(segs: seq<Segment3>, n: nat, idOf: map<Vec3, string>, source: map<set<string>, nat>, t: PipeGraph) {
    forall k :: k in t.attrs ==>
      k in source && LastSource(segs, n, idOf, k, source[k]) && t.attrs[k] == EdgeFor(segs[source[k]])
  }

  /**
   * The inner loop of `_build_graph` for one coordinate: a coordinate not met
   * before gets a new plain node under the next fresh id.
   */
  method NodeAt(t0: PipeGraph, c: Vec3, ids: seq<string>, idOf0: map<Vec3, string>, created0: seq<Vec3>)
    returns (t: PipeGraph, idOf: map<Vec3, string>, created: seq<Vec3>)
    requires NodesFor(ids, idOf0, created0, t0) && Distinct(ids)
    requires c !in idOf0 ==> |created0| < |ids|
    ensures NodesFor(ids, idOf, created, t)
    ensures |created| == |created0| + (if c in idOf0 then 0 else 1)
    ensures forall d :: d in idOf <==> d in idOf0 || d == c
    ensures forall d :: d in idOf0 ==> idOf[d] == idOf0[d]
    ensures forall a, b :: Adjacent(t, a, b) <==> Adjacent(t0, a, b)
    ensures t.attrs == t0.attrs
  {
    t, idOf, created := t0, idOf0, created0;
    if c !in idOf {
      var id := ids[|created|];
      var node := NewNode(c, id);
      idOf := idOf[c := id];
      assert id !in t.nodeData by {
        assert t.order == ids[..|created|];
      }
      var t1 := AddNode(t, id, node);
      NodesForFresh(ids, idOf0, created0, t0, c, t1);
      t, created := t1, created + [c];
    }
  }

  /** Adding the next fresh node for a coordinate not met before keeps `NodesFor`. */
  lemma NodesForFresh(ids: seq<string>, idOf0: map<Vec3, string>, created0: seq<Vec3>, t0: PipeGraph, c: Vec3, t: PipeGraph)
    requires NodesFor(ids, idOf0, created0, t0) && Distinct(ids)
    requires c !in idOf0 && |created0| < |ids|
    requires Valid(t) && t.nodeData == t0.nodeData[ids[|created0|] := NewNode(c, ids[|created0|])]
    requires t.order == t0.order + [ids[|created0|]]
    ensures NodesFor(ids, idOf0[c := ids[|created0|]], created0 + [c], t)
  {
    var n, id := |created0|, ids[|created0|];
    var created, idOf := created0 + [c], idOf0[c := id];
    assert Distinct(created) by {
      assert c !in created0;
      DistinctAppend(created0, [c]);
    }
    assert t.order == ids[..n + 1] by {
      assert ids[..n + 1] == ids[..n] + [id];
    }
    assert forall d :: d in idOf <==> d in created by {
      assert forall d :: d in created <==> d in created0 || d == c;
    }
    forall j | 0 <= j < n + 1
      ensures created[j] in idOf && idOf[created[j]] == ids[j] && ids[j] in t.nodeData
      ensures t.nodeData[ids[j]] == NewNode(created[j], ids[j])
    {
      if j < n {
        assert created[j] == created0[j] && ids[j] != id && created[j] != c;
      }
    }
  }

  /** The loop of `_build_graph`, from the empty graph. */
  method BuildFrom(segs: seq<Segment3>, ids: seq<string>)
    returns (t: PipeGraph, idOf: map<Vec3, string>, created: seq<Vec3>, ghost source: map<set<string>, nat>)
    requires Distinct(ids) && |ids| >= 2 * |segs|
    ensures NodesFor(ids, idOf, created, t)
    ensures EndsFor(segs, |segs|, idOf)
    ensures EdgesFor(segs, |segs|, idOf, source, t)
  {
    t, idOf, created, source := Empty(), map[], [], map[];
    for i := 0 to |segs|
      invariant NodesFor(ids, idOf, created, t) && |created| <= 2 * i
      invariant EndsFor(segs, i, idOf) && EdgesFor(segs, i, idOf, source, t)
    {
      t, idOf, created, source := AddSegment(segs, i, ids, t, idOf, created, source);
    }
  }

  /**
   * One round of `_build_graph`'s loop: the nodes of both ends of segment `i`,
   * then the edge between them.
   */
  method AddSegment(segs: seq<Segment3>, i: nat, ids: seq<string>, t0: PipeGraph, idOf0: map<Vec3, string>,
                    created0: seq<Vec3>, ghost source0: map<set<string>, nat>)
    returns (t: PipeGraph, idOf: map<Vec3, string>, created: seq<Vec3>, ghost source: map<set<string>, nat>)
    requires i < |segs| && Distinct(ids) && |ids| >= 2 * |segs|
    requires NodesFor(ids, idOf0, created0, t0) && |created0| <= 2 * i
    requires EndsFor(segs, i, idOf0) && EdgesFor(segs, i, idOf0, source0, t0)
    ensures NodesFor(ids, idOf, created, t) && |created| <= 2 * (i + 1)
    ensures EndsFor(segs, i + 1, idOf) && EdgesFor(segs, i + 1, idOf, source, t)
  {
    var s := segs[i];
    t, idOf, created := NodeAt(t0, s.start3, ids, idOf0, created0);
    t, idOf, created := NodeAt(t, s.end3, ids, idOf, created);
    var u, v := idOf[s.start3], idOf[s.end3];
    t := Connect(t, u, v, EdgeFor(s));
    EdgesStep(segs, i, idOf0, idOf, source0, t0, t);
    source := source0[Edge(u, v) := i];
    EndsStep3(segs, i, idOf0, idOf);
  }

  /** Adding the edge of segment `i` between the nodes of its ends extends the edges to the first `i + 1` segments. */
  lemma EdgesStep(segs: seq<Segment3>, i: nat, idOf0: map<Vec3, string>, idOf: map<Vec3, string>,
                  source: map<set<string>, nat>, t0: PipeGraph, t: PipeGraph)
    requires i < |segs| && EdgesFor(segs, i, idOf0, source, t0)
    requires forall d :: d in idOf0 ==> d in idOf && idOf[d] == idOf0[d]
    requires segs[i].start3 in idOf && segs[i].end3 in idOf
    requires forall a, b :: Adjacent(t, a, b) <==>
      (Adjacent(t0, a, b) || (a, b) == (idOf[segs[i].start3], idOf[segs[i].end3]) ||
       (a, b) == (idOf[segs[i].end3], idOf[segs[i].start3]))
    requires t.attrs == t0.attrs[Edge(idOf[segs[i].start3], idOf[segs[i].end3]) := EdgeFor(segs[i])]
    ensures EdgesFor(segs, i + 1, idOf, source[Edge(idOf[segs[i].start3], idOf[segs[i].end3]) := i], t)
  {
    JoinsStep3(segs, i, idOf0, idOf, t0, t);
    SourcesStep(segs, i, idOf0, idOf, source, t0, t);
    forall j | 0 <= j < i + 1
      ensures segs[j].start3 in idOf && segs[j].end3 in idOf && Adjacent(t, idOf[segs[j].start3], idOf[segs[j].end3])
    {
      if j < i {
        assert Adjacent(t0, idOf0[segs[j].start3], idOf0[segs[j].end3]);
      }
    }
  }

  /** Storing segment `i` on the edge between the nodes of its ends makes it that edge's last segment. */
  lemma SourcesStep(segs: seq<Segment3>, i: nat, idOf0: map<Vec3, string>, idOf: map<Vec3, string>,
                    source: map<set<string>, nat>, t0: PipeGraph, t: PipeGraph)
    requires i < |segs| && SourcesFor(segs, i, idOf0, source, t0)
    requires forall d :: d in idOf0 ==> d in idOf && idOf[d] == idOf0[d]
    requires segs[i].start3 in idOf && segs[i].end3 in idOf
    requires t.attrs == t0.attrs[Edge(idOf[segs[i].start3], idOf[segs[i].end3]) := EdgeFor(segs[i])]
    ensures SourcesFor(segs, i + 1, idOf, source[Edge(idOf[segs[i].start3], idOf[segs[i].end3]) := i], t)
  {
    var source' := source[Edge(idOf[segs[i].start3], idOf[segs[i].end3]) := i];
    forall k | k in t.attrs
      ensures k in source' && LastSource(segs, i + 1, idOf, k, source'[k]) && t.attrs[k] == EdgeFor(segs[source'[k]])
    {
      SourceAt(segs, i, idOf0, idOf, source, t0, t, k);
    }
  }

  /** `SourcesStep` at one edge `k`. */
  lemma SourceAt(segs: seq<Segment3>, i: nat, idOf0: map<Vec3, string>, idOf: map<Vec3, string>,
                 source: map<set<string>, nat>, t0: PipeGraph, t: PipeGraph, k: set<string>)
    requires i < |segs| && SourcesFor(segs, i, idOf0, source, t0)
    requires forall d :: d in idOf0 ==> d in idOf && idOf[d] == idOf0[d]
    requires segs[i].start3 in idOf && segs[i].end3 in idOf
    requires t.attrs == t0.attrs[Edge(idOf[segs[i].start3], idOf[segs[i].end3]) := EdgeFor(segs[i])]
    requires k in t.attrs
    ensures var source' := source[Edge(idOf[segs[i].start3], idOf[segs[i].end3]) := i];
      k in source' && LastSource(segs, i + 1, idOf, k, source'[k]) && t.attrs[k] == EdgeFor(segs[source'[k]])
  {
    if k == Edge(idOf[segs[i].start3], idOf[segs[i].end3]) {
      assert LastSource(segs, i + 1, idOf, k, i);
    } else {
      SourceKept(segs, i, idOf0, idOf, k, source[k]);
    }
  }

  /** Another edge than segment `i`'s keeps its last segment, under the extended `idOf`. */
  lemma SourceKept(segs: seq<Segment3>, i: nat, idOf0: map<Vec3, string>, idOf: map<Vec3, string>, k: set<string>, j: nat)
    requires i < |segs| && LastSource(segs, i, idOf0, k, j)
    requires forall d :: d in idOf0 ==> d in idOf && idOf[d] == idOf0[d]
    requires segs[i].start3 in idOf && segs[i].end3 in idOf
    requires k != Edge(idOf[segs[i].start3], idOf[segs[i].end3])
    ensures LastSource(segs, i + 1, idOf, k, j)
  {
    forall l | j <= l < i
      ensures segs[l].start3 in idOf && segs[l].end3 in idOf
      ensures Edge(idOf[segs[l].start3], idOf[segs[l].end3]) == Edge(idOf0[segs[l].start3], idOf0[segs[l].end3])
    {
    }
  }

  /** Every adjacency after adding the edge of segment `i` comes from one of the first `i + 1` segments. */
  lemma JoinsStep3(segs: seq<Segment3>, i: nat, idOf0: map<Vec3, string>, idOf: map<Vec3, string>,
                   t0: PipeGraph, t: PipeGraph)
    requires i < |segs|
    requires forall a, b {:trigger Joins3Among(segs, i, idOf0, a, b)} :: Adjacent(t0, a, b) ==> Joins3Among(segs, i, idOf0, a, b)
    requires forall d :: d in idOf0 ==> d in idOf && idOf[d] == idOf0[d]
    requires segs[i].start3 in idOf && segs[i].end3 in idOf
    requires forall a, b :: Adjacent(t, a, b) <==>
      (Adjacent(t0, a, b) || (a, b) == (idOf[segs[i].start3], idOf[segs[i].end3]) ||
       (a, b) == (idOf[segs[i].end3], idOf[segs[i].start3]))
    ensures forall a, b {:trigger Joins3Among(segs, i + 1, idOf, a, b)} :: Adjacent(t, a, b) ==> Joins3Among(segs, i + 1, idOf, a, b)
  {
    var u, v := idOf[segs[i].start3], idOf[segs[i].end3];
    forall a, b | Adjacent(t, a, b) ensures Joins3Among(segs, i + 1, idOf, a, b) {
      if Adjacent(t0, a, b) {
        assert Joins3Among(segs, i, idOf0, a, b);
        var j :| 0 <= j < i && j < |segs| && segs[j].start3 in idOf0 && segs[j].end3 in idOf0 &&
          Edge(a, b) == Edge(idOf0[segs[j].start3], idOf0[segs[j].end3]);
        assert Edge(a, b) == Edge(idOf[segs[j].start3], idOf[segs[j].end3]);
      } else {
        EdgeSame(a, b, u, v);
      }
    }
  }

  /** Meeting the two ends of segment `i` extends the coordinates met to the first `i + 1` segments. */
  lemma EndsStep3(segs: seq<Segment3>, i: nat, idOf0: map<Vec3, string>, idOf: map<Vec3, string>)
    requires i < |segs| && EndsFor(segs, i, idOf0)
    requires forall d :: d in idOf <==> d in idOf0 || d == segs[i].start3 || d == segs[i].end3
    ensures EndsFor(segs, i + 1, idOf)
  {
    forall c ensures c in idOf <==> IsEnd3Among(segs, i + 1, c) {
      if IsEnd3Among(segs, i + 1, c) {
        var j :| 0 <= j < i + 1 && j < |segs| && (segs[j].start3 == c || segs[j].end3 == c);
        if j < i {
          assert IsEnd3Among(segs, i, c);
        }
      }
      if c in idOf0 {
        assert IsEnd3Among(segs, i, c);
      }
    }
  }

  /** `data.get("is_construction")` of an edge of the 3D graph. */
  function IsConstructionEdge(e: EdgeData): bool {
    e.isConstruction
  }

  /** The graph `_cleanup_graph` leaves: construction edges removed, then the nodes left without edges. */
  function Cleaned(g: PipeGraph): (r: PipeGraph)
    requires Valid(g)
    ensures Valid(r)
  {
    RemoveIsolated(RemoveEdgesWhere(g, IsConstructionEdge))
  }

  /**
   * After the cleanup no edge is a construction edge, every other edge is
   * still there, and every node has an edge.
   */
  lemma CleanedEdges(g: PipeGraph)
    requires Valid(g)
    ensures var r := Cleaned(g);
      && (forall k :: k in r.attrs ==> !r.attrs[k].isConstruction)
      && (forall a, b :: Adjacent(r, a, b) <==> Adjacent(g, a, b) && !g.attrs[Edge(a, b)].isConstruction)
      && (forall n :: n in r.adj ==> Degree(r, n) > 0)
  {
    var h := RemoveEdgesWhere(g, IsConstructionEdge);
    var r := Cleaned(g);
    forall n | n in r.adj ensures Degree(r, n) > 0 {
      assert !Isolated(h, n);
    }
  }

  /**
   * The nodes that keep an edge, and only those, survive the cleanup, with
   * their records, in their old order.
   */
  lemma CleanedNodes(g: PipeGraph)
    requires Valid(g)
    ensures var r := Cleaned(g);
      && (forall n :: n in r.nodeData <==>
            n in g.nodeData && exists b :: Adjacent(g, n, b) && !g.attrs[Edge(n, b)].isConstruction)
      && (forall n :: n in r.nodeData ==> r.nodeData[n] == g.nodeData[n])
      && r.order == Filter(g.order, n => n in r.nodeData)
  {
    var h := RemoveEdgesWhere(g, IsConstructionEdge);
    var r := Cleaned(g);
    forall n | n in r.nodeData
      ensures exists b :: Adjacent(g, n, b) && !g.attrs[Edge(n, b)].isConstruction
    {
      assert !Isolated(h, n);
      var b := h.adj[n][0];
      assert Adjacent(h, n, b);
    }
    forall n, b | n in g.nodeData && Adjacent(g, n, b) && !g.attrs[Edge(n, b)].isConstruction
      ensures n in r.nodeData
    {
      assert Adjacent(h, n, b);
    }
    FilterSame(g.order, n => !Isolated(h, n), n => n in r.nodeData);
  }

  /**
   * `TopologyBuilder`: the parsed sketch and the catalog it was given, the
   * 3D pipe graph and node list it builds, and the 2D-to-3D point map the
   * traversal fills in.
   */
  class TopologyBuilder {
    const sketch: seq<Segment>
    const catalog: CatalogLoader
    var topology: PipeGraph
    var nodes: seq<NodeInfo>
    var point2dTo3d: map<Point2, Vec3>

    constructor (sketch: seq<Segment>, catalog: CatalogLoader)
      ensures this.sketch == sketch && this.catalog == catalog
      ensures topology == Empty() && nodes == [] && point2dTo3d == map[]
    {
      this.sketch := sketch;
      this.catalog := catalog;
      topology := Empty();
      nodes := [];
      point2dTo3d := map[];
    }

    /**
     * `_translate_2d_to_3d`.  The dimensioned segments form the sketch graph
     * `g`; with no dimensioned segment nothing is emitted.  Otherwise the
     * traversal from `Root(g)` places the points connected to it, each once,
     * the root at the origin, and emits one tree segment per placed point
     * other than the root: a segment closing a cycle, or one not connected to
     * the root, is dropped.  The shortcut segments follow, each one emitted
     * exactly when both its ends have a 3D point.  As for `Traverse`, the
     * order of the tree segments and the coordinates reached around a cycle
     * whose lengths do not close are left unstated.
     */
    method Translate(m: MathOracle)
      returns (out: seq<Segment3>, g: SketchGraph, root: Point2, coords: map<Point2, Vec3>,
               tree: seq<Segment3>, ghost parents: seq<Point2>, ghost children: seq<Point2>)
      modifies this
      ensures topology == old(topology) && nodes == old(nodes)
      ensures IsSketchGraph(Filter(sketch, IsDimensioned), g)
      ensures g.order == [] <==> Filter(sketch, IsDimensioned) == []
      ensures g.order == [] ==> out == [] && point2dTo3d == old(point2dTo3d)
      ensures g.order != [] ==>
        root == Root(g) && Placed(m, g, root, coords, tree, parents, children) &&
        (forall p, n :: p in coords && Adjacent(g, p, n) ==> n in coords) &&
        point2dTo3d == old(point2dTo3d) + coords &&
        out == tree + ShortcutSegments(m, Filter(sketch, IsShortcut), point2dTo3d)
    {
      var dimensioned := Filter(sketch, IsDimensioned);
      var shortcuts := Filter(sketch, IsShortcut);
      g, root, coords, tree, parents, children := PlaceSketch(m, dimensioned);
      if g.order == [] {
        return [], g, root, coords, tree, parents, children;
      }
      point2dTo3d := point2dTo3d + coords;
      out := EmitShortcuts(m, tree, shortcuts, point2dTo3d);
    }
  
    /**
     * `_build_graph`, on the empty graph the constructor leaves: one plain
     * node per distinct 3D coordinate, under a fresh id taken from `ids` in
     * order (the source draws them from `uuid4`), and one edge per segment
     * between the nodes of its ends.  Each edge carries the id, the spec name
     * (stripped, with '-' replaced by '_') and the construction flag (false
     * when absent) of the last segment joining its two nodes.
     */
    method BuildGraph(segs: seq<Segment3>, ids: seq<string>)
      returns (idOf: map<Vec3, string>, created: seq<Vec3>, ghost source: map<set<string>, nat>)
      modifies this
      requires topology == Empty()
      requires Distinct(ids) && |ids| >= 2 * |segs|
      ensures nodes == old(nodes) && point2dTo3d == old(point2dTo3d)
      ensures NodesFor(ids, idOf, created, topology)
      ensures EndsFor(segs, |segs|, idOf)
      ensures EdgesFor(segs, |segs|, idOf, source, topology)
    {
      topology, idOf, created, source := BuildFrom(segs, ids);
    }

    /** `_cleanup_graph`: drop the construction edges, then the nodes left without edges. */
    method Cleanup()
      modifies this
      requires Valid(topology)
      ensures topology == Cleaned(old(topology))
      ensures nodes == old(nodes) && point2dTo3d == old(point2dTo3d)
    {
      topology := RemoveEdgesWhere(topology, IsConstructionEdge);
      topology := RemoveIsolated(topology);
    }

    /**
     * `_enrich_nodes`: visit the nodes in order, store each one's enriched
     * record in the graph, and finally list the records stored, in order.
     * `cs` are the choices of run and spec name made at the nodes got
     * through.  When the body raises at the next node, for the choice
     * `stuck`, the records stored so far stay and the node list is not
     * replaced.
     */
    method Enrich(m: MathOracle) returns (r: Result<bool>, ghost cs: seq<Choice>, ghost stuck: Choice)
      modifies this
      requires Valid(topology)
      ensures point2dTo3d == old(point2dTo3d)
      ensures Enriches(m, old(topology), catalog.standards, r, topology, cs, nodes, stuck)
      ensures r.Err? ==> nodes == old(nodes)
    {
      var g, collected;
      r, g, cs, collected, stuck := EnrichAll(m, topology, catalog.standards);
      topology := g;
      if r.Ok? {
        nodes := collected;
      }
    }
  }
}