/**
 * The build planner: the same edge-disjoint walks from the endpoints as the
 * first planner, but taking the first open neighbour in neighbour order and
 * writing COMPONENT items for nodes and STRAIGHT items for edges.
 */
module BuildPlanning {
  import opened Wrappers
  import opened Seqs
  import opened Text
  import opened Graphs
  import opened Catalog
  import opened NodeTypes
  import opened Walks
  import Planning

  /** A build-plan entry: a fitting at a node, or a straight pipe along an edge. */
  datatype BuildItem =
    | Component(componentName: string, nodeId: string, specName: string, length: real)
    | Straight(specName: string, isConstruction: bool, straightLength: Option<real>)

  /**
   * Python's `round(x)` on a float: the nearest integer, and the even one
   * of the two when `x` lies exactly half-way.
   */
  function RoundHalfEven(x: real): (r: int)
    ensures x - 0.5 <= r as real <= x + 0.5
    ensures (r as real == x - 0.5 || r as real == x + 0.5) ==> r % 2 == 0
  {
    var f := x.Floor;
    var d := x - f as real;
    if d < 0.5 then f
    else if d > 0.5 then f + 1
    else if f % 2 == 0 then f
    else f + 1
  }

  /** An angle rounds to 90 exactly when it lies in [89.5, 90.5]: both half-way points go to the even 90. */
  lemma RoundsTo90(a: real)
    ensures RoundHalfEven(a) == 90 <==> 89.5 <= a <= 90.5
  {
  }

  /** An angle rounds to 45 exactly when it lies strictly inside (44.5, 45.5): both half-way points leave 45. */
  lemma RoundsTo45(a: real)
    ensures RoundHalfEven(a) == 45 <==> 44.5 < a < 45.5
  {
    var r := RoundHalfEven(a);
    if a == 44.5 {
      assert r == 44;
    } else if a == 45.5 {
      assert r == 46;
    }
  }

  /** The spec name of a node's assigned spec, or "UNKNOWN_SPEC" when none is assigned. */
  function SpecNameOf(n: NodeInfo): (r: string)
    ensures n.assignedSpec.None? ==> r == "UNKNOWN_SPEC"
    ensures n.assignedSpec.Some? ==> r == n.assignedSpec.value.name
  {
    if n.assignedSpec.Some? then n.assignedSpec.value.name else "UNKNOWN_SPEC"
  }

  /**
   * The component type of a node: a bend is named by its rounded angle (an
   * absent angle counts as 0), an endpoint by its fitting type, any other
   * node by its `node_type`.
   */
  function ComponentType(n: NodeInfo): (t: string)
    ensures n.kind.Bend? ==> t in {"BEND_90", "BEND_45", "BEND_CUSTOM"}
    ensures n.kind.Bend? ==> (t == "BEND_90" <==> n.kind.angle.Some? && 89.5 <= n.kind.angle.value <= 90.5)
    ensures n.kind.Bend? ==> (t == "BEND_45" <==> n.kind.angle.Some? && 44.5 < n.kind.angle.value < 45.5)
    ensures n.kind.Endpoint? ==> t == n.kind.fittingType
    ensures !n.kind.Bend? && !n.kind.Endpoint? ==> t == n.nodeType
  {
    match n.kind
    case Bend(angle, _) =>
      var a := if angle.Some? then RoundHalfEven(angle.value) else 0;
      var x := if angle.Some? then angle.value else 0.0;
      RoundsTo90(x);
      RoundsTo45(x);
      if a == 90 then "BEND_90" else if a == 45 then "BEND_45" else "BEND_CUSTOM"
    case Endpoint(fittingType, _) => fittingType
    case _ => n.nodeType
  }

  /** `_create_component_item`: always an item, named by type and spec, 0 long for an open end and 50 otherwise. */
  function ComponentItem(n: NodeInfo): (r: BuildItem)
    ensures r.Component? && r.nodeId == n.id && r.specName == SpecNameOf(n)
    ensures r.componentName == ComponentType(n) + "_" + r.specName
    ensures r.length == 0.0 <==> ComponentType(n) == "OPEN"
    ensures r.length == 0.0 || r.length == 50.0
  {
    var t := ComponentType(n);
    Component(t + "_" + SpecNameOf(n), n.id, SpecNameOf(n), if t == "OPEN" then 0.0 else 50.0)
  }

  /** A new endpoint, open and without a spec, becomes the zero-length component "OPEN_UNKNOWN_SPEC". */
  lemma NewEndpointComponent(coords: Vectors.Vec3, id: string)
    ensures ComponentItem(NewEndpoint(coords, id)) == Component("OPEN_UNKNOWN_SPEC", id, "UNKNOWN_SPEC", 0.0)
  {
  }

  /** `_create_straight_item`: the edge's spec and construction flag, and no length. */
  function StraightItem(e: EdgeData): (r: BuildItem)
    ensures r.Straight? && r.straightLength.None?
    ensures r.specName == e.specName && r.isConstruction == e.isConstruction
  {
    Straight(e.specName, e.isConstruction, None)
  }

  /** The first element of `ns` the walk may step to from `id`: not `prev`, and across an edge not walked. */
  function FirstOpenIn(id: string, prev: Option<string>, visited: set<EdgeKey>, ns: seq<string>): Option<string> {
    if ns == [] then None
    else if Some(ns[0]) != prev && SortedPair(id, ns[0]) !in visited then Some(ns[0])
    else FirstOpenIn(id, prev, visited, ns[1..])
  }

  /**
   * The choice is the element at the first open position, and there is
   * none exactly when no element is open.
   */
  lemma {:induction false} FirstOpenInSpec(id: string, prev: Option<string>, visited: set<EdgeKey>, ns: seq<string>)
    ensures var r := FirstOpenIn(id, prev, visited, ns);
      && (r.None? <==> forall n :: n in ns ==> Some(n) == prev || SortedPair(id, n) in visited)
      && (r.Some? ==> exists j :: 0 <= j < |ns| && ns[j] == r.value && Some(ns[j]) != prev && SortedPair(id, ns[j]) !in visited
                        && forall i :: 0 <= i < j ==> Some(ns[i]) == prev || SortedPair(id, ns[i]) in visited)
  {
    if ns != [] {
      FirstOpenInSpec(id, prev, visited, ns[1..]);
      var r := FirstOpenIn(id, prev, visited, ns);
      if !(Some(ns[0]) != prev && SortedPair(id, ns[0]) !in visited) && r.Some? {
        var j :| 0 <= j < |ns[1..]| && ns[1..][j] == r.value && Some(ns[1..][j]) != prev && SortedPair(id, ns[1..][j]) !in visited
                  && forall i :: 0 <= i < j ==> Some(ns[1..][i]) == prev || SortedPair(id, ns[1..][i]) in visited;
        assert forall i :: 0 < i < j + 1 ==> ns[i] == ns[1..][i - 1];
      }
    }
  }

  /** The first open element is the head of all the open elements the first planner collects. */
  lemma {:induction false} FirstOpenInHead(id: string, prev: Option<string>, visited: set<EdgeKey>, ns: seq<string>)
    ensures var open := OpenAmong(id, prev, visited, ns);
      FirstOpenIn(id, prev, visited, ns) == if open == [] then None else Some(open[0])
  {
    if ns != [] {
      FirstOpenInHead(id, prev, visited, ns[1..]);
    }
  }

  /**
   * The neighbour loop of `_traverse_and_build_plan`: the first neighbour
   * of `cur` that is neither `prev` nor across a walked edge.
   */
  function FirstOpen(g: PipeGraph, cur: NodeInfo, prev: Option<string>, visited: set<EdgeKey>): (r: Option<string>)
    requires cur.id in g.adj
    ensures r.Some? ==> Adjacent(g, cur.id, r.value) && Some(r.value) != prev && SortedPair(cur.id, r.value) !in visited
    ensures r.None? <==> forall n :: n in g.adj[cur.id] ==> Some(n) == prev || SortedPair(cur.id, n) in visited
  {
    FirstOpenInSpec(cur.id, prev, visited, g.adj[cur.id]);
    FirstOpenIn(cur.id, prev, visited, g.adj[cur.id])
  }

  /** Away from a tee both planners step to the same neighbour. */
  lemma FirstOpenAsPlanner(g: PipeGraph, cur: NodeInfo, prev: Option<string>, visited: set<EdgeKey>)
    requires cur.id in g.adj && !cur.kind.Tee?
    ensures FirstOpen(g, cur, prev, visited) == Planning.NextNode(g, cur, prev, visited)
  {
    FirstOpenInHead(cur.id, prev, visited, g.adj[cur.id]);
  }

  /**
   * `_traverse_and_build_plan` from `cur`, having come from `prev`, with the
   * edges in `visited` already walked: the plan it writes, the edges it
   * walks in order, and the walked edges when it stops.
   */
  ghost function BuildWalk(g: PipeGraph, byId: map<string, NodeInfo>, cur: NodeInfo, prev: Option<string>, visited: set<EdgeKey>)
    : (seq<BuildItem>, seq<EdgeKey>, set<EdgeKey>)
    requires Fits(g, byId) && cur.id in g.adj
    decreases |Keys(g) - visited|
  {
    var next := FirstOpen(g, cur, prev, visited);
    if Truthy(next) then
      var n := next.value;
      var key := SortedPair(cur.id, n);
      var step := [ComponentItem(cur), StraightItem(g.attrs[Edge(cur.id, n)])];
      KeysShrink(g, visited, cur.id, n);
      if n in byId then
        var rest := BuildWalk(g, byId, byId[n], Some(cur.id), visited + {key});
        (step + rest.0, [key] + rest.1, rest.2)
      else (step, [key], visited + {key})
    else ([ComponentItem(cur)], [], visited)
  }

  /** Components at the even positions, straights at the odd ones. */
  predicate Alternating(plan: seq<BuildItem>) {
    forall i :: 0 <= i < |plan| ==> (plan[i].Component? <==> i % 2 == 0)
  }

  /**
   * The plan has one straight per walked edge: the straight after the k-th
   * component copies the k-th edge's data, and that component's node is an
   * end of the edge.
   */
  predicate Carries(g: PipeGraph, plan: seq<BuildItem>, trail: seq<EdgeKey>) {
    && (|plan| == 2 * |trail| || |plan| == 2 * |trail| + 1)
    && forall k :: 0 <= k < |trail| ==>
         && {trail[k].0, trail[k].1} in g.attrs
         && plan[2 * k + 1] == StraightItem(g.attrs[{trail[k].0, trail[k].1}])
         && plan[2 * k].Component? && plan[2 * k].nodeId in {trail[k].0, trail[k].1}
  }

  /** An edge between two components is the sorted pair of their nodes. */
  predicate Linked(plan: seq<BuildItem>, trail: seq<EdgeKey>) {
    forall k :: 0 <= k < |trail| && 2 * k + 2 < |plan| && plan[2 * k].Component? && plan[2 * k + 2].Component? ==>
      trail[k] == SortedPair(plan[2 * k].nodeId, plan[2 * k + 2].nodeId)
  }

  /** A component and a straight in front of an alternating plan keep it alternating. */
  lemma AlternatingCons(c: BuildItem, s: BuildItem, plan: seq<BuildItem>)
    requires c.Component? && s.Straight? && Alternating(plan)
    ensures Alternating([c, s] + plan)
  {
    var p := [c, s] + plan;
    forall i | 2 <= i < |p| ensures p[i] == plan[i - 2] {
    }
  }

  /** A step in front of a plan that carries its trail carries the step's edge first. */
  lemma CarriesCons(g: PipeGraph, c: BuildItem, key: EdgeKey, plan: seq<BuildItem>, trail: seq<EdgeKey>)
    requires c.Component? && c.nodeId in {key.0, key.1} && {key.0, key.1} in g.attrs
    requires Carries(g, plan, trail)
    ensures Carries(g, [c, StraightItem(g.attrs[{key.0, key.1}])] + plan, [key] + trail)
  {
    var p := [c, StraightItem(g.attrs[{key.0, key.1}])] + plan;
    var t := [key] + trail;
    forall k | 1 <= k < |t|
      ensures p[2 * k] == plan[2 * (k - 1)] && p[2 * k + 1] == plan[2 * (k - 1) + 1] && t[k] == trail[k - 1]
    {
    }
  }

  /** A step whose edge joins its node to the head of a linked plan keeps the plan linked. */
  lemma LinkedCons(c: BuildItem, s: BuildItem, key: EdgeKey, plan: seq<BuildItem>, trail: seq<EdgeKey>)
    requires c.Component? && Linked(plan, trail)
    requires plan != [] && plan[0].Component? ==> key == SortedPair(c.nodeId, plan[0].nodeId)
    ensures Linked([c, s] + plan, [key] + trail)
  {
    var p := [c, s] + plan;
    var t := [key] + trail;
    forall k | 1 <= k < |t| && 2 * k + 2 < |p|
      ensures p[2 * k] == plan[2 * (k - 1)] && p[2 * k + 2] == plan[2 * (k - 1) + 2] && t[k] == trail[k - 1]
    {
    }
  }

  /**
   * A walk writes the component of its start first, alternates components
   * and straights, has one straight per edge it walks, each copying its
   * edge's data, and each edge joins the components around it.
   */
  lemma {:induction false} BuildWalkShape(g: PipeGraph, byId: map<string, NodeInfo>, cur: NodeInfo, prev: Option<string>, visited: set<EdgeKey>)
    requires Fits(g, byId) && cur.id in g.adj
    ensures var w := BuildWalk(g, byId, cur, prev, visited);
      && w.0 != [] && w.0[0] == ComponentItem(cur)
      && Alternating(w.0) && Carries(g, w.0, w.1) && Linked(w.0, w.1)
    decreases |BuildWalk(g, byId, cur, prev, visited).0|
  {
    var next := FirstOpen(g, cur, prev, visited);
    if Truthy(next) {
      var n := next.value;
      var key := SortedPair(cur.id, n);
      SortedPairSymmetric(cur.id, n);
      var c := ComponentItem(cur);
      var s := StraightItem(g.attrs[Edge(cur.id, n)]);
      if n in byId {
        BuildWalkShape(g, byId, byId[n], Some(cur.id), visited + {key});
        var rest := BuildWalk(g, byId, byId[n], Some(cur.id), visited + {key});
        AlternatingCons(c, s, rest.0);
        CarriesCons(g, c, key, rest.0, rest.1);
        LinkedCons(c, s, key, rest.0, rest.1);
      } else {
        AlternatingCons(c, s, []);
        CarriesCons(g, c, key, [], []);
        LinkedCons(c, s, key, [], []);
      }
    }
  }

  /**
   * A walk walks only edges of the graph not walked before, none of them
   * twice, and afterwards exactly those edges have been added to the walked
   * ones.
   */
  lemma {:induction false} BuildWalkFresh(g: PipeGraph, byId: map<string, NodeInfo>, cur: NodeInfo, prev: Option<string>, visited: set<EdgeKey>)
    requires Fits(g, byId) && cur.id in g.adj
    ensures var w := BuildWalk(g, byId, cur, prev, visited);
      && Distinct(w.1)
      && (forall e :: e in w.1 ==> e !in visited && e in Keys(g))
      && w.2 == visited + set e | e in w.1
    decreases |BuildWalk(g, byId, cur, prev, visited).0|
  {
    var next := FirstOpen(g, cur, prev, visited);
    if Truthy(next) {
      var n := next.value;
      var key := SortedPair(cur.id, n);
      KeyOf(g, cur.id, n);
      if n in byId {
        BuildWalkFresh(g, byId, byId[n], Some(cur.id), visited + {key});
        var rest := BuildWalk(g, byId, byId[n], Some(cur.id), visited + {key});
        FreshAppend(visited, [key], visited + {key}, rest.1, rest.2);
      }
    }
  }

  /**
   * When the lookup knows every node of the graph, a walk ends on a
   * component: it holds one component more than straights.
   */
  lemma {:induction false} BuildWalkEndsOnComponent(g: PipeGraph, byId: map<string, NodeInfo>, cur: NodeInfo, prev: Option<string>, visited: set<EdgeKey>)
    requires Fits(g, byId) && cur.id in g.adj
    requires forall n :: n in g.adj ==> n in byId
    ensures var w := BuildWalk(g, byId, cur, prev, visited);
      |w.0| == 2 * |w.1| + 1
    decreases |BuildWalk(g, byId, cur, prev, visited).0|
  {
    var next := FirstOpen(g, cur, prev, visited);
    if Truthy(next) {
      var n := next.value;
      assert Adjacent(g, cur.id, n);
      BuildWalkEndsOnComponent(g, byId, byId[n], Some(cur.id), visited + {SortedPair(cur.id, n)});
    }
  }

  /**
   * `create_plans` over the start nodes `starts`, with the edges in
   * `visited` already walked: the plans, all edges walked in order, and the
   * walked edges at the end.
   */
  ghost function BuildPlans(g: PipeGraph, byId: map<string, NodeInfo>, starts: seq<NodeInfo>, visited: set<EdgeKey>)
    : (r: (seq<seq<BuildItem>>, seq<EdgeKey>, set<EdgeKey>))
    requires Fits(g, byId) && forall s :: s in starts ==> s.id in g.adj
    ensures |r.0| <= |starts|
    decreases |starts|
  {
    if starts == [] then ([], [], visited)
    else
      var init := starts[..|starts| - 1];
      var s := starts[|starts| - 1];
      assert forall x :: x in init ==> x in starts;
      var before := BuildPlans(g, byId, init, visited);
      if Skipped(g, s, before.2) then before
      else
        var w := BuildWalk(g, byId, s, None, before.2);
        (before.0 + [w.0], before.1 + w.1, w.2)
  }

  /** `create_plans` one start further: skipped, or one more walk. */
  lemma BuildPlansStep(g: PipeGraph, byId: map<string, NodeInfo>, starts: seq<NodeInfo>, i: int, visited: set<EdgeKey>)
    requires Fits(g, byId) && forall s :: s in starts ==> s.id in g.adj
    requires 0 <= i < |starts|
    ensures var before := BuildPlans(g, byId, starts[..i], visited);
      var s := starts[i];
      BuildPlans(g, byId, starts[..i + 1], visited) ==
        if Skipped(g, s, before.2) then before
        else var w := BuildWalk(g, byId, s, None, before.2); (before.0 + [w.0], before.1 + w.1, w.2)
  {
    assert starts[..i + 1][..i] == starts[..i];
  }

  /**
   * Across all plans no edge is walked twice: every edge walked is an edge
   * of the graph not walked before, and the walked edges grow by exactly
   * those edges.
   */
  lemma {:induction false} BuildPlansDisjoint(g: PipeGraph, byId: map<string, NodeInfo>, starts: seq<NodeInfo>, visited: set<EdgeKey>)
    requires Fits(g, byId) && forall s :: s in starts ==> s.id in g.adj
    ensures var r := BuildPlans(g, byId, starts, visited);
      && Distinct(r.1)
      && (forall e :: e in r.1 ==> e !in visited && e in Keys(g))
      && r.2 == visited + set e | e in r.1
    decreases |starts|
  {
    if starts != [] {
      var init := starts[..|starts| - 1];
      var s := starts[|starts| - 1];
      assert forall x :: x in init ==> x in starts;
      BuildPlansDisjoint(g, byId, init, visited);
      var before := BuildPlans(g, byId, init, visited);
      if !Skipped(g, s, before.2) {
        BuildWalkFresh(g, byId, s, None, before.2);
        var w := BuildWalk(g, byId, s, None, before.2);
        FreshAppend(visited, before.1, before.2, w.1, w.2);
      }
    }
  }

  /** All plans together hold at most as many straights as the graph has edges not walked before. */
  lemma BuildPlansBounded(g: PipeGraph, byId: map<string, NodeInfo>, starts: seq<NodeInfo>, visited: set<EdgeKey>)
    requires Fits(g, byId) && forall s :: s in starts ==> s.id in g.adj
    ensures |BuildPlans(g, byId, starts, visited).1| <= |Keys(g) - visited|
  {
    BuildPlansDisjoint(g, byId, starts, visited);
    var r := BuildPlans(g, byId, starts, visited);
    DistinctWithin(r.1, Keys(g) - visited);
  }

  /** Every plan is non-empty and opens with the component of one of the start nodes. */
  lemma {:induction false} BuildPlansStart(g: PipeGraph, byId: map<string, NodeInfo>, starts: seq<NodeInfo>, visited: set<EdgeKey>)
    requires Fits(g, byId) && forall s :: s in starts ==> s.id in g.adj
    ensures forall p: seq<BuildItem> :: p in BuildPlans(g, byId, starts, visited).0 ==>
      p != [] && exists s :: s in starts && p[0] == ComponentItem(s)
    decreases |starts|
  {
    if starts != [] {
      var init := starts[..|starts| - 1];
      var s := starts[|starts| - 1];
      assert forall x :: x in init ==> x in starts;
      BuildPlansStart(g, byId, init, visited);
      var before := BuildPlans(g, byId, init, visited);
      if !Skipped(g, s, before.2) {
        BuildWalkShape(g, byId, s, None, before.2);
      }
    }
  }

  /** The neighbour loop of `_traverse_and_build_plan`, with its `continue` and its `break`. */
  method FindFirstOpen(id: string, prev: Option<string>, visited: set<EdgeKey>, ns: seq<string>) returns (r: Option<string>)
    ensures r == FirstOpenIn(id, prev, visited, ns)
  {
    r := None;
    for i := 0 to |ns|
      invariant r.None? && FirstOpenIn(id, prev, visited, ns[i..]) == FirstOpenIn(id, prev, visited, ns)
    {
      assert ns[i..][0] == ns[i] && ns[i..][1..] == ns[i + 1..];
      if Some(ns[i]) == prev {
        continue;
      }
      if SortedPair(id, ns[i]) !in visited {
        r := Some(ns[i]);
        break;
      }
    }
  }

  /** The plan so far followed by the rest of the walk is the whole walk. */
  ghost predicate Continues(plan: seq<BuildItem>, rest: (seq<BuildItem>, seq<EdgeKey>, set<EdgeKey>),
                            whole: (seq<BuildItem>, seq<EdgeKey>, set<EdgeKey>)) {
    plan + rest.0 == whole.0 && rest.2 == whole.2
  }

  /** Two items added one after the other are the pair added at once. */
  lemma AppendTwo(before: seq<BuildItem>, x: BuildItem, y: BuildItem, rest: seq<BuildItem>)
    ensures before + [x] + [y] + rest == before + ([x, y] + rest)
  {
  }

  /** A round of the walk loop that finds no next node ends the walk. */
  lemma TraverseEnds(g: PipeGraph, byId: map<string, NodeInfo>, cur: NodeInfo, prev: Option<string>, visited: set<EdgeKey>,
                     before: seq<BuildItem>, whole: (seq<BuildItem>, seq<EdgeKey>, set<EdgeKey>))
    requires Fits(g, byId) && cur.id in g.adj
    requires Continues(before, BuildWalk(g, byId, cur, prev, visited), whole)
    requires !Truthy(FirstOpen(g, cur, prev, visited))
    ensures before + [ComponentItem(cur)] == whole.0 && visited == whole.2
  {
  }

  /**
   * A round of the walk loop that steps on adds the component and the
   * straight to the plan and the edge to the walked ones, and what remains
   * is the walk from the next node.
   */
  lemma TraverseSteps(g: PipeGraph, byId: map<string, NodeInfo>, cur: NodeInfo, prev: Option<string>, visited: set<EdgeKey>,
                      before: seq<BuildItem>, whole: (seq<BuildItem>, seq<EdgeKey>, set<EdgeKey>))
    requires Fits(g, byId) && cur.id in g.adj
    requires Continues(before, BuildWalk(g, byId, cur, prev, visited), whole)
    requires Truthy(FirstOpen(g, cur, prev, visited))
    ensures var n := FirstOpen(g, cur, prev, visited).value;
      var key := SortedPair(cur.id, n);
      && Edge(cur.id, n) in g.attrs
      && |Keys(g) - (visited + {key})| < |Keys(g) - visited|
      && var plan := before + [ComponentItem(cur)] + [StraightItem(g.attrs[Edge(cur.id, n)])];
      if n in byId then
        byId[n].id in g.adj && Continues(plan, BuildWalk(g, byId, byId[n], Some(cur.id), visited + {key}), whole)
      else plan == whole.0 && visited + {key} == whole.2
  {
    var n := FirstOpen(g, cur, prev, visited).value;
    var key := SortedPair(cur.id, n);
    KeysShrink(g, visited, cur.id, n);
    var s := StraightItem(g.attrs[Edge(cur.id, n)]);
    if n in byId {
      AppendTwo(before, ComponentItem(cur), s, BuildWalk(g, byId, byId[n], Some(cur.id), visited + {key}).0);
    } else {
      AppendTwo(before, ComponentItem(cur), s, []);
    }
  }

  /** `BuildPlanner`: the nodes, their lookup by id, the topology, and the edges walked so far. */
  class BuildPlanner {
    const nodes: seq<NodeInfo>
    const nodesById: map<string, NodeInfo>
    const topology: PipeGraph
    var visitedEdges: set<EdgeKey>

    /** The nodes are nodes of a well-formed topology, and the lookup is built from them. */
    ghost predicate Ready() {
      Valid(topology) && Covered(topology, nodes) && nodesById == ById(nodes)
    }

    constructor(nodes: seq<NodeInfo>, topology: PipeGraph)
      ensures this.nodes == nodes && this.topology == topology
      ensures nodesById == ById(nodes) && visitedEdges == {}
    {
      this.nodes := nodes;
      this.nodesById := ById(nodes);
      this.topology := topology;
      this.visitedEdges := {};
    }

    /** `_traverse_and_build_plan`: the walk from `start`, recording the edges it walks. */
    method Traverse(start: NodeInfo) returns (plan: seq<BuildItem>)
      requires Ready() && start.id in topology.nodeData
      modifies this
      ensures var w := BuildWalk(topology, nodesById, start, None, old(visitedEdges));
        plan == w.0 && visitedEdges == w.2
    {
      CoveredFits(topology, nodes);
      ghost var whole := BuildWalk(topology, nodesById, start, None, visitedEdges);
      plan := [];
      var current: Option<NodeInfo> := Some(start);
      var previous: Option<string> := None;
      while current.Some?
        invariant Fits(topology, nodesById)
        invariant current.Some? ==> (current.value.id in topology.adj
          && Continues(plan, BuildWalk(topology, nodesById, current.value, previous, visitedEdges), whole))
        invariant current.None? ==> plan == whole.0 && visitedEdges == whole.2
        decreases if current.Some? then |Keys(topology) - visitedEdges| + 1 else 0
      {
        var cur := current.value;
        ghost var before := plan;
        plan := plan + [ComponentItem(cur)];
        var next := FindFirstOpen(cur.id, previous, visitedEdges, topology.adj[cur.id]);
        if next.Some? && next.value != "" {
          TraverseSteps(topology, nodesById, cur, previous, visitedEdges, before, whole);
          var key := SortedPair(cur.id, next.value);
          visitedEdges := visitedEdges + {key};
          var edge := topology.attrs[Edge(cur.id, next.value)];
          plan := plan + [StraightItem(edge)];
          previous := Some(cur.id);
          current := if next.value in nodesById then Some(nodesById[next.value]) else None;
        } else {
          TraverseEnds(topology, nodesById, cur, previous, visitedEdges, before, whole);
          current := None;
        }
      }
    }

    /** `create_plans`: one walk per endpoint whose first edge has not been walked yet. */
    method CreatePlans() returns (plans: seq<seq<BuildItem>>)
      requires Ready()
      modifies this
      ensures var r := BuildPlans(topology, nodesById, Starts(nodes), old(visitedEdges));
        plans == r.0 && visitedEdges == r.2
    {
      CoveredFits(topology, nodes);
      var starts := Starts(nodes);
      ghost var v0 := visitedEdges;
      plans := [];
      for i := 0 to |starts|
        invariant var r := BuildPlans(topology, nodesById, starts[..i], v0);
          plans == r.0 && visitedEdges == r.2
      {
        BuildPlansStep(topology, nodesById, starts, i, v0);
        var s := starts[i];
        if Degree(topology, s.id) > 0 {
          var neighbour := topology.adj[s.id][0];
          if SortedPair(s.id, neighbour) in visitedEdges {
            continue;
          }
        }
        BuildWalkShape(topology, nodesById, s, None, visitedEdges);
        var plan := Traverse(s);
        if plan != [] {
          plans := plans + [plan];
        }
      }
      assert starts[..|starts|] == starts;
    }
  }
}
