/**
 * The route planner: starting at each endpoint, it walks the enriched
 * topology and writes down the nodes it passes and the edges it walks,
 * never walking an edge twice across all the walks.  At a tee it keeps to
 * the run when it can.
 */
module Planning {
  import opened Wrappers
  import opened Seqs
  import opened Text
  import opened Graphs
  import opened NodeTypes
  import opened Walks

  /** An item of a route plan: a node passed, or an edge walked together with its length, if it has one. */
  datatype PlanItem = NodeItem(id: string) | EdgeItem(pair: EdgeKey, length: Option<real>)

  /** The first element of `xs` that belongs to `run`. */
  function FirstIn(xs: seq<string>, run: seq<string>): Option<string> {
    if xs == [] then None
    else if xs[0] in run then Some(xs[0])
    else FirstIn(xs[1..], run)
  }

  /** The element found is in both sequences; none is found exactly when they share no element. */
  lemma {:induction false} FirstInSpec(xs: seq<string>, run: seq<string>)
    ensures var r := FirstIn(xs, run);
      && (r.Some? ==> r.value in xs && r.value in run)
      && (r.None? <==> forall x :: x in xs ==> x !in run)
  {
    if xs != [] {
      FirstInSpec(xs[1..], run);
    }
  }

  /** The run of a tee; nothing for any other kind of node. */
  function RunIds(k: Kind): seq<string> {
    if k.Tee? then k.runNodeIds else []
  }

  /**
   * `_find_next_node`: of the open neighbours, the first that lies on a
   * tee's run, or else the first.
   */
  function NextNode(g: PipeGraph, cur: NodeInfo, prev: Option<string>, visited: set<EdgeKey>): (r: Option<string>)
    requires cur.id in g.adj
    ensures r.Some? ==> r.value in g.adj[cur.id] && Some(r.value) != prev && SortedPair(cur.id, r.value) !in visited
  {
    var open := OpenAmong(cur.id, prev, visited, g.adj[cur.id]);
    OpenAmongMembers(cur.id, prev, visited, g.adj[cur.id]);
    FirstInSpec(open, RunIds(cur.kind));
    if open == [] then None
    else if cur.kind.Tee? && FirstIn(open, RunIds(cur.kind)).Some? then FirstIn(open, RunIds(cur.kind))
    else Some(open[0])
  }

  /**
   * There is no next node exactly when every neighbour is the node the walk
   * came from or lies across a walked edge; at a tee, an open neighbour on
   * the run is chosen over any other.
   */
  lemma NextNodeChoice(g: PipeGraph, cur: NodeInfo, prev: Option<string>, visited: set<EdgeKey>)
    requires cur.id in g.adj
    ensures var r := NextNode(g, cur, prev, visited);
      && (r.None? <==> forall n :: n in g.adj[cur.id] ==> Some(n) == prev || SortedPair(cur.id, n) in visited)
      && (cur.kind.Tee? && (exists n :: n in g.adj[cur.id] && n in cur.kind.runNodeIds && Some(n) != prev && SortedPair(cur.id, n) !in visited)
          ==> r.Some? && r.value in cur.kind.runNodeIds)
  {
    var open := OpenAmong(cur.id, prev, visited, g.adj[cur.id]);
    OpenAmongMembers(cur.id, prev, visited, g.adj[cur.id]);
    FirstInSpec(open, RunIds(cur.kind));
    if cur.kind.Tee? && (exists n :: n in g.adj[cur.id] && n in cur.kind.runNodeIds && Some(n) != prev && SortedPair(cur.id, n) !in visited) {
      var n :| n in g.adj[cur.id] && n in cur.kind.runNodeIds && Some(n) != prev && SortedPair(cur.id, n) !in visited;
      assert n in open;
    }
  }

  /**
   * Away from a tee's run, the next node is the first open neighbour in
   * neighbour order.
   */
  lemma NextNodeFirst(g: PipeGraph, cur: NodeInfo, prev: Option<string>, visited: set<EdgeKey>, j: int)
    requires cur.id in g.adj && 0 <= j < |g.adj[cur.id]|
    requires Some(g.adj[cur.id][j]) != prev && SortedPair(cur.id, g.adj[cur.id][j]) !in visited
    requires forall i :: 0 <= i < j ==> Some(g.adj[cur.id][i]) == prev || SortedPair(cur.id, g.adj[cur.id][i]) in visited
    requires cur.kind.Tee? ==> forall n :: n in g.adj[cur.id] && n in cur.kind.runNodeIds ==> Some(n) == prev || SortedPair(cur.id, n) in visited
    ensures NextNode(g, cur, prev, visited) == Some(g.adj[cur.id][j])
  {
    var open := OpenAmong(cur.id, prev, visited, g.adj[cur.id]);
    OpenAmongMembers(cur.id, prev, visited, g.adj[cur.id]);
    OpenAmongFirst(cur.id, prev, visited, g.adj[cur.id], j);
    FirstInSpec(open, RunIds(cur.kind));
  }

  /** The first pass of `_find_next_node`: the elements of `ns` other than `prev`. */
  function NotFrom(prev: Option<string>, ns: seq<string>): seq<string> {
    if ns == [] then [] else (if Some(ns[0]) != prev then [ns[0]] else []) + NotFrom(prev, ns[1..])
  }

  /** The second pass: the elements of `ns` across an edge from `id` not yet walked. */
  function Unwalked(id: string, visited: set<EdgeKey>, ns: seq<string>): seq<string> {
    if ns == [] then [] else (if SortedPair(id, ns[0]) !in visited then [ns[0]] else []) + Unwalked(id, visited, ns[1..])
  }

  /** The two passes together keep exactly the open elements. */
  lemma {:induction false} OpenAmongSplit(id: string, prev: Option<string>, visited: set<EdgeKey>, ns: seq<string>)
    ensures Unwalked(id, visited, NotFrom(prev, ns)) == OpenAmong(id, prev, visited, ns)
  {
    if ns != [] {
      OpenAmongSplit(id, prev, visited, ns[1..]);
      var head := if Some(ns[0]) != prev then [ns[0]] else [];
      UnwalkedAppend(id, visited, head, NotFrom(prev, ns[1..]));
    }
  }

  lemma {:induction false} UnwalkedAppend(id: string, visited: set<EdgeKey>, a: seq<string>, b: seq<string>)
    ensures Unwalked(id, visited, a + b) == Unwalked(id, visited, a) + Unwalked(id, visited, b)
  {
    if a == [] {
      assert a + b == b;
    } else {
      assert (a + b)[0] == a[0] && (a + b)[1..] == a[1..] + b;
      UnwalkedAppend(id, visited, a[1..], b);
    }
  }

  /**
   * `_traverse_and_build_plan` from `cur`, having come from `prev`, with the
   * edges in `visited` already walked: the plan it writes and the edges
   * walked when it stops.  A next node that the lookup does not know ends
   * the walk just after the edge to it.
   */
  ghost function Walk(g: PipeGraph, byId: map<string, NodeInfo>, cur: NodeInfo, prev: Option<string>, visited: set<EdgeKey>)
    : (seq<PlanItem>, set<EdgeKey>)
    requires Fits(g, byId) && cur.id in g.adj
    decreases |Keys(g) - visited|
  {
    var next := NextNode(g, cur, prev, visited);
    if Truthy(next) then
      var n := next.value;
      var key := SortedPair(cur.id, n);
      var step := [NodeItem(cur.id), EdgeItem(key, g.attrs[Edge(cur.id, n)].length)];
      KeysShrink(g, visited, cur.id, n);
      if n in byId then
        var rest := Walk(g, byId, byId[n], Some(cur.id), visited + {key});
        (step + rest.0, rest.1)
      else (step, visited + {key})
    else ([NodeItem(cur.id)], visited)
  }

  /** Nodes at the even positions, edges at the odd ones. */
  predicate Alternates(plan: seq<PlanItem>) {
    forall i :: 0 <= i < |plan| ==> (plan[i].NodeItem? <==> i % 2 == 0)
  }

  /**
   * Each edge between two nodes is the sorted pair of their ids and joins
   * them in the graph; an edge at the end of a plan has its node before it
   * as one end.
   */
  predicate Joined(g: PipeGraph, plan: seq<PlanItem>) {
    && (forall i :: 0 < i < |plan| - 1 && plan[i].EdgeItem? && plan[i - 1].NodeItem? && plan[i + 1].NodeItem? ==>
          plan[i].pair == SortedPair(plan[i - 1].id, plan[i + 1].id) && Adjacent(g, plan[i - 1].id, plan[i + 1].id))
    && (forall i :: 0 < i < |plan| && plan[i].EdgeItem? && plan[i - 1].NodeItem? ==>
          plan[i - 1].id in {plan[i].pair.0, plan[i].pair.1})
  }

  /** Each edge item carries the length stored on its edge of the graph. */
  predicate LengthsCopied(g: PipeGraph, plan: seq<PlanItem>) {
    forall i :: 0 <= i < |plan| && plan[i].EdgeItem? ==>
      {plan[i].pair.0, plan[i].pair.1} in g.attrs && plan[i].length == g.attrs[{plan[i].pair.0, plan[i].pair.1}].length
  }

  /** The edges of a plan, in plan order. */
  function EdgesOf(plan: seq<PlanItem>): (r: seq<EdgeKey>)
    ensures |r| <= |plan|
  {
    if plan == [] then []
    else (if plan[0].EdgeItem? then [plan[0].pair] else []) + EdgesOf(plan[1..])
  }

  lemma {:induction false} EdgesOfAppend(a: seq<PlanItem>, b: seq<PlanItem>)
    ensures EdgesOf(a + b) == EdgesOf(a) + EdgesOf(b)
  {
    if a == [] {
      assert a + b == b;
    } else {
      assert (a + b)[0] == a[0] && (a + b)[1..] == a[1..] + b;
      EdgesOfAppend(a[1..], b);
    }
  }

  /** Two alternating plans, the first of even length, alternate when joined. */
  lemma AlternatesAppend(a: seq<PlanItem>, b: seq<PlanItem>)
    requires Alternates(a) && Alternates(b) && |a| % 2 == 0
    ensures Alternates(a + b)
  {
    forall i | |a| <= i < |a + b| ensures (a + b)[i] == b[i - |a|] {
    }
  }

  /** Putting a node and an edge to the next node in front of a joined plan that starts at that node keeps it joined. */
  lemma JoinedCons(g: PipeGraph, a: string, len: Option<real>, rest: seq<PlanItem>)
    requires rest != [] && rest[0].NodeItem? && Adjacent(g, a, rest[0].id) && Joined(g, rest)
    ensures Joined(g, [NodeItem(a), EdgeItem(SortedPair(a, rest[0].id), len)] + rest)
  {
    var plan := [NodeItem(a), EdgeItem(SortedPair(a, rest[0].id), len)] + rest;
    forall i | 0 < i < |plan| - 1 && plan[i].EdgeItem? && plan[i - 1].NodeItem? && plan[i + 1].NodeItem?
      ensures plan[i].pair == SortedPair(plan[i - 1].id, plan[i + 1].id) && Adjacent(g, plan[i - 1].id, plan[i + 1].id)
    {
      if i > 1 {
        assert plan[i - 1] == rest[i - 3] && plan[i] == rest[i - 2] && plan[i + 1] == rest[i - 1];
      }
    }
    forall i | 0 < i < |plan| && plan[i].EdgeItem? && plan[i - 1].NodeItem?
      ensures plan[i - 1].id in {plan[i].pair.0, plan[i].pair.1}
    {
      if i > 1 {
        assert plan[i - 1] == rest[i - 3] && plan[i] == rest[i - 2];
      }
    }
  }

  /** Two plans whose edges carry their lengths still do when joined. */
  lemma LengthsAppend(g: PipeGraph, a: seq<PlanItem>, b: seq<PlanItem>)
    requires LengthsCopied(g, a) && LengthsCopied(g, b)
    ensures LengthsCopied(g, a + b)
  {
    forall i | |a| <= i < |a + b| ensures (a + b)[i] == b[i - |a|] {
    }
  }

  /** A walk starts at its own node and alternates nodes and edges. */
  lemma {:induction false} WalkAlternates(g: PipeGraph, byId: map<string, NodeInfo>, cur: NodeInfo, prev: Option<string>, visited: set<EdgeKey>)
    requires Fits(g, byId) && cur.id in g.adj
    ensures var plan := Walk(g, byId, cur, prev, visited).0;
      plan != [] && plan[0] == NodeItem(cur.id) && Alternates(plan)
    decreases |Walk(g, byId, cur, prev, visited).0|
  {
    var next := NextNode(g, cur, prev, visited);
    if Truthy(next) {
      var n := next.value;
      var key := SortedPair(cur.id, n);
      var step := [NodeItem(cur.id), EdgeItem(key, g.attrs[Edge(cur.id, n)].length)];
      if n in byId {
        WalkAlternates(g, byId, byId[n], Some(cur.id), visited + {key});
        AlternatesAppend(step, Walk(g, byId, byId[n], Some(cur.id), visited + {key}).0);
      }
    }
  }

  /** Consecutive nodes of a walk are neighbours, and the edge between them is their sorted pair. */
  lemma {:induction false} WalkJoined(g: PipeGraph, byId: map<string, NodeInfo>, cur: NodeInfo, prev: Option<string>, visited: set<EdgeKey>)
    requires Fits(g, byId) && cur.id in g.adj
    ensures Joined(g, Walk(g, byId, cur, prev, visited).0)
    decreases |Walk(g, byId, cur, prev, visited).0|
  {
    var next := NextNode(g, cur, prev, visited);
    if Truthy(next) {
      var n := next.value;
      var key := SortedPair(cur.id, n);
      SortedPairSymmetric(cur.id, n);
      if n in byId {
        WalkJoined(g, byId, byId[n], Some(cur.id), visited + {key});
        WalkAlternates(g, byId, byId[n], Some(cur.id), visited + {key});
        JoinedCons(g, cur.id, g.attrs[Edge(cur.id, n)].length, Walk(g, byId, byId[n], Some(cur.id), visited + {key}).0);
      }
    }
  }

  /** Every edge item of a walk carries the length of its edge. */
  lemma {:induction false} WalkLengths(g: PipeGraph, byId: map<string, NodeInfo>, cur: NodeInfo, prev: Option<string>, visited: set<EdgeKey>)
    requires Fits(g, byId) && cur.id in g.adj
    ensures LengthsCopied(g, Walk(g, byId, cur, prev, visited).0)
    decreases |Walk(g, byId, cur, prev, visited).0|
  {
    var next := NextNode(g, cur, prev, visited);
    if Truthy(next) {
      var n := next.value;
      var key := SortedPair(cur.id, n);
      var step := [NodeItem(cur.id), EdgeItem(key, g.attrs[Edge(cur.id, n)].length)];
      SortedPairSymmetric(cur.id, n);
      assert {key.0, key.1} == Edge(cur.id, n);
      assert LengthsCopied(g, step);
      if n in byId {
        WalkLengths(g, byId, byId[n], Some(cur.id), visited + {key});
        LengthsAppend(g, step, Walk(g, byId, byId[n], Some(cur.id), visited + {key}).0);
      }
    }
  }

  /** The plan so far followed by the rest of the walk is the whole walk. */
  ghost predicate Continues(plan: seq<PlanItem>, rest: (seq<PlanItem>, set<EdgeKey>), whole: (seq<PlanItem>, set<EdgeKey>)) {
    plan + rest.0 == whole.0 && rest.1 == whole.1
  }

  /**
   * One step of a walk: the node, then either the end, or the edge to the
   * next node and, when the lookup knows that node, the walk from there.
   */
  lemma WalkStep(g: PipeGraph, byId: map<string, NodeInfo>, cur: NodeInfo, prev: Option<string>, visited: set<EdgeKey>)
    requires Fits(g, byId) && cur.id in g.adj
    ensures var next := NextNode(g, cur, prev, visited);
      var w := Walk(g, byId, cur, prev, visited);
      if !Truthy(next) then w == ([NodeItem(cur.id)], visited)
      else
        var n := next.value;
        var key := SortedPair(cur.id, n);
        && Adjacent(g, cur.id, n) && Edge(cur.id, n) in g.attrs
        && |Keys(g) - (visited + {key})| < |Keys(g) - visited|
        && var step := [NodeItem(cur.id), EdgeItem(key, g.attrs[Edge(cur.id, n)].length)];
        if n in byId then
          && byId[n].id in g.adj
          && var rest := Walk(g, byId, byId[n], Some(cur.id), visited + {key});
          w == (step + rest.0, rest.1)
        else w == (step, visited + {key})
  {
    var next := NextNode(g, cur, prev, visited);
    if Truthy(next) {
      KeysShrink(g, visited, cur.id, next.value);
    }
  }

  /** Two items added one after the other are the pair added at once. */
  lemma AppendTwo(before: seq<PlanItem>, x: PlanItem, y: PlanItem, rest: seq<PlanItem>)
    ensures before + [x] + [y] + rest == before + ([x, y] + rest)
  {
  }

  /** A round of the loop in `_traverse_and_build_plan` that finds no next node ends the walk. */
  lemma TraverseEnds(g: PipeGraph, byId: map<string, NodeInfo>, cur: NodeInfo, prev: Option<string>, visited: set<EdgeKey>,
                     before: seq<PlanItem>, whole: (seq<PlanItem>, set<EdgeKey>))
    requires Fits(g, byId) && cur.id in g.adj
    requires Continues(before, Walk(g, byId, cur, prev, visited), whole)
    requires !Truthy(NextNode(g, cur, prev, visited))
    ensures before + [NodeItem(cur.id)] == whole.0 && visited == whole.1
  {
    WalkStep(g, byId, cur, prev, visited);
  }

  /**
   * A round of the loop in `_traverse_and_build_plan` that steps to the
   * next node adds the node and the edge to the plan and the edge to the
   * walked ones, and what remains is the walk from the next node.
   */
  lemma TraverseSteps(g: PipeGraph, byId: map<string, NodeInfo>, cur: NodeInfo, prev: Option<string>, visited: set<EdgeKey>,
                      before: seq<PlanItem>, whole: (seq<PlanItem>, set<EdgeKey>))
    requires Fits(g, byId) && cur.id in g.adj
    requires Continues(before, Walk(g, byId, cur, prev, visited), whole)
    requires Truthy(NextNode(g, cur, prev, visited))
    ensures var n := NextNode(g, cur, prev, visited).value;
      var key := SortedPair(cur.id, n);
      && Edge(cur.id, n) in g.attrs
      && |Keys(g) - (visited + {key})| < |Keys(g) - visited|
      && var plan := before + [NodeItem(cur.id)] + [EdgeItem(key, g.attrs[Edge(cur.id, n)].length)];
      if n in byId then
        byId[n].id in g.adj && Continues(plan, Walk(g, byId, byId[n], Some(cur.id), visited + {key}), whole)
      else plan == whole.0 && visited + {key} == whole.1
  {
    WalkStep(g, byId, cur, prev, visited);
    var n := NextNode(g, cur, prev, visited).value;
    var key := SortedPair(cur.id, n);
    var edge := EdgeItem(key, g.attrs[Edge(cur.id, n)].length);
    if n in byId {
      AppendTwo(before, NodeItem(cur.id), edge, Walk(g, byId, byId[n], Some(cur.id), visited + {key}).0);
    } else {
      AppendTwo(before, NodeItem(cur.id), edge, []);
    }
  }

  /**
   * A walk walks only edges not walked before, none of them twice, and
   * afterwards exactly those edges have been added to the walked ones.
   */
  lemma {:induction false} WalkFresh(g: PipeGraph, byId: map<string, NodeInfo>, cur: NodeInfo, prev: Option<string>, visited: set<EdgeKey>)
    requires Fits(g, byId) && cur.id in g.adj
    ensures var w := Walk(g, byId, cur, prev, visited);
      && Distinct(EdgesOf(w.0))
      && (forall e :: e in EdgesOf(w.0) ==> e !in visited)
      && w.1 == visited + set e | e in EdgesOf(w.0)
    decreases |Walk(g, byId, cur, prev, visited).0|
  {
    var next := NextNode(g, cur, prev, visited);
    var plan := Walk(g, byId, cur, prev, visited).0;
    if Truthy(next) {
      var n := next.value;
      var key := SortedPair(cur.id, n);
      var step := [NodeItem(cur.id), EdgeItem(key, g.attrs[Edge(cur.id, n)].length)];
      assert EdgesOf(step) == [key] by {
        assert step[1..][1..] == [];
      }
      if n in byId {
        WalkFresh(g, byId, byId[n], Some(cur.id), visited + {key});
        var rest := Walk(g, byId, byId[n], Some(cur.id), visited + {key}).0;
        EdgesOfAppend(step, rest);
        DistinctAppend([key], EdgesOf(rest));
      }
    } else {
      assert EdgesOf(plan) == [];
    }
  }

  /** Every edge a walk walks is an edge of the graph. */
  lemma {:induction false} WalkInGraph(g: PipeGraph, byId: map<string, NodeInfo>, cur: NodeInfo, prev: Option<string>, visited: set<EdgeKey>)
    requires Fits(g, byId) && cur.id in g.adj
    ensures forall e :: e in EdgesOf(Walk(g, byId, cur, prev, visited).0) ==> e in Keys(g)
    decreases |Walk(g, byId, cur, prev, visited).0|
  {
    var next := NextNode(g, cur, prev, visited);
    var plan := Walk(g, byId, cur, prev, visited).0;
    if Truthy(next) {
      var n := next.value;
      var key := SortedPair(cur.id, n);
      var step := [NodeItem(cur.id), EdgeItem(key, g.attrs[Edge(cur.id, n)].length)];
      assert EdgesOf(step) == [key] by {
        assert step[1..][1..] == [];
      }
      KeyOf(g, cur.id, n);
      if n in byId {
        WalkInGraph(g, byId, byId[n], Some(cur.id), visited + {key});
        var rest := Walk(g, byId, byId[n], Some(cur.id), visited + {key}).0;
        EdgesOfAppend(step, rest);
      }
    } else {
      assert EdgesOf(plan) == [];
    }
  }

  /** A walk walks at most as many edges as the graph has edges not walked before. */
  lemma WalkBounded(g: PipeGraph, byId: map<string, NodeInfo>, cur: NodeInfo, prev: Option<string>, visited: set<EdgeKey>)
    requires Fits(g, byId) && cur.id in g.adj
    ensures |EdgesOf(Walk(g, byId, cur, prev, visited).0)| <= |Keys(g) - visited|
  {
    var edges := EdgesOf(Walk(g, byId, cur, prev, visited).0);
    WalkFresh(g, byId, cur, prev, visited);
    WalkInGraph(g, byId, cur, prev, visited);
    DistinctWithin(edges, Keys(g) - visited);
  }

  /**
   * When the lookup knows every node of the graph, a walk ends on a node:
   * a plan holds one node more than it holds edges.
   */
  lemma {:induction false} WalkEndsOnNode(g: PipeGraph, byId: map<string, NodeInfo>, cur: NodeInfo, prev: Option<string>, visited: set<EdgeKey>)
    requires Fits(g, byId) && cur.id in g.adj
    requires forall n :: n in g.adj ==> n in byId
    ensures |Walk(g, byId, cur, prev, visited).0| % 2 == 1
    decreases |Walk(g, byId, cur, prev, visited).0|
  {
    var next := NextNode(g, cur, prev, visited);
    if Truthy(next) {
      var n := next.value;
      assert Adjacent(g, cur.id, n);
      WalkEndsOnNode(g, byId, byId[n], Some(cur.id), visited + {SortedPair(cur.id, n)});
    }
  }

  /**
   * `create_plans` over the start nodes `starts`, with the edges in
   * `visited` already walked: a start whose first edge was walked starts no
   * plan; every other start contributes the plan of its walk.
   */
  ghost function Plans(g: PipeGraph, byId: map<string, NodeInfo>, starts: seq<NodeInfo>, visited: set<EdgeKey>)
    : (r: (seq<seq<PlanItem>>, set<EdgeKey>))
    requires Fits(g, byId) && forall s :: s in starts ==> s.id in g.adj
    ensures |r.0| <= |starts| && visited <= r.1
    decreases |starts|
  {
    if starts == [] then ([], visited)
    else
      var init := starts[..|starts| - 1];
      var s := starts[|starts| - 1];
      assert forall x :: x in init ==> x in starts;
      var before := Plans(g, byId, init, visited);
      if Skipped(g, s, before.1) then before
      else
        var w := Walk(g, byId, s, None, before.1);
        WalkFresh(g, byId, s, None, before.1);
        (before.0 + [w.0], w.1)
  }

  /** `create_plans` one start further: skipped, or one more walk. */
  lemma PlansStep(g: PipeGraph, byId: map<string, NodeInfo>, starts: seq<NodeInfo>, i: int, visited: set<EdgeKey>)
    requires Fits(g, byId) && forall s :: s in starts ==> s.id in g.adj
    requires 0 <= i < |starts|
    ensures var before := Plans(g, byId, starts[..i], visited);
      var s := starts[i];
      Plans(g, byId, starts[..i + 1], visited) ==
        if Skipped(g, s, before.1) then before
        else var w := Walk(g, byId, s, None, before.1); (before.0 + [w.0], w.1)
  {
    assert starts[..i + 1][..i] == starts[..i];
  }

  /** All edges of a list of plans, plan after plan. */
  function AllEdges(plans: seq<seq<PlanItem>>): seq<EdgeKey> {
    if plans == [] then [] else AllEdges(plans[..|plans| - 1]) + EdgesOf(plans[|plans| - 1])
  }

  lemma AllEdgesSnoc(plans: seq<seq<PlanItem>>, p: seq<PlanItem>)
    ensures AllEdges(plans + [p]) == AllEdges(plans) + EdgesOf(p)
  {
    assert (plans + [p])[..|plans|] == plans;
  }

  /**
   * Across all plans no edge is walked twice; every edge walked is an edge
   * of the graph not walked before; the walked edges grow by exactly the
   * edges of the plans.
   */
  lemma {:induction false} PlansDisjoint(g: PipeGraph, byId: map<string, NodeInfo>, starts: seq<NodeInfo>, visited: set<EdgeKey>)
    requires Fits(g, byId) && forall s :: s in starts ==> s.id in g.adj
    ensures var r := Plans(g, byId, starts, visited);
      && Distinct(AllEdges(r.0))
      && (forall e :: e in AllEdges(r.0) ==> e !in visited && e in Keys(g))
      && r.1 == visited + set e | e in AllEdges(r.0)
    decreases |starts|
  {
    if starts != [] {
      var init := starts[..|starts| - 1];
      var s := starts[|starts| - 1];
      assert forall x :: x in init ==> x in starts;
      PlansDisjoint(g, byId, init, visited);
      var before := Plans(g, byId, init, visited);
      if !Skipped(g, s, before.1) {
        WalkFresh(g, byId, s, None, before.1);
        var w := Walk(g, byId, s, None, before.1);
        AllEdgesSnoc(before.0, w.0);
        FreshAppend(visited, AllEdges(before.0), before.1, EdgesOf(w.0), w.1);
        WalkInGraph(g, byId, s, None, before.1);
      }
    }
  }

  /** Every plan is non-empty and starts at one of the start nodes. */
  lemma {:induction false} PlansStart(g: PipeGraph, byId: map<string, NodeInfo>, starts: seq<NodeInfo>, visited: set<EdgeKey>)
    requires Fits(g, byId) && forall s :: s in starts ==> s.id in g.adj
    ensures forall p: seq<PlanItem> :: p in Plans(g, byId, starts, visited).0 ==>
      p != [] && p[0].NodeItem? && p[0].id in (set s | s in starts :: s.id)
    decreases |starts|
  {
    if starts != [] {
      var init := starts[..|starts| - 1];
      var s := starts[|starts| - 1];
      assert forall x :: x in init ==> x in starts;
      PlansStart(g, byId, init, visited);
      var before := Plans(g, byId, init, visited);
      if !Skipped(g, s, before.1) {
        WalkAlternates(g, byId, s, None, before.1);
      }
    }
  }

  /** The first loop of `_find_next_node`: the neighbours other than `prev`. */
  method KeepNotFrom(prev: Option<string>, ns: seq<string>) returns (potential: seq<string>)
    ensures potential == NotFrom(prev, ns)
  {
    potential := [];
    for i := 0 to |ns|
      invariant potential + NotFrom(prev, ns[i..]) == NotFrom(prev, ns)
    {
      assert ns[i..][1..] == ns[i + 1..];
      if Some(ns[i]) != prev {
        potential := potential + [ns[i]];
      }
    }
  }

  /** The second loop: the neighbours across an edge not walked yet. */
  method KeepUnwalked(id: string, visited: set<EdgeKey>, ns: seq<string>) returns (unvisited: seq<string>)
    ensures unvisited == Unwalked(id, visited, ns)
  {
    unvisited := [];
    for i := 0 to |ns|
      invariant unvisited + Unwalked(id, visited, ns[i..]) == Unwalked(id, visited, ns)
    {
      assert ns[i..][1..] == ns[i + 1..];
      if SortedPair(id, ns[i]) !in visited {
        unvisited := unvisited + [ns[i]];
      }
    }
  }

  /** The loop over a tee's open neighbours looking for one on the run. */
  method FindInRun(xs: seq<string>, run: seq<string>) returns (r: Option<string>)
    ensures r == FirstIn(xs, run)
  {
    for i := 0 to |xs|
      invariant FirstIn(xs[i..], run) == FirstIn(xs, run)
    {
      if xs[i] in run {
        assert xs[i..][0] == xs[i];
        return Some(xs[i]);
      }
      assert xs[i..][1..] == xs[i + 1..];
    }
    return None;
  }

  /** `Planner`: the nodes, their lookup by id, the topology, and the edges walked so far. */
  class Planner {
    const nodes: seq<NodeInfo>
    const nodesById: map<string, NodeInfo>
    const topology: PipeGraph
    var visitedEdges: set<EdgeKey>

    /** The nodes are nodes of a well-formed topology, and the lookup is built from them. */
    ghost predicate Ready() {
      Valid(topology) && Covered(topology, nodes) && nodesById == ById(nodes)
    }

    constructor(nodes: seq<NodeInfo>, topology: PipeGraph)
      ensures this.nodes == nodes && this.topology == topology
      ensures nodesById == ById(nodes) && visitedEdges == {}
    {
      this.nodes := nodes;
      this.nodesById := ById(nodes);
      this.topology := topology;
      this.visitedEdges := {};
    }

    /** `_find_next_node`: the neighbours other than `prev`, then those across an edge not yet walked, then the choice. */
    method FindNextNode(cur: NodeInfo, prev: Option<string>) returns (r: Option<string>)
      requires cur.id in topology.adj
      ensures r == NextNode(topology, cur, prev, visitedEdges)
    {
      var potential := KeepNotFrom(prev, topology.adj[cur.id]);
      var unvisited := KeepUnwalked(cur.id, visitedEdges, potential);
      OpenAmongSplit(cur.id, prev, visitedEdges, topology.adj[cur.id]);
      if unvisited == [] {
        return None;
      }
      if cur.kind.Tee? {
        var onRun := FindInRun(unvisited, cur.kind.runNodeIds);
        if onRun.Some? {
          return onRun;
        }
      }
      return Some(unvisited[0]);
    }

    /** `_traverse_and_build_plan`: the walk from `start`, recording the edges it walks. */
    method Traverse(start: NodeInfo) returns (plan: seq<PlanItem>)
      requires Ready() && start.id in topology.nodeData
      modifies this
      ensures (plan, visitedEdges) == Walk(topology, nodesById, start, None, old(visitedEdges))
    {
      CoveredFits(topology, nodes);
      ghost var whole := Walk(topology, nodesById, start, None, visitedEdges);
      plan := [];
      var current: Option<NodeInfo> := Some(start);
      var previous: Option<string> := None;
      while current.Some?
        invariant Fits(topology, nodesById)
        invariant current.Some? ==> current.value.id in topology.adj && Continues(plan, Walk(topology, nodesById, current.value, previous, visitedEdges), whole)
        invariant current.None? ==> plan == whole.0 && visitedEdges == whole.1
        decreases if current.Some? then |Keys(topology) - visitedEdges| + 1 else 0
      {
        var cur := current.value;
        ghost var before := plan;
        plan := plan + [NodeItem(cur.id)];
        var next := FindNextNode(cur, previous);
        if next.Some? && next.value != "" {
          TraverseSteps(topology, nodesById, cur, previous, visitedEdges, before, whole);
          var key := SortedPair(cur.id, next.value);
          visitedEdges := visitedEdges + {key};
          var edge := topology.attrs[Edge(cur.id, next.value)];
          plan := plan + [EdgeItem(key, edge.length)];
          previous := Some(cur.id);
          current := if next.value in nodesById then Some(nodesById[next.value]) else None;
        } else {
          TraverseEnds(topology, nodesById, cur, previous, visitedEdges, before, whole);
          current := None;
        }
      }
    }

    /** `create_plans`: one walk per endpoint whose first edge has not been walked yet. */
    method CreatePlans() returns (plans: seq<seq<PlanItem>>)
      requires Ready()
      modifies this
      ensures (plans, visitedEdges) == Plans(topology, nodesById, Starts(nodes), old(visitedEdges))
    {
      CoveredFits(topology, nodes);
      var starts := Starts(nodes);
      ghost var v0 := visitedEdges;
      plans := [];
      for i := 0 to |starts|
        invariant (plans, visitedEdges) == Plans(topology, nodesById, starts[..i], v0)
      {
        PlansStep(topology, nodesById, starts, i, v0);
        var s := starts[i];
        if Degree(topology, s.id) > 0 {
          var neighbour := topology.adj[s.id][0];
          if SortedPair(s.id, neighbour) in visitedEdges {
            continue;
          }
        }
        WalkAlternates(topology, nodesById, s, None, visitedEdges);
        var plan := Traverse(s);
        if plan != [] {
          plans := plans + [plan];
        }
      }
      assert starts[..|starts|] == starts;
    }
  }
}
