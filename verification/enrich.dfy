/**
 * Node enrichment (`_enrich_nodes`): every node of the topology is
 * classified by its degree into an endpoint (one edge), a bend (two) or a
 * tee (three or more), and given the specialisation's geometry, the
 * reducer flag and the catalog spec of one of the spec names on its edges.
 *
 * The per-node result is a function of the graph and of two choices the
 * source leaves to the machine: the run of a tee (the nested search below
 * determines it uniquely) and the spec name picked from a set.
 */
module Enrichment {
  import opened Wrappers
  import opened Vectors
  import opened Graphs
  import opened Catalog
  import opened NodeTypes

  /** Every neighbour of `n` is a node of `g`. */
  lemma NeighboursKnown(g: PipeGraph, n: string)
    requires Valid(g) && n in g.adj
    ensures forall x :: x in g.adj[n] ==> x in g.nodeData && Edge(n, x) in g.attrs
  {
    forall x | x in g.adj[n] ensures x in g.nodeData && Edge(n, x) in g.attrs {
      assert Adjacent(g, n, x);
    }
  }

  /** The normalised vector from the node `n` towards its neighbour `x`. */
  function Toward(m: MathOracle, g: PipeGraph, n: string, x: string): Vec3
    requires n in g.nodeData && x in g.nodeData
  {
    Normalize(m, Sub(g.nodeData[x].coords, g.nodeData[n].coords))
  }

  /** The vectors towards all neighbours of `n`, in neighbour order. */
  function TowardAll(m: MathOracle, g: PipeGraph, n: string): (vs: seq<Vec3>)
    requires Valid(g) && n in g.nodeData
    ensures |vs| == |g.adj[n]|
    ensures forall k :: 0 <= k < |vs| ==> g.adj[n][k] in g.nodeData && vs[k] == Toward(m, g, n, g.adj[n][k])
  {
    NeighboursKnown(g, n);
    var nbs := g.adj[n];
    seq(|nbs|, k requires 0 <= k < |nbs| => Toward(m, g, n, nbs[k]))
  }

  /** `max(-1.0, min(1.0, d))`. */
  function Clamp(d: real): (r: real)
    ensures -1.0 <= r <= 1.0
    ensures -1.0 <= d <= 1.0 ==> r == d
    ensures d < -1.0 ==> r == -1.0
    ensures d > 1.0 ==> r == 1.0
  {
    if d < -1.0 then -1.0 else if d > 1.0 then 1.0 else d
  }

  /** The angle of a bend in degrees: 180 minus the angle between the two legs. */
  function BendAngle(m: MathOracle, v1: Vec3, v2: Vec3): real {
    Degrees(m, m.pi - m.acos(Clamp(Dot(v1, v2))))
  }

  /** The pair `(k, l)` comes before `(i, j)` in the order the nested loops visit pairs. */
  predicate Before(k: int, l: int, i: int, j: int) {
    k < i || (k == i && l < j)
  }

  /** `(i, j)` is a pair the tee search visits. */
  predicate IsPair(vs: seq<Vec3>, i: int, j: int) {
    0 <= i < j < |vs|
  }

  /**
   * What the tee search finds: no pair when no two vectors have a dot product
   * below 1.0; otherwise the pair with the smallest dot product (the most
   * nearly opposite legs), the first such pair in loop order on a tie.
   */
  ghost predicate BestRun(vs: seq<Vec3>, run: Option<(int, int)>) {
    match run
    case None => forall k, l :: IsPair(vs, k, l) ==> Dot(vs[k], vs[l]) >= 1.0
    case Some((i, j)) =>
      IsPair(vs, i, j) && Dot(vs[i], vs[j]) < 1.0 &&
      forall k, l :: IsPair(vs, k, l) ==>
        Dot(vs[k], vs[l]) >= Dot(vs[i], vs[j]) && (Before(k, l, i, j) ==> Dot(vs[k], vs[l]) > Dot(vs[i], vs[j]))
  }

  /** The search's outcome is determined by the vectors. */
  lemma BestRunUnique(vs: seq<Vec3>, r1: Option<(int, int)>, r2: Option<(int, int)>)
    requires BestRun(vs, r1) && BestRun(vs, r2)
    ensures r1 == r2
  {
    if r1.Some? {
      var (i, j) := r1.value;
      assert IsPair(vs, i, j);
    }
    if r2.Some? {
      var (i, j) := r2.value;
      assert IsPair(vs, i, j);
    }
  }

  /**
   * The search state after visiting every pair before `(i, j)`: `best` is
   * 1.0 and `run` None while no pair has gone below it, and otherwise the
   * first pair with the smallest dot product so far and that product.
   */
  ghost predicate Scanned(vs: seq<Vec3>, i: int, j: int, best: real, run: Option<(int, int)>) {
    match run
    case None =>
      best == 1.0 &&
      forall k, l :: IsPair(vs, k, l) && Before(k, l, i, j) ==> Dot(vs[k], vs[l]) >= 1.0
    case Some((a, b)) =>
      IsPair(vs, a, b) && Before(a, b, i, j) && best == Dot(vs[a], vs[b]) && best < 1.0 &&
      forall k, l :: IsPair(vs, k, l) && Before(k, l, i, j) ==>
        Dot(vs[k], vs[l]) >= best && (Before(k, l, a, b) ==> Dot(vs[k], vs[l]) > best)
  }

  /** Visiting the pair `(i, j)` extends the search state to the pairs before `(i, j + 1)`. */
  lemma ScanPair(vs: seq<Vec3>, i: int, j: int, best: real, run: Option<(int, int)>)
    requires IsPair(vs, i, j) && Scanned(vs, i, j, best, run)
    ensures var d := Dot(vs[i], vs[j]);
      if d < best then Scanned(vs, i, j + 1, d, Some((i, j))) else Scanned(vs, i, j + 1, best, run)
  {
    var d := Dot(vs[i], vs[j]);
    forall k, l | IsPair(vs, k, l) && Before(k, l, i, j + 1) && !Before(k, l, i, j)
      ensures k == i && l == j
    {
    }
  }

  /** After the last pair of row `i` the state covers the pairs before row `i + 1`. */
  lemma ScanRow(vs: seq<Vec3>, i: int, best: real, run: Option<(int, int)>)
    requires 0 <= i < |vs| && Scanned(vs, i, |vs|, best, run)
    ensures Scanned(vs, i + 1, i + 1, best, run)
  {
    forall k, l | IsPair(vs, k, l) && Before(k, l, i + 1, i + 1)
      ensures Before(k, l, i, |vs|)
    {
    }
  }

  /** Row `i` starts with nothing new: no pair lies between `(i, i)` and `(i, i + 1)`. */
  lemma ScanStart(vs: seq<Vec3>, i: int, best: real, run: Option<(int, int)>)
    requires 0 <= i && Scanned(vs, i, i, best, run)
    ensures Scanned(vs, i, i + 1, best, run)
  {
    forall k, l | IsPair(vs, k, l) && Before(k, l, i, i + 1)
      ensures Before(k, l, i, i)
    {
    }
  }

  /** Once every pair is visited the state is the search's outcome. */
  lemma ScanDone(vs: seq<Vec3>, best: real, run: Option<(int, int)>)
    requires Scanned(vs, |vs|, |vs|, best, run)
    ensures BestRun(vs, run)
  {
    forall k, l | IsPair(vs, k, l)
      ensures Before(k, l, |vs|, |vs|)
    {
    }
  }

  /** The nested loops of the tee branch of `_enrich_nodes` that pick the run. */
  method SelectRun(vs: seq<Vec3>) returns (run: Option<(int, int)>)
    ensures BestRun(vs, run)
  {
    var best := 1.0;
    run := None;
    for i := 0 to |vs|
      invariant Scanned(vs, i, i, best, run)
    {
      ScanStart(vs, i, best, run);
      for j := i + 1 to |vs|
        invariant Scanned(vs, i, j, best, run)
      {
        ScanPair(vs, i, j, best, run);
        var d := Dot(vs[i], vs[j]);
        if d < best {
          best := d;
          run := Some((i, j));
        }
      }
      ScanRow(vs, i, best, run);
    }
    ScanDone(vs, best, run);
  }

  /** The index `k` is one of the run's two. */
  predicate InRun(k: int, i: int, j: int) {
    k == i || k == j
  }

  /**
   * `list(set(range(n)) - {i, j})[0]`: for small integers CPython's set
   * iterates in ascending order, so this is the smallest index that is not
   * in the run; with only two indices nothing is left (an IndexError).
   */
  function Branch(n: int, i: int, j: int): (b: Option<int>)
    requires 0 <= i < j < n
    ensures b.Some? <==> n > 2
    ensures b.Some? ==> 0 <= b.value < n && b.value != i && b.value != j
    ensures b.Some? ==> forall k :: 0 <= k < b.value ==> InRun(k, i, j)
  {
    if n == 2 then None
    else if 0 != i && 0 != j then Some(0)
    else if 1 != i && 1 != j then Some(1)
    else Some(2)
  }

  /**
   * The classified record of node `n` before the spec fields are set:
   * nothing for an isolated node; an endpoint pointing at its neighbour; a
   * bend with its two legs and angle, or an IndexError when its two edge
   * ends are one self-loop; a tee with the run `run` and its branch, or an
   * IndexError when the run leaves no third neighbour.
   */
  function Classify(m: MathOracle, g: PipeGraph, n: string, run: Option<(int, int)>): Result<Option<NodeInfo>>
    requires Valid(g) && n in g.nodeData
  {
    NeighboursKnown(g, n);
    var base := g.nodeData[n];
    var nbs := g.adj[n];
    var degree := Degree(g, n);
    if degree == 0 then Ok(None)
    else if degree == 1 then
      var e := NewEndpoint(base.coords, base.id);
      Ok(Some(e.(kind := e.kind.(direction := Some(Toward(m, g, n, nbs[0]))))))
    else if degree == 2 then
      if |nbs| < 2 then Err(IndexError)
      else
        var v1, v2 := Toward(m, g, n, nbs[0]), Toward(m, g, n, nbs[1]);
        var b := NewBend(base.coords, base.id);
        Ok(Some(b.(kind := Bend(Some(BendAngle(m, v1, v2)), [v1, v2]))))
    else
      var t := NewTee(base.coords, base.id);
      match run
      case None => Ok(Some(t))
      case Some((i, j)) =>
        if !(0 <= i < j < |nbs|) then Err(IndexError)
        else match Branch(|nbs|, i, j)
          case None => Err(IndexError)
          case Some(b) => Ok(Some(t.(kind := Tee([nbs[i], nbs[j]], Some(nbs[b])))))
  }

  /** The run the search picks for `n`: the search's outcome for a tee, nothing otherwise. */
  ghost predicate RunOf(m: MathOracle, g: PipeGraph, n: string, run: Option<(int, int)>)
    requires Valid(g) && n in g.nodeData
  {
    if Degree(g, n) >= 3 then BestRun(TowardAll(m, g, n), run) else run.None?
  }

  /** The spec names on the edges at `n`. */
  function SpecNames(g: PipeGraph, n: string): set<string>
    requires Valid(g) && n in g.nodeData
  {
    NeighboursKnown(g, n);
    set x | x in g.adj[n] :: g.attrs[Edge(n, x)].specName
  }

  /** `pick` is the name `list(spec_names)[0]` may give: any of them, when there is one. */
  predicate PickOf(g: PipeGraph, n: string, pick: string)
    requires Valid(g) && n in g.nodeData
  {
    SpecNames(g, n) != {} ==> pick in SpecNames(g, n)
  }

  /** The spec fields: a reducer when the edges carry more than one spec, and the catalog's spec for the picked name. */
  function WithSpecs(node: NodeInfo, names: set<string>, pick: string, standards: map<string, PipeSpecData>): NodeInfo {
    node.(requiresReducer := |names| > 1,
          assignedSpec := if names == {} then None else Lookup(standards, pick))
  }

  /** The record `_enrich_nodes` stores for `n`, or the exception it raises there. */
  function Enriched(m: MathOracle, g: PipeGraph, standards: map<string, PipeSpecData>, n: string,
                    run: Option<(int, int)>, pick: string): Result<Option<NodeInfo>>
    requires Valid(g) && n in g.nodeData
  {
    match Classify(m, g, n, run)
    case Ok(Some(node)) => Ok(Some(WithSpecs(node, SpecNames(g, n), pick, standards)))
    case other => other
  }

  /**
   * An enriched node keeps the coordinates and id of the record it replaces,
   * carries its dataclass's own `node_type`, and is an endpoint, a bend or a
   * tee exactly when the node has degree 1, 2 or at least 3; an isolated
   * node gets no record at all.
   */
  lemma EnrichedKind(m: MathOracle, g: PipeGraph, standards: map<string, PipeSpecData>, n: string,
                     run: Option<(int, int)>, pick: string)
    requires Valid(g) && n in g.nodeData
    ensures Enriched(m, g, standards, n, run, pick) == Ok(None) <==> Degree(g, n) == 0
    ensures Enriched(m, g, standards, n, run, pick).Ok? && Enriched(m, g, standards, n, run, pick).value.Some? ==>
      var x := Enriched(m, g, standards, n, run, pick).value.value;
      && WellTyped(x)
      && x.coords == g.nodeData[n].coords && x.id == g.nodeData[n].id
      && (x.kind.Endpoint? <==> Degree(g, n) == 1)
      && (x.kind.Bend? <==> Degree(g, n) == 2)
      && (x.kind.Tee? <==> Degree(g, n) >= 3)
  {
  }

  /**
   * An endpoint is open and points at its one neighbour; a bend records the
   * two legs towards its neighbours, in neighbour order, and the angle between
   * them.
   */
  lemma EnrichedGeometry(m: MathOracle, g: PipeGraph, standards: map<string, PipeSpecData>, n: string,
                         run: Option<(int, int)>, pick: string)
    requires Valid(g) && n in g.nodeData
    ensures Degree(g, n) == 1 ==>
      |g.adj[n]| == 1 && g.adj[n][0] in g.nodeData &&
      Enriched(m, g, standards, n, run, pick).Ok? &&
      Enriched(m, g, standards, n, run, pick).value.Some? &&
      Enriched(m, g, standards, n, run, pick).value.value.kind ==
        Endpoint("OPEN", Some(Toward(m, g, n, g.adj[n][0])))
    ensures Degree(g, n) == 2 && |g.adj[n]| == 2 ==>
      g.adj[n][0] in g.nodeData && g.adj[n][1] in g.nodeData &&
      Enriched(m, g, standards, n, run, pick).Ok? &&
      Enriched(m, g, standards, n, run, pick).value.Some? &&
      var v1, v2 := Toward(m, g, n, g.adj[n][0]), Toward(m, g, n, g.adj[n][1]);
      Enriched(m, g, standards, n, run, pick).value.value.kind == Bend(Some(BendAngle(m, v1, v2)), [v1, v2])
  {
    NeighboursKnown(g, n);
  }

  /** A node's vector towards itself, along a self-loop, is the zero vector. */
  lemma TowardSelf(m: MathOracle, g: PipeGraph, n: string)
    requires n in g.nodeData
    ensures Toward(m, g, n, n) == Origin
  {
    var z := Sub(g.nodeData[n].coords, g.nodeData[n].coords);
    assert z == Origin;
  }

  /**
   * Enrichment raises an IndexError at exactly two kinds of node: a node of
   * degree 2 whose only edge is a self-loop (there is no second neighbour),
   * and a node of degree 3 made of a self-loop and one other edge (the
   * self-loop's zero vector always forms a run with the other leg, leaving no
   * branch).
   */
  lemma EnrichedFails(m: MathOracle, g: PipeGraph, standards: map<string, PipeSpecData>, n: string,
                      run: Option<(int, int)>, pick: string)
    requires Valid(g) && n in g.nodeData && RunOf(m, g, n, run)
    ensures Enriched(m, g, standards, n, run, pick).Err? <==>
      (Degree(g, n) == 2 && g.adj[n] == [n]) || (Degree(g, n) >= 3 && |g.adj[n]| == 2)
    ensures Enriched(m, g, standards, n, run, pick).Err? ==> Enriched(m, g, standards, n, run, pick).error == IndexError
  {
    var nbs := g.adj[n];
    if Degree(g, n) == 2 && |nbs| < 2 {
      assert nbs == [n];
    }
    if Degree(g, n) >= 3 && |nbs| == 2 {
      SelfLoopRun(m, g, n, run);
    }
  }

  /** At a self-loop and one other edge the search pairs the two legs. */
  lemma SelfLoopRun(m: MathOracle, g: PipeGraph, n: string, run: Option<(int, int)>)
    requires Valid(g) && n in g.nodeData && RunOf(m, g, n, run)
    requires Degree(g, n) >= 3 && |g.adj[n]| == 2
    ensures run == Some((0, 1))
  {
    SelfLoopLegs(m, g, n);
    RunOfTwo(TowardAll(m, g, n), run);
  }

  /** The legs at a self-loop and one other edge are orthogonal: one of them is the zero vector. */
  lemma SelfLoopLegs(m: MathOracle, g: PipeGraph, n: string)
    requires Valid(g) && n in g.nodeData
    requires Degree(g, n) >= 3 && |g.adj[n]| == 2
    ensures |TowardAll(m, g, n)| == 2 && Dot(TowardAll(m, g, n)[0], TowardAll(m, g, n)[1]) == 0.0
  {
    var nbs := g.adj[n];
    var vs := TowardAll(m, g, n);
    assert n in nbs;
    TowardSelf(m, g, n);
    if nbs[0] == n {
      assert vs[0] == Origin;
    } else {
      assert vs[1] == Origin;
    }
  }

  /** With two legs whose dot product is below 1.0 the search pairs them. */
  lemma RunOfTwo(vs: seq<Vec3>, run: Option<(int, int)>)
    requires |vs| == 2 && Dot(vs[0], vs[1]) < 1.0 && BestRun(vs, run)
    ensures run == Some((0, 1))
  {
    assert IsPair(vs, 0, 1);
    if run.Some? {
      var (i, j) := run.value;
      assert IsPair(vs, i, j);
    }
  }

  /**
   * A tee whose search found a run stores as run the two neighbours whose
   * legs are the most nearly opposite, and as branch a neighbour at an index
   * outside the run, the smallest such; a tee without a run (no two legs
   * with a dot product below 1.0) stores neither.
   */
  lemma EnrichedTee(m: MathOracle, g: PipeGraph, standards: map<string, PipeSpecData>, n: string,
                    run: Option<(int, int)>, pick: string)
    requires Valid(g) && n in g.nodeData && RunOf(m, g, n, run) && Degree(g, n) >= 3
    requires Enriched(m, g, standards, n, run, pick).Ok?
    ensures var x := Enriched(m, g, standards, n, run, pick).value;
      x.Some? && x.value.kind.Tee? &&
      match run
      case None =>
        x.value.kind == Tee([], None) &&
        forall k, l :: IsPair(TowardAll(m, g, n), k, l) ==> Dot(TowardAll(m, g, n)[k], TowardAll(m, g, n)[l]) >= 1.0
      case Some((i, j)) =>
        var nbs := g.adj[n];
        IsPair(TowardAll(m, g, n), i, j) && Branch(|nbs|, i, j).Some? &&
        x.value.kind == Tee([nbs[i], nbs[j]], Some(nbs[Branch(|nbs|, i, j).value])) &&
        forall k, l :: IsPair(TowardAll(m, g, n), k, l) ==>
          Dot(TowardAll(m, g, n)[k], TowardAll(m, g, n)[l]) >= Dot(TowardAll(m, g, n)[i], TowardAll(m, g, n)[j])
  {
  }

  /**
   * The spec fields: a reducer exactly when the edges at the node carry more
   * than one spec name, and the catalog's spec for the picked name, none when
   * the catalog does not know it.
   */
  lemma EnrichedSpecs(m: MathOracle, g: PipeGraph, standards: map<string, PipeSpecData>, n: string,
                      run: Option<(int, int)>, pick: string)
    requires Valid(g) && n in g.nodeData && PickOf(g, n, pick)
    requires Enriched(m, g, standards, n, run, pick).Ok? && Enriched(m, g, standards, n, run, pick).value.Some?
    ensures var x := Enriched(m, g, standards, n, run, pick).value.value;
      && SpecNames(g, n) != {}
      && pick in SpecNames(g, n)
      && (x.requiresReducer <==> |SpecNames(g, n)| > 1)
      && (x.assignedSpec.Some? <==> pick in standards)
      && (x.assignedSpec.Some? ==> x.assignedSpec.value == standards[pick])
  {
    NeighboursKnown(g, n);
    var x := g.adj[n][0];
    assert g.attrs[Edge(n, x)].specName in SpecNames(g, n);
  }

  /**
   * Two graphs of the same shape: the same nodes in the same order, the same
   * edges and attributes, and records that agree on coordinates and ids.
   * Enrichment only ever changes a graph into one of the same shape.
   */
  ghost predicate SameShape(g0: PipeGraph, g: PipeGraph) {
    && g.order == g0.order && g.adj == g0.adj && g.attrs == g0.attrs
    && g.nodeData.Keys == g0.nodeData.Keys
    && forall n :: n in g0.nodeData ==>
         g.nodeData[n].coords == g0.nodeData[n].coords && g.nodeData[n].id == g0.nodeData[n].id
  }

  /** The legs of a node depend only on the shape of the graph. */
  lemma TowardSameShape(m: MathOracle, g0: PipeGraph, g: PipeGraph, n: string)
    requires Valid(g0) && Valid(g) && SameShape(g0, g) && n in g0.nodeData
    ensures TowardAll(m, g, n) == TowardAll(m, g0, n)
  {
    NeighboursKnown(g0, n);
    var vs, vs0 := TowardAll(m, g, n), TowardAll(m, g0, n);
    forall k | 0 <= k < |vs| ensures vs[k] == vs0[k] {
      var x := g0.adj[n][k];
      assert Toward(m, g, n, x) == Toward(m, g0, n, x);
    }
  }

  /** Enrichment reads only the shape of the graph, so the same shape gives the same results. */
  lemma EnrichedSameShape(m: MathOracle, g0: PipeGraph, g: PipeGraph, standards: map<string, PipeSpecData>,
                          n: string, run: Option<(int, int)>, pick: string)
    requires Valid(g0) && SameShape(g0, g) && n in g0.nodeData
    ensures Valid(g) && n in g.nodeData
    ensures RunOf(m, g, n, run) == RunOf(m, g0, n, run) && PickOf(g, n, pick) == PickOf(g0, n, pick)
    ensures Enriched(m, g, standards, n, run, pick) == Enriched(m, g0, standards, n, run, pick)
  {
    SameShapeValid(g0, g);
    TowardSameShape(m, g0, g, n);
    ClassifySameShape(m, g0, g, n, run);
    NeighboursKnown(g0, n);
    assert SpecNames(g, n) == SpecNames(g0, n);
  }

  /** Classification reads only the coordinates and ids of the records. */
  lemma ClassifySameShape(m: MathOracle, g0: PipeGraph, g: PipeGraph, n: string, run: Option<(int, int)>)
    requires Valid(g0) && Valid(g) && SameShape(g0, g) && n in g0.nodeData
    ensures Classify(m, g, n, run) == Classify(m, g0, n, run)
  {
    NeighboursKnown(g0, n);
  }

  /** A graph of the same shape as a valid graph is valid. */
  lemma SameShapeValid(g0: PipeGraph, g: PipeGraph)
    requires Valid(g0) && SameShape(g0, g)
    ensures Valid(g)
  {
    forall a, b | Adjacent(g, a, b) ensures Adjacent(g, b, a) && Edge(a, b) in g.attrs {
      assert Adjacent(g0, a, b);
    }
  }

  /** The tee branch of `_enrich_nodes`'s loop body. */
  method TeeNode(m: MathOracle, g: PipeGraph, n: string) returns (r: Result<Option<NodeInfo>>, ghost run: Option<(int, int)>)
    requires Valid(g) && n in g.nodeData && Degree(g, n) >= 3
    ensures RunOf(m, g, n, run)
    ensures r == Classify(m, g, n, run)
  {
    var base := g.nodeData[n];
    var nbs := g.adj[n];
    var node := NewTee(base.coords, base.id);
    var vectors := TowardAll(m, g, n);
    var runIndices := SelectRun(vectors);
    run := runIndices;
    if runIndices.Some? {
      var (i, j) := runIndices.value;
      var branch := Branch(|nbs|, i, j);
      if branch.None? {
        return Err(IndexError), run;
      }
      node := node.(kind := Tee([nbs[i], nbs[j]], Some(nbs[branch.value])));
    }
    r := Ok(Some(node));
  }

  /** The classification part of `_enrich_nodes`'s loop body, by degree. */
  method ClassifyNode(m: MathOracle, g: PipeGraph, n: string) returns (r: Result<Option<NodeInfo>>, ghost run: Option<(int, int)>)
    requires Valid(g) && n in g.nodeData
    ensures RunOf(m, g, n, run)
    ensures r == Classify(m, g, n, run)
  {
    NeighboursKnown(g, n);
    var base := g.nodeData[n];
    var nbs := g.adj[n];
    var degree := Degree(g, n);
    run := None;
    if degree == 0 {
      r := Ok(None);
    } else if degree == 1 {
      var node := NewEndpoint(base.coords, base.id);
      var direction := Normalize(m, Sub(g.nodeData[nbs[0]].coords, node.coords));
      r := Ok(Some(node.(kind := node.kind.(direction := Some(direction)))));
    } else if degree == 2 {
      var node := NewBend(base.coords, base.id);
      if |nbs| < 2 {
        return Err(IndexError), run;
      }
      var vec1 := Normalize(m, Sub(g.nodeData[nbs[0]].coords, node.coords));
      var vec2 := Normalize(m, Sub(g.nodeData[nbs[1]].coords, node.coords));
      var dotProduct := Clamp(Dot(vec1, vec2));
      r := Ok(Some(node.(kind := Bend(Some(Degrees(m, m.pi - m.acos(dotProduct))), [vec1, vec2]))));
    } else {
      r, run := TeeNode(m, g, n);
    }
  }

  /** The body of `_enrich_nodes`'s loop for one node of the graph `g`. */
  method EnrichNode(m: MathOracle, g: PipeGraph, standards: map<string, PipeSpecData>, n: string)
    returns (r: Result<Option<NodeInfo>>, ghost run: Option<(int, int)>, pick: string)
    requires Valid(g) && n in g.nodeData
    ensures RunOf(m, g, n, run) && (r.Ok? ==> PickOf(g, n, pick))
    ensures r == Enriched(m, g, standards, n, run, pick)
  {
    pick := "";
    r, run := ClassifyNode(m, g, n);
    if r.Err? || r.value.None? {
      return;
    }
    var node := r.value.value;
    var specNames := SpecNames(g, n);
    node := node.(requiresReducer := |specNames| > 1);
    if specNames != {} {
      pick :| pick in specNames;
      node := node.(assignedSpec := Lookup(standards, pick));
    }
    r := Ok(Some(node));
  }

  /** The nodes of `ns` that have an edge in `g`, in order: those `_enrich_nodes` lists. */
  function Live(g: PipeGraph, ns: seq<string>): (r: seq<string>)
    ensures forall x :: x in r <==> x in ns && x in g.adj && Degree(g, x) > 0
  {
    if ns == [] then []
    else
      var x := ns[|ns| - 1];
      Live(g, ns[..|ns| - 1]) + (if x in g.adj && Degree(g, x) > 0 then [x] else [])
  }

  /** `now` is the record stored for the outcome `res` at a node whose record was `before`. */
  predicate Stored(before: NodeInfo, now: NodeInfo, res: Result<Option<NodeInfo>>) {
    match res
    case Ok(None) => now == before
    case Ok(Some(x)) => now == x
    case Err(_) => false
  }

  /** The records after storing the outcome `res` at `n`: a record replaces the old one, nothing else changes. */
  function Store(records: map<string, NodeInfo>, n: string, res: Result<Option<NodeInfo>>): (r: map<string, NodeInfo>)
    ensures r.Keys == records.Keys + (if res.Ok? && res.value.Some? then {n} else {})
    ensures forall x :: x in records && x != n ==> r[x] == records[x]
    ensures n in records && res.Ok? ==> Stored(records[n], r[n], res)
  {
    match res
    case Ok(Some(x)) => records[n := x]
    case _ => records
  }

  /** The two choices the loop body makes at a node: the tee run and the spec name. */
  datatype Choice = Choice(run: Option<(int, int)>, pick: string)

  /** The outcome of the loop body at `n` for the choice `c`. */
  function EnrichedBy(m: MathOracle, g0: PipeGraph, standards: map<string, PipeSpecData>, n: string, c: Choice): Result<Option<NodeInfo>>
    requires Valid(g0) && n in g0.nodeData
  {
    Enriched(m, g0, standards, n, c.run, c.pick)
  }

  /** `c` is a choice the loop body may make at `n`, and the body does not raise with it. */
  ghost predicate Allowed(m: MathOracle, g0: PipeGraph, standards: map<string, PipeSpecData>, n: string, c: Choice)
    requires Valid(g0) && n in g0.nodeData
  {
    RunOf(m, g0, n, c.run) && PickOf(g0, n, c.pick) && EnrichedBy(m, g0, standards, n, c).Ok?
  }

  /**
   * The records after `_enrich_nodes` has handled the first `|cs|` nodes of
   * `g0`'s order, the `k`-th with the choice `cs[k]`: each enriched record
   * replaces the one before it.
   */
  ghost function Expected(m: MathOracle, g0: PipeGraph, standards: map<string, PipeSpecData>, cs: seq<Choice>): map<string, NodeInfo>
    requires Valid(g0) && |cs| <= |g0.order|
    decreases |cs|
  {
    if cs == [] then g0.nodeData
    else
      var i := |cs| - 1;
      Store(Expected(m, g0, standards, cs[..i]), g0.order[i], EnrichedBy(m, g0, standards, g0.order[i], cs[i]))
  }

  /** Every choice in `cs` is allowed at its node. */
  ghost predicate Chosen(m: MathOracle, g0: PipeGraph, standards: map<string, PipeSpecData>, cs: seq<Choice>)
    requires Valid(g0) && |cs| <= |g0.order|
    decreases |cs|
  {
    cs != [] ==>
      var i := |cs| - 1;
      Chosen(m, g0, standards, cs[..i]) && Allowed(m, g0, standards, g0.order[i], cs[i])
  }

  /** Handling one more node extends the choices and stores that node's record. */
  lemma ExpectedStep(m: MathOracle, g0: PipeGraph, standards: map<string, PipeSpecData>, cs: seq<Choice>, c: Choice)
    requires Valid(g0) && |cs| < |g0.order| && Chosen(m, g0, standards, cs)
    requires Allowed(m, g0, standards, g0.order[|cs|], c)
    ensures Chosen(m, g0, standards, cs + [c])
    ensures Expected(m, g0, standards, cs + [c]) ==
      Store(Expected(m, g0, standards, cs), g0.order[|cs|], EnrichedBy(m, g0, standards, g0.order[|cs|], c))
  {
    assert (cs + [c])[..|cs|] == cs;
  }

  /** The nodes not handled yet keep their records. */
  lemma {:induction false} ExpectedTodo(m: MathOracle, g0: PipeGraph, standards: map<string, PipeSpecData>,
                                        cs: seq<Choice>, k: nat)
    requires Valid(g0) && |cs| <= k < |g0.order|
    ensures g0.order[k] in Expected(m, g0, standards, cs)
    ensures Expected(m, g0, standards, cs)[g0.order[k]] == g0.nodeData[g0.order[k]]
    decreases |cs|
  {
    if cs != [] {
      var i := |cs| - 1;
      assert g0.order[i] != g0.order[k];
      ExpectedTodo(m, g0, standards, cs[..i], k);
    }
  }

  /** The choice made at each handled node is one allowed there. */
  lemma {:induction false} ChosenAt(m: MathOracle, g0: PipeGraph, standards: map<string, PipeSpecData>,
                                    cs: seq<Choice>, k: nat)
    requires Valid(g0) && |cs| <= |g0.order| && k < |cs|
    requires Chosen(m, g0, standards, cs)
    ensures Allowed(m, g0, standards, g0.order[k], cs[k])
    decreases |cs|
  {
    var i := |cs| - 1;
    if k < i {
      ChosenAt(m, g0, standards, cs[..i], k);
      assert cs[..i][k] == cs[k];
    }
  }

  /**
   * A handled node holds the record `_enrich_nodes` stores for it: its
   * enriched record, or the old one when it has no edges.
   */
  lemma {:induction false} ExpectedDone(m: MathOracle, g0: PipeGraph, standards: map<string, PipeSpecData>,
                                        cs: seq<Choice>, k: nat)
    requires Valid(g0) && |cs| <= |g0.order| && k < |cs|
    requires Chosen(m, g0, standards, cs)
    ensures var n := g0.order[k];
      && n in Expected(m, g0, standards, cs)
      && Stored(g0.nodeData[n], Expected(m, g0, standards, cs)[n], EnrichedBy(m, g0, standards, n, cs[k]))
    decreases |cs|
  {
    var i := |cs| - 1;
    if k == i {
      ExpectedTodo(m, g0, standards, cs[..i], i);
    } else {
      assert g0.order[k] != g0.order[i];
      ExpectedDone(m, g0, standards, cs[..i], k);
      assert cs[..i][k] == cs[k];
    }
  }

  /** Every stored record keeps the coordinates and id of the one it replaces. */
  lemma {:induction false} ExpectedShape(m: MathOracle, g0: PipeGraph, standards: map<string, PipeSpecData>, cs: seq<Choice>)
    requires Valid(g0) && |cs| <= |g0.order|
    ensures SameShape(g0, g0.(nodeData := Expected(m, g0, standards, cs)))
    decreases |cs|
  {
    if cs != [] {
      var i := |cs| - 1;
      ExpectedShape(m, g0, standards, cs[..i]);
      EnrichedKind(m, g0, standards, g0.order[i], cs[i].run, cs[i].pick);
    }
  }

  /** `collected` lists the records `g` holds for the nodes `kept`, in order. */
  predicate Lists(g: PipeGraph, kept: seq<string>, collected: seq<NodeInfo>) {
    && |collected| == |kept|
    && forall k :: 0 <= k < |kept| ==> kept[k] in g.nodeData && collected[k] == g.nodeData[kept[k]]
  }

  /** Storing a record at a node not yet listed, and listing it, keeps the list right. */
  lemma ListsStep(g: PipeGraph, kept: seq<string>, collected: seq<NodeInfo>, n: string, x: NodeInfo)
    requires Lists(g, kept, collected) && n !in kept
    ensures Lists(g.(nodeData := g.nodeData[n := x]), kept + [n], collected + [x])
  {
    var g' := g.(nodeData := g.nodeData[n := x]);
    forall k | 0 <= k < |kept| ensures g'.nodeData[kept[k]] == g.nodeData[kept[k]] {
      assert kept[k] != n;
    }
  }

  /** `Live` over one more node. */
  lemma LiveStep(g: PipeGraph, ns: seq<string>, i: nat)
    requires i < |ns|
    ensures Live(g, ns[..i + 1]) == Live(g, ns[..i]) + (if ns[i] in g.adj && Degree(g, ns[i]) > 0 then [ns[i]] else [])
  {
    assert ns[..i + 1][..i] == ns[..i];
  }

  /**
   * One round of `_enrich_nodes`'s loop over the graph `g`, which is `g0`
   * with the records of its first `|cs|` nodes enriched: enrich the next
   * node with the choice `c` and store its record, or report the exception
   * the body raises.
   */
  method EnrichStep(m: MathOracle, g0: PipeGraph, standards: map<string, PipeSpecData>, g: PipeGraph,
                    ghost cs: seq<Choice>, collected: seq<NodeInfo>, i: nat)
    returns (r: Result<bool>, g': PipeGraph, ghost c: Choice, collected': seq<NodeInfo>)
    requires Valid(g0) && i == |cs| < |g0.order| && Chosen(m, g0, standards, cs)
    requires g == g0.(nodeData := Expected(m, g0, standards, cs))
    requires Lists(g, Live(g0, g0.order[..i]), collected)
    ensures r.Ok? ==> Chosen(m, g0, standards, cs + [c])
    ensures r.Ok? ==> g' == g0.(nodeData := Expected(m, g0, standards, cs + [c]))
    ensures r.Ok? ==> Lists(g', Live(g0, g0.order[..i + 1]), collected')
    ensures r.Err? ==> RunOf(m, g0, g0.order[i], c.run) && EnrichedBy(m, g0, standards, g0.order[i], c) == Err(r.error)
  {
    var n := g0.order[i];
    ExpectedShape(m, g0, standards, cs);
    SameShapeValid(g0, g);
    var res, run, pick := EnrichNode(m, g, standards, n);
    EnrichedSameShape(m, g0, g, standards, n, run, pick);
    c := Choice(run, pick);
    g', collected' := g, collected;
    if res.Err? {
      return Err(res.error), g', c, collected';
    }
    EnrichedKind(m, g0, standards, n, run, pick);
    ExpectedStep(m, g0, standards, cs, c);
    ghost var kept := Live(g0, g0.order[..i]);
    LiveStep(g0, g0.order, i);
    if res.value.Some? {
      var x := res.value.value;
      assert Live(g0, g0.order[..i + 1]) == kept + [n];
      assert n !in kept by {
        assert n !in g0.order[..i];
      }
      ListsStep(g, kept, collected, n, x);
      g' := g.(nodeData := g.nodeData[n := x]);
      collected' := collected + [x];
    } else {
      assert Live(g0, g0.order[..i + 1]) == kept;
    }
    r := Ok(true);
  }

  /**
   * The outcome of `_enrich_nodes` on `g0`: the graph `g` is `g0` with the
   * records of the nodes got through, with the choices `cs` made there,
   * enriched; when every node was got through, `collected` lists the
   * records of the nodes with edges, in order; otherwise the body raised at
   * the next node, for the choice `stuck` made there.
   */
  ghost predicate Enriches(m: MathOracle, g0: PipeGraph, standards: map<string, PipeSpecData>, r: Result<bool>,
                           g: PipeGraph, cs: seq<Choice>, collected: seq<NodeInfo>, stuck: Choice)
    requires Valid(g0)
  {
    && |cs| <= |g0.order| && Chosen(m, g0, standards, cs)
    && g == g0.(nodeData := Expected(m, g0, standards, cs))
    && (r.Ok? ==> |cs| == |g0.order| && Lists(g, Live(g0, g0.order), collected))
    && (r.Err? ==>
          && |cs| < |g0.order| && RunOf(m, g0, g0.order[|cs|], stuck.run)
          && EnrichedBy(m, g0, standards, g0.order[|cs|], stuck) == Err(r.error))
  }

  /**
   * The loop of `_enrich_nodes` over the graph `g0` and the standards of the
   * catalog: the graph it leaves after the nodes it got through, with the
   * choices `cs` made there, and the records it collects; or the exception
   * raised at the next node, for the choice `stuck` made there.
   */
  method EnrichAll(m: MathOracle, g0: PipeGraph, standards: map<string, PipeSpecData>)
    returns (r: Result<bool>, g: PipeGraph, ghost cs: seq<Choice>, collected: seq<NodeInfo>, ghost stuck: Choice)
    requires Valid(g0)
    ensures Enriches(m, g0, standards, r, g, cs, collected, stuck)
  {
    g, cs, collected, stuck := g0, [], [], Choice(None, "");
    for i := 0 to |g0.order|
      invariant i == |cs| && Chosen(m, g0, standards, cs)
      invariant g == g0.(nodeData := Expected(m, g0, standards, cs))
      invariant Lists(g, Live(g0, g0.order[..i]), collected)
    {
      var res, g', c, collected' := EnrichStep(m, g0, standards, g, cs, collected, i);
      if res.Err? {
        return Err(res.error), g, cs, collected, c;
      }
      g, cs, collected := g', cs + [c], collected';
    }
    assert g0.order[..|g0.order|] == g0.order;
    r := Ok(true);
  }
}
