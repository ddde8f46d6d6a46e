/**
 * The centerline builder: a "pen" that starts at a plan's first node and is
 * carried from bend to bend, each bend placed by the component factory, and
 * the plain node-to-node wireframe used for visualisation.
 */
module Centerline {
  import opened Wrappers
  import opened Vectors
  import opened NodeTypes
  import opened Primitives
  import opened Factory
  import opened Planning

  /** Which side of a custom bend gets the tangent. */
  datatype Placement = PlaceIncoming | PlaceOutgoing

  /** A length that may be unknown; an unknown length counts as infinitely long. */
  datatype Ext = Fin(v: real) | Inf

  function ExtOf(o: Option<real>): Ext {
    if o.Some? then Fin(o.value) else Inf
  }

  /** `<` on lengths extended with infinity. */
  predicate ExtLess(a: Ext, b: Ext) {
    match (a, b)
    case (Fin(x), Fin(y)) => x < y
    case (Fin(_), Inf) => true
    case (Inf, _) => false
  }

  /** `item.get('length')`: an edge's length; a node item has none. */
  function LengthOf(item: PlanItem): Option<real> {
    if item.EdgeItem? then item.length else None
  }

  /** The length of the item before position `i`, if there is one. */
  function IncomingLength(plan: seq<PlanItem>, i: int): Option<real>
    requires 0 <= i < |plan|
  {
    if i > 0 then LengthOf(plan[i - 1]) else None
  }

  /** The length of the item after position `i`, if there is one. */
  function OutgoingLength(plan: seq<PlanItem>, i: int): Option<real>
    requires 0 <= i < |plan|
  {
    if i < |plan| - 1 then LengthOf(plan[i + 1]) else None
  }

  /**
   * The tangent-placement decision for a custom bend: the incoming side
   * exactly when the incoming length is known and strictly shorter than the
   * outgoing one, where an unknown outgoing length is longer than any.
   */
  function TangentPlacement(incoming: Option<real>, outgoing: Option<real>): (p: Placement)
    ensures p == PlaceIncoming <==> incoming.Some? && (outgoing.None? || incoming.value < outgoing.value)
  {
    if ExtLess(ExtOf(incoming), ExtOf(outgoing)) then PlaceIncoming else PlaceOutgoing
  }

  /** Equal lengths, and two unknown lengths, put the tangent on the outgoing side. */
  lemma TiesGoOutgoing(incoming: Option<real>, outgoing: Option<real>)
    requires incoming == outgoing
    ensures TangentPlacement(incoming, outgoing) == PlaceOutgoing
  {
  }

  /** Ordering by extended length is a strict order: never both ways, and it is transitive. */
  lemma ExtLessStrict(a: Ext, b: Ext, c: Ext)
    ensures !(ExtLess(a, b) && ExtLess(b, a))
    ensures ExtLess(a, b) && ExtLess(b, c) ==> ExtLess(a, c)
  {
  }

  function Abs(x: real): real {
    if x < 0.0 then -x else x
  }

  /** `math.isclose(a, b)` with its default tolerances: relative 1e-9, absolute 0. */
  predicate IsClose(a: real, b: real) {
    Abs(a - b) <= 0.000000001 * (if Abs(a) > Abs(b) then Abs(a) else Abs(b))
  }

  /** A bend the builder treats as custom: neither close to 90 nor to 45 degrees. */
  predicate CustomAngle(a: real) {
    !IsClose(a, 90.0) && !IsClose(a, 45.0)
  }

  /**
   * Exactly 90 and exactly 45 degrees are not custom; an angle more than a
   * millionth of a degree from both is.
   */
  lemma CustomAngleBounds(a: real)
    ensures a == 90.0 || a == 45.0 ==> !CustomAngle(a)
    ensures Abs(a - 90.0) > 0.000001 && Abs(a - 45.0) > 0.000001 ==> CustomAngle(a)
  {
  }

  /**
   * The pen `_place_components` starts with: at the first node, pointing
   * along an endpoint's direction, or else towards the node two items on.
   */
  function StartPen(m: MathOracle, byId: map<string, NodeInfo>, plan: seq<PlanItem>): (r: Result<(Vec3, Vec3)>)
    ensures plan == [] ==> r == Err(IndexError)
    ensures r.Ok? ==> plan[0].NodeItem? && plan[0].id in byId && r.value.0 == byId[plan[0].id].coords
    ensures r.Ok? && byId[plan[0].id].kind.Endpoint? ==> Some(r.value.1) == byId[plan[0].id].kind.direction
    ensures r.Ok? && !byId[plan[0].id].kind.Endpoint? ==>
      |plan| >= 3 && plan[2].NodeItem? && plan[2].id in byId
      && r.value.1 == Normalize(m, Sub(byId[plan[2].id].coords, byId[plan[0].id].coords))
  {
    if plan == [] then Err(IndexError)
    else if plan[0].EdgeItem? || plan[0].id !in byId then Err(KeyError)
    else
      var start := byId[plan[0].id];
      if start.kind.Endpoint? then
        if start.kind.direction.None? then Err(TypeError) else Ok((start.coords, start.kind.direction.value))
      else if |plan| < 3 then Err(IndexError)
      else if plan[2].EdgeItem? || plan[2].id !in byId then Err(KeyError)
      else Ok((start.coords, Normalize(m, Sub(byId[plan[2].id].coords, start.coords))))
  }

  /** The pen and the primitives placed so far, and the error that stopped placement, if any. */
  datatype Placed = Placed(pos: Vec3, dir: Vec3, prims: seq<Primitive>, error: Option<Error>)

  /**
   * One item of `_place_components`: a bend node near 90 or 45 degrees
   * appends the factory's recipe and moves the pen to where the factory
   * leaves it; a custom bend fails, because the factory takes no
   * `tangent_placement` argument; other items change nothing.
   */
  function Step(m: MathOracle, byId: map<string, NodeInfo>, item: PlanItem, s: Placed): Placed {
    if s.error.Some? || item.EdgeItem? then s
    else if item.id !in byId then s.(error := Some(KeyError))
    else
      var node := byId[item.id];
      if !node.kind.Bend? then s
      else if node.kind.angle.None? then s.(error := Some(TypeError))
      else if CustomAngle(node.kind.angle.value) then s.(error := Some(TypeError))
      else match CreateBendRecipe(m, node, node.coords, s.dir)
        case Err(e) => s.(error := Some(e))
        case Ok((recipe, pos, dir)) => Placed(pos, dir, s.prims + recipe, None)
  }

  /** The state after the first `k` items. */
  function PlacedUpTo(m: MathOracle, byId: map<string, NodeInfo>, plan: seq<PlanItem>, k: int, start: Placed): Placed
    requires 0 <= k <= |plan|
  {
    if k == 0 then start else Step(m, byId, plan[k - 1], PlacedUpTo(m, byId, plan, k - 1, start))
  }

  /**
   * `_place_components` on a plan, from the pen `(pos, dir)`: what it adds
   * to the drawing plan or the error it raises, and the pen afterwards.  A
   * start that fails after the first node was found has already moved the
   * pen's position there.
   */
  function PlaceResult(m: MathOracle, byId: map<string, NodeInfo>, plan: seq<PlanItem>, pos: Option<Vec3>, dir: Option<Vec3>)
    : (Result<seq<Primitive>>, Option<Vec3>, Option<Vec3>)
  {
    match StartPen(m, byId, plan)
    case Err(e) =>
      var found := plan != [] && plan[0].NodeItem? && plan[0].id in byId;
      (Err(e), if found then Some(byId[plan[0].id].coords) else pos, dir)
    case Ok((p, d)) =>
      var s := PlacedUpTo(m, byId, plan, |plan|, Placed(p, d, [], None));
      (if s.error.Some? then Err(s.error.value) else Ok(s.prims), Some(s.pos), Some(s.dir))
  }

  /** Once an item fails, the later items change nothing. */
  lemma {:induction false} PlacedSticky(m: MathOracle, byId: map<string, NodeInfo>, plan: seq<PlanItem>, i: int, k: int, start: Placed)
    requires 0 <= i <= k <= |plan|
    requires PlacedUpTo(m, byId, plan, i, start).error.Some?
    ensures PlacedUpTo(m, byId, plan, k, start) == PlacedUpTo(m, byId, plan, i, start)
    decreases k
  {
    if k > i {
      PlacedSticky(m, byId, plan, i, k - 1, start);
    }
  }

  /** The NODE items of a plan whose node is a known bend. */
  function Bends(byId: map<string, NodeInfo>, plan: seq<PlanItem>): nat {
    if plan == [] then 0
    else
      var it := plan[|plan| - 1];
      Bends(byId, plan[..|plan| - 1]) + (if it.NodeItem? && it.id in byId && byId[it.id].kind.Bend? then 1 else 0)
  }

  /**
   * Placement without an error adds the factory's three primitives per bend
   * and nothing for any other item, and only ever appends to what was there.
   */
  lemma {:induction false} PlacedCount(m: MathOracle, byId: map<string, NodeInfo>, plan: seq<PlanItem>, k: int, start: Placed)
    requires 0 <= k <= |plan| && start.error.None?
    ensures var s := PlacedUpTo(m, byId, plan, k, start);
      s.error.None? ==> |s.prims| == |start.prims| + 3 * Bends(byId, plan[..k]) && s.prims[..|start.prims|] == start.prims
  {
    if k > 0 {
      PlacedCount(m, byId, plan, k - 1, start);
      var before := PlacedUpTo(m, byId, plan, k - 1, start);
      assert plan[..k][..k - 1] == plan[..k - 1];
      var it := plan[k - 1];
      if before.error.None? && it.NodeItem? && it.id in byId && byId[it.id].kind.Bend? {
        CreateBendRecipeUsesMock(m, byId[it.id], byId[it.id].coords, before.dir);
      }
    }
  }

  /** A plan with no known bend among its nodes places nothing and leaves the pen where it started. */
  lemma {:induction false} PlacedNoBends(m: MathOracle, byId: map<string, NodeInfo>, plan: seq<PlanItem>, k: int, start: Placed)
    requires 0 <= k <= |plan| && start.error.None?
    requires forall i :: 0 <= i < k && plan[i].NodeItem? ==> plan[i].id in byId && !byId[plan[i].id].kind.Bend?
    ensures PlacedUpTo(m, byId, plan, k, start) == start
  {
    if k > 0 {
      PlacedNoBends(m, byId, plan, k - 1, start);
    }
  }

  /**
   * The first bend met decides: a custom one stops placement with a type
   * error, before anything is placed.
   */
  lemma {:induction false} FirstBendCustomFails(m: MathOracle, byId: map<string, NodeInfo>, plan: seq<PlanItem>, j: int, start: Placed)
    requires 0 <= j < |plan| && start.error.None?
    requires forall i :: 0 <= i < j && plan[i].NodeItem? ==> plan[i].id in byId && !byId[plan[i].id].kind.Bend?
    requires plan[j].NodeItem? && plan[j].id in byId && byId[plan[j].id].kind.Bend?
    requires byId[plan[j].id].kind.angle.Some? && CustomAngle(byId[plan[j].id].kind.angle.value)
    ensures PlacedUpTo(m, byId, plan, |plan|, start) == start.(error := Some(TypeError))
  {
    PlacedNoBends(m, byId, plan, j, start);
    PlacedSticky(m, byId, plan, j + 1, |plan|, start);
  }

  /**
   * `build_drawing_plans` from the pen `(pos, dir)`: one drawing plan per
   * travel plan, in order, or the first error raised; and the pen after the
   * last plan placed.
   */
  function DrawingPlans(m: MathOracle, byId: map<string, NodeInfo>, plans: seq<seq<PlanItem>>, pos: Option<Vec3>, dir: Option<Vec3>)
    : (r: (Result<seq<seq<Primitive>>>, Option<Vec3>, Option<Vec3>))
    ensures r.0.Ok? ==> |r.0.value| == |plans|
    decreases |plans|
  {
    if plans == [] then (Ok([]), pos, dir)
    else
      var before := DrawingPlans(m, byId, plans[..|plans| - 1], pos, dir);
      if before.0.Err? then before
      else
        var p := PlaceResult(m, byId, plans[|plans| - 1], before.1, before.2);
        if p.0.Err? then (Err(p.0.error), p.1, p.2) else (Ok(before.0.value + [p.0.value]), p.1, p.2)
  }

  /** Each drawing plan is what placing its own travel plan gives, whatever plans came before. */
  lemma {:induction false} DrawingPlansEach(m: MathOracle, byId: map<string, NodeInfo>, plans: seq<seq<PlanItem>>, pos: Option<Vec3>, dir: Option<Vec3>)
    ensures var r := DrawingPlans(m, byId, plans, pos, dir).0;
      r.Ok? ==> forall k :: 0 <= k < |plans| ==> PlaceResult(m, byId, plans[k], None, None).0 == Ok(r.value[k])
    decreases |plans|
  {
    if plans != [] {
      var init := plans[..|plans| - 1];
      DrawingPlansEach(m, byId, init, pos, dir);
      var before := DrawingPlans(m, byId, init, pos, dir);
      if before.0.Ok? {
        forall k | 0 <= k < |init| ensures plans[k] == init[k] {
        }
        PlaceResultPenFree(m, byId, plans[|plans| - 1], before.1, before.2);
      }
    }
  }

  /** What `_place_components` adds does not depend on where the pen was before. */
  lemma PlaceResultPenFree(m: MathOracle, byId: map<string, NodeInfo>, plan: seq<PlanItem>, pos: Option<Vec3>, dir: Option<Vec3>)
    ensures PlaceResult(m, byId, plan, pos, dir).0 == PlaceResult(m, byId, plan, None, None).0
  {
  }

  /**
   * The plain wireframe over a list of node ids: for each pair of
   * consecutive ids among the first `k + 1`, a line from the first node to
   * the second, skipping a pair with a node the lookup does not know.
   */
  function Wire(byId: map<string, NodeInfo>, ids: seq<string>, k: int): (r: seq<Primitive>)
    requires 0 <= k < |ids|
    ensures |r| <= k
  {
    if k == 0 then []
    else
      var a := ids[k - 1];
      var b := ids[k];
      Wire(byId, ids, k - 1) + (if a in byId && b in byId then [Line(byId[a].coords, byId[b].coords)] else [])
  }

  /** The ids of the NODE items, in plan order. */
  function NodeIds(plan: seq<PlanItem>): (r: seq<string>)
    ensures |r| <= |plan|
  {
    if plan == [] then []
    else NodeIds(plan[..|plan| - 1]) + (if plan[|plan| - 1].NodeItem? then [plan[|plan| - 1].id] else [])
  }

  /**
   * With every node known, the wireframe has one line per consecutive pair,
   * line `i` from node `i` to node `i + 1`, so each line starts where the
   * one before ends.
   */
  lemma {:induction false} WireAllKnown(byId: map<string, NodeInfo>, ids: seq<string>, k: int)
    requires 0 <= k < |ids|
    requires forall id :: id in ids ==> id in byId
    ensures var r := Wire(byId, ids, k);
      && |r| == k
      && (forall i :: 0 <= i < k ==> r[i] == Line(byId[ids[i]].coords, byId[ids[i + 1]].coords))
      && Contiguous(r)
  {
    if k > 0 {
      WireAllKnown(byId, ids, k - 1);
    }
  }

  /** One pass of the loop of `_place_components` over item `i` of a plan, from the state `s`. */
  method PlaceItem(m: MathOracle, byId: map<string, NodeInfo>, plan: seq<PlanItem>, i: int, s: Placed) returns (t: Placed)
    requires 0 <= i < |plan| && s.error.None?
    ensures t == Step(m, byId, plan[i], s)
  {
    t := s;
    var item := plan[i];
    if item.NodeItem? {
      if item.id !in byId {
        return s.(error := Some(KeyError));
      }
      var node := byId[item.id];
      if node.kind.Bend? {
        var corner := node.coords;
        if node.kind.angle.None? {
          return s.(error := Some(TypeError));
        }
        if !IsClose(node.kind.angle.value, 90.0) && !IsClose(node.kind.angle.value, 45.0) {
          var placement := TangentPlacement(IncomingLength(plan, i), OutgoingLength(plan, i));
          return s.(error := Some(TypeError));
        }
        var made := CreateBendRecipe(m, node, corner, s.dir);
        if made.Err? {
          return s.(error := Some(made.error));
        }
        var (recipe, newPos, newDir) := made.value;
        var prims := s.prims;
        if recipe != [] {
          prims := prims + recipe;
        }
        t := Placed(newPos, newDir, prims, None);
      }
    }
  }

  /** The pen of the centerline builder, and what it needs to place components. */
  class CenterlineBuilder {
    const travelPlans: seq<seq<PlanItem>>
    const nodesById: map<string, NodeInfo>
    /** The floating-point functions the factory's geometry uses. */
    const oracle: MathOracle
    var penPosition: Option<Vec3>
    var penDirection: Option<Vec3>

    constructor(travelPlans: seq<seq<PlanItem>>, nodes: seq<NodeInfo>, oracle: MathOracle)
      ensures this.travelPlans == travelPlans && nodesById == Walks.ById(nodes) && this.oracle == oracle
      ensures penPosition.None? && penDirection.None?
    {
      this.travelPlans := travelPlans;
      this.nodesById := Walks.ById(nodes);
      this.oracle := oracle;
      penPosition := None;
      penDirection := None;
    }

    /** `_place_components`: the primitives it appends to the drawing plan, or the error it raises. */
    method PlaceComponents(plan: seq<PlanItem>) returns (r: Result<seq<Primitive>>)
      modifies this
      ensures (r, penPosition, penDirection) == PlaceResult(oracle, nodesById, plan, old(penPosition), old(penDirection))
    {
      if |plan| == 0 {
        return Err(IndexError);
      }
      if plan[0].EdgeItem? || plan[0].id !in nodesById {
        return Err(KeyError);
      }
      var start := nodesById[plan[0].id];
      penPosition := Some(start.coords);
      if start.kind.Endpoint? {
        if start.kind.direction.None? {
          return Err(TypeError);
        }
        penDirection := Some(start.kind.direction.value);
      } else {
        if |plan| < 3 {
          return Err(IndexError);
        }
        if plan[2].EdgeItem? || plan[2].id !in nodesById {
          return Err(KeyError);
        }
        var next := nodesById[plan[2].id];
        penDirection := Some(Normalize(oracle, Sub(next.coords, start.coords)));
      }
      ghost var s0 := Placed(penPosition.value, penDirection.value, [], None);
      var prims: seq<Primitive> := [];
      for i := 0 to |plan|
        invariant penPosition.Some? && penDirection.Some?
        invariant PlacedUpTo(oracle, nodesById, plan, i, s0) == Placed(penPosition.value, penDirection.value, prims, None)
      {
        var t := PlaceItem(oracle, nodesById, plan, i, Placed(penPosition.value, penDirection.value, prims, None));
        if t.error.Some? {
          PlacedSticky(oracle, nodesById, plan, i + 1, |plan|, s0);
          return Err(t.error.value);
        }
        prims := t.prims;
        penPosition := Some(t.pos);
        penDirection := Some(t.dir);
      }
      return Ok(prims);
    }

    /** `build_drawing_plans`: one drawing plan per travel plan, in order. */
    method BuildDrawingPlans() returns (r: Result<seq<seq<Primitive>>>)
      modifies this
      ensures (r, penPosition, penDirection) == DrawingPlans(oracle, nodesById, travelPlans, old(penPosition), old(penDirection))
    {
      var all: seq<seq<Primitive>> := [];
      for k := 0 to |travelPlans|
        invariant DrawingPlans(oracle, nodesById, travelPlans[..k], old(penPosition), old(penDirection)) == (Ok(all), penPosition, penDirection)
      {
        assert travelPlans[..k + 1][..k] == travelPlans[..k];
        var placed := PlaceComponents(travelPlans[k]);
        if placed.Err? {
          DrawingPlansStopped(oracle, nodesById, travelPlans, k + 1, old(penPosition), old(penDirection));
          return Err(placed.error);
        }
        all := all + [placed.value];
      }
      assert travelPlans[..|travelPlans|] == travelPlans;
      return Ok(all);
    }

    /** `_create_explicit_plan_from_conceptual`: the node-to-node wireframe of a plan. */
    method Wireframe(plan: seq<PlanItem>) returns (r: seq<Primitive>)
      ensures var ids := NodeIds(plan);
        r == if |ids| < 2 then [] else Wire(nodesById, ids, |ids| - 1)
    {
      var ids: seq<string> := [];
      for i := 0 to |plan|
        invariant ids == NodeIds(plan[..i])
      {
        assert plan[..i + 1][..i] == plan[..i];
        if plan[i].NodeItem? {
          ids := ids + [plan[i].id];
        }
      }
      assert plan[..|plan|] == plan;
      if |ids| < 2 {
        return [];
      }
      r := [];
      for i := 0 to |ids| - 1
        invariant r == Wire(nodesById, ids, i)
      {
        var a := ids[i];
        var b := ids[i + 1];
        if a in nodesById && b in nodesById {
          r := r + [Line(nodesById[a].coords, nodesById[b].coords)];
        }
      }
    }
  }

  /** Once a plan fails, the later plans are not placed and the pen stays as the failing plan left it. */
  lemma {:induction false} DrawingPlansStopped(m: MathOracle, byId: map<string, NodeInfo>, plans: seq<seq<PlanItem>>, k: int, pos: Option<Vec3>, dir: Option<Vec3>)
    requires 0 <= k <= |plans|
    requires DrawingPlans(m, byId, plans[..k], pos, dir).0.Err?
    ensures DrawingPlans(m, byId, plans, pos, dir) == DrawingPlans(m, byId, plans[..k], pos, dir)
    decreases |plans| - k
  {
    if k < |plans| {
      assert plans[..k + 1][..k] == plans[..k];
      DrawingPlansStopped(m, byId, plans, k + 1, pos, dir);
    } else {
      assert plans[..k] == plans;
    }
  }
}
