/**
 * The component factory: the arc of a bend at a corner, the 90-degree
 * recipe of tangent, arc and tangent around it, and the dispatcher that
 * looks the bend up in its built-in catalog.  `tan`, `sin`, `pi` and the
 * normalisation come from the `MathOracle`; only the vector arithmetic and
 * the structure of the recipe are modelled exactly.
 */
module Factory {
  import opened Wrappers
  import opened Text
  import opened Vectors
  import opened Catalog
  import opened NodeTypes
  import opened Primitives

  /** The three points of a bend's arc and the direction the pipe leaves it in. */
  datatype ArcPoints = ArcPoints(start: Vec3, mid: Vec3, end: Vec3, outgoing: Vec3)

  /**
   * Of the bend's two neighbour vectors, the one the pipe leaves along: the
   * one less aligned with the way back, `-incoming`; on a tie, the first.
   */
  function Outgoing(incoming: Vec3, v1: Vec3, v2: Vec3): (r: Vec3)
    ensures r == v1 || r == v2
    ensures Dot(Neg(incoming), r) <= Dot(Neg(incoming), v1) && Dot(Neg(incoming), r) <= Dot(Neg(incoming), v2)
    ensures Dot(Neg(incoming), v1) == Dot(Neg(incoming), v2) ==> r == v1
  {
    if Dot(Neg(incoming), v1) > Dot(Neg(incoming), v2) then v2 else v1
  }

  /** Half the internal angle of a bend of `angle` degrees, in radians. */
  function HalfInternal(m: MathOracle, angle: real): real {
    (m.pi - Radians(m, angle)) / 2.0
  }

  /**
   * `BaseBend._calculate_arc_geometry`: the arc starts back along the
   * incoming direction and ends forward along the outgoing one, both at
   * `radius / tan(half internal angle)` from the corner; its midpoint lies
   * `radius` from the arc's centre towards the chord's midpoint.
   */
  function ArcGeometry(m: MathOracle, node: NodeInfo, corner: Vec3, incoming: Vec3, radius: real): (r: Result<ArcPoints>)
    requires node.kind.Bend?
    ensures |node.kind.vectors| < 2 ==> r == Err(IndexError)
    ensures |node.kind.vectors| >= 2 && node.kind.angle.None? ==> r == Err(TypeError)
    ensures r.Err? ==> r.error in {IndexError, TypeError, ZeroDivision}
    ensures r.Ok? ==> |node.kind.vectors| >= 2 && node.kind.angle.Some?
    ensures r.Ok? ==>
      && r.value.outgoing == Outgoing(incoming, node.kind.vectors[0], node.kind.vectors[1])
      && m.tan(HalfInternal(m, node.kind.angle.value)) != 0.0
      && var d := radius / m.tan(HalfInternal(m, node.kind.angle.value));
      Sub(corner, r.value.start) == Scale(incoming, d) && Sub(r.value.end, corner) == Scale(r.value.outgoing, d)
  {
    if |node.kind.vectors| < 2 then Err(IndexError)
    else
      var v1 := node.kind.vectors[0];
      var v2 := node.kind.vectors[1];
      var outgoing := Outgoing(incoming, v1, v2);
      if node.kind.angle.None? then Err(TypeError)
      else
        var half := HalfInternal(m, node.kind.angle.value);
        if m.tan(half) == 0.0 then Err(ZeroDivision)
        else
          var distToArcPoint := radius / m.tan(half);
          var start := Sub(corner, Scale(incoming, distToArcPoint));
          var end := Add(corner, Scale(outgoing, distToArcPoint));
          if m.sin(half) == 0.0 then Err(ZeroDivision)
          else
            var distToCenter := radius / m.sin(half);
            var bisection := Normalize(m, Add(Neg(incoming), outgoing));
            var center := Add(corner, Scale(bisection, distToCenter));
            var chordMid := Scale(Add(start, end), 0.5);
            var toMid := Normalize(m, Sub(chordMid, center));
            Ok(ArcPoints(start, Add(center, Scale(toMid, radius)), end, outgoing))
  }

  /** `Bend90.create_recipe`'s tangent length: centre-to-end less the radius, never negative. */
  function TangentLength(radius: real, centerToEnd: real): (t: real)
    ensures t >= 0.0 && t >= centerToEnd - radius
    ensures t == 0.0 || t == centerToEnd - radius
  {
    Max0(centerToEnd - radius)
  }

  /** The shortest tangent the recipe draws as a line. */
  const MinTangent: real := 0.000001

  /**
   * The recipe around an arc: a tangent line into it and one out of it when
   * the tangent is longer than `MinTangent`, otherwise the arc alone.
   */
  function Recipe(a: ArcPoints, incoming: Vec3, t: real): seq<Primitive> {
    if t > MinTangent then
      [Line(Sub(a.start, Scale(incoming, t)), a.start), Arc(a.start, a.mid, a.end), Line(a.end, Add(a.end, Scale(a.outgoing, t)))]
    else [Arc(a.start, a.mid, a.end)]
  }

  /**
   * `Bend90.create_recipe`: the recipe, the position just past the outgoing
   * tangent, and the outgoing direction.
   */
  function Bend90Recipe(m: MathOracle, node: NodeInfo, corner: Vec3, incoming: Vec3, radius: real, centerToEnd: real)
    : (r: Result<(seq<Primitive>, Vec3, Vec3)>)
    requires node.kind.Bend?
    ensures r.Err? <==> ArcGeometry(m, node, corner, incoming, radius).Err?
    ensures r.Err? ==> r.error == ArcGeometry(m, node, corner, incoming, radius).error
    ensures r.Ok? ==>
      var a := ArcGeometry(m, node, corner, incoming, radius).value;
      var t := TangentLength(radius, centerToEnd);
      && r.value.0 == Recipe(a, incoming, t)
      && r.value.1 == Add(a.end, Scale(a.outgoing, t))
      && r.value.2 == a.outgoing
  {
    match ArcGeometry(m, node, corner, incoming, radius)
    case Err(e) => Err(e)
    case Ok(a) =>
      var t := TangentLength(radius, centerToEnd);
      Ok((Recipe(a, incoming, t), Add(a.end, Scale(a.outgoing, t)), a.outgoing))
  }

  /**
   * The recipe holds exactly one arc; both tangent lines are there when the
   * tangent is longer than `MinTangent` and neither otherwise; it is
   * contiguous; the lines run along the incoming and outgoing directions
   * for the tangent's length; and with the lines drawn, the returned
   * position is where the last line ends.
   */
  lemma RecipeShape(a: ArcPoints, incoming: Vec3, t: real)
    ensures var r := Recipe(a, incoming, t);
      && Arcs(r) == 1 && Contiguous(r)
      && (|r| == 3 <==> t > MinTangent) && (|r| == 1 <==> t <= MinTangent)
      && r[|r| / 2] == Arc(a.start, a.mid, a.end)
      && (|r| == 3 ==>
            && Sub(r[0].end, r[0].start) == Scale(incoming, t)
            && Sub(r[2].end, r[2].start) == Scale(a.outgoing, t)
            && r[2].end == Add(a.end, Scale(a.outgoing, t)))
  {
    var r := Recipe(a, incoming, t);
    if t > MinTangent {
      assert r[1..][1..][1..] == [];
      assert Arcs(r[1..][1..]) == 0;
      assert Arcs(r[1..]) == 1;
    } else {
      assert r[1..] == [];
    }
  }

  /** A bend entry of the factory's built-in catalog. */
  datatype BendEntry = BendEntry(radius: real, centerToEnd: real)

  /** `MOCK_BEND_CATALOG`: a single 90-degree bend. */
  const MockBendCatalog: map<string, BendEntry> := map["BEND_90_SMS_38" := BendEntry(38.0, 70.0)]

  /** The bend type the dispatcher always asks for. */
  const BendTypeName: string := "BEND_90_SMS_38"

  /**
   * The dispatch of `create_bend_recipe` over a catalog and a bend type: a
   * missing entry, or a type no expert handles, leaves the pen where it is.
   */
  function Dispatch(catalog: map<string, BendEntry>, name: string, m: MathOracle, node: NodeInfo, corner: Vec3, incoming: Vec3)
    : (r: Result<(seq<Primitive>, Vec3, Vec3)>)
    requires node.kind.Bend?
    ensures name !in catalog ==> r == Ok(([], corner, incoming))
    ensures name in catalog && Contains(name, "BEND_90") ==>
      r == Bend90Recipe(m, node, corner, incoming, catalog[name].radius, catalog[name].centerToEnd)
    ensures name in catalog && !Contains(name, "BEND_90") ==> r == Ok(([], corner, incoming))
  {
    if name !in catalog then Ok(([], corner, incoming))
    else if Contains(name, "BEND_90") then
      Bend90Recipe(m, node, corner, incoming, catalog[name].radius, catalog[name].centerToEnd)
    else Ok(([], corner, incoming))
  }

  /** `ComponentFactory.create_bend_recipe`. */
  function CreateBendRecipe(m: MathOracle, node: NodeInfo, corner: Vec3, incoming: Vec3): (r: Result<(seq<Primitive>, Vec3, Vec3)>)
    requires node.kind.Bend?
  {
    Dispatch(MockBendCatalog, BendTypeName, m, node, corner, incoming)
  }

  /**
   * Whatever the bend, the dispatcher builds the 90-degree recipe of radius
   * 38 and centre-to-end 70: a tangent of 32, so three primitives.
   */
  lemma CreateBendRecipeUsesMock(m: MathOracle, node: NodeInfo, corner: Vec3, incoming: Vec3)
    requires node.kind.Bend?
    ensures CreateBendRecipe(m, node, corner, incoming) == Bend90Recipe(m, node, corner, incoming, 38.0, 70.0)
    ensures TangentLength(38.0, 70.0) == 32.0
    ensures CreateBendRecipe(m, node, corner, incoming).Ok? ==> |CreateBendRecipe(m, node, corner, incoming).value.0| == 3
  {
    assert OccursAt(BendTypeName, "BEND_90", 0);
    var r := CreateBendRecipe(m, node, corner, incoming);
    if r.Ok? {
      RecipeShape(ArcGeometry(m, node, corner, incoming, 38.0).value, incoming, 32.0);
    }
  }
}
