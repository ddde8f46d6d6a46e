/**
 * The drawing primitives the factory, the centerline builder and the
 * adjuster emit: straight lines and three-point arcs between 3D points.
 */
module Primitives {
  import opened Vectors

  datatype Primitive =
    | Line(start: Vec3, end: Vec3)
    | Arc(start: Vec3, mid: Vec3, end: Vec3)

  /** Each primitive begins where the one before it ends. */
  predicate Contiguous(ps: seq<Primitive>) {
    forall i :: 0 < i < |ps| ==> ps[i - 1].end == ps[i].start
  }

  /** The number of arcs in a list of primitives. */
  function Arcs(ps: seq<Primitive>): nat {
    if ps == [] then 0 else (if ps[0].Arc? then 1 else 0) + Arcs(ps[1..])
  }
}
