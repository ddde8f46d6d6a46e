/**
 * The node records of the topology: a base `NodeInfo` and its three
 * specialisations (bend, tee, endpoint), written as one record whose `kind`
 * carries the fields of the specialisation.  The constructors below give
 * each variant the defaults its dataclass declares.
 */
module NodeTypes {
  import opened Wrappers
  import opened Vectors
  import opened Catalog
  import opened Graphs

  /** What distinguishes the specialisations; `Plain` is a bare `NodeInfo`. */
  datatype Kind =
    | Plain
    | Bend(angle: Option<real>, vectors: seq<Vec3>)
    | Tee(runNodeIds: seq<string>, branchNodeId: Option<string>)
    | Endpoint(fittingType: string, direction: Option<Vec3>)

  datatype NodeInfo = NodeInfo(
    coords: Vec3,
    id: string,
    nodeType: string,
    requiresReducer: bool,
    assignedSpec: Option<PipeSpecData>,
    kind: Kind)

  /** The `node_type` each dataclass declares as its default. */
  function TypeName(k: Kind): string {
    match k
    case Plain => "UNKNOWN"
    case Bend(_, _) => "BEND"
    case Tee(_, _) => "TEE"
    case Endpoint(_, _) => "ENDPOINT"
  }

  /** A node whose `node_type` is the default of its own dataclass. */
  predicate WellTyped(n: NodeInfo) {
    n.nodeType == TypeName(n.kind)
  }

  predicate IsHexDigit(c: char) {
    '0' <= c <= '9' || 'a' <= c <= 'f'
  }

  /** A lower-case hexadecimal string of `uuid4().hex`'s length. */
  predicate IsUuidHex(h: string) {
    |h| == 32 && forall i :: 0 <= i < |h| ==> IsHexDigit(h[i])
  }

  /** The default id: "node_" and the first eight hexadecimal digits of a fresh uuid. */
  function DefaultId(uuidHex: string): (id: string)
    requires IsUuidHex(uuidHex)
    ensures |id| == 13 && id[..5] == "node_"
    ensures forall i :: 5 <= i < 13 ==> IsHexDigit(id[i])
  {
    "node_" + uuidHex[..8]
  }

  /** `NodeInfo(coords=c, id=i)`: not a reducer, no spec. */
  function NewNode(coords: Vec3, id: string): (n: NodeInfo)
    ensures WellTyped(n) && n.nodeType == "UNKNOWN" && n.kind.Plain?
    ensures n.coords == coords && n.id == id && !n.requiresReducer && n.assignedSpec.None?
  {
    NodeInfo(coords, id, TypeName(Plain), false, None, Plain)
  }

  /** `BendNodeInfo(coords=c, id=i)`: no angle and no vectors yet. */
  function NewBend(coords: Vec3, id: string): (n: NodeInfo)
    ensures WellTyped(n) && n.nodeType == "BEND"
    ensures n.kind.Bend? && n.kind.angle.None? && n.kind.vectors == []
    ensures n.coords == coords && n.id == id && !n.requiresReducer && n.assignedSpec.None?
  {
    var k := Bend(None, []);
    NodeInfo(coords, id, TypeName(k), false, None, k)
  }

  /** `TeeNodeInfo(coords=c, id=i)`: no run and no branch yet. */
  function NewTee(coords: Vec3, id: string): (n: NodeInfo)
    ensures WellTyped(n) && n.nodeType == "TEE"
    ensures n.kind.Tee? && n.kind.runNodeIds == [] && n.kind.branchNodeId.None?
    ensures n.coords == coords && n.id == id && !n.requiresReducer && n.assignedSpec.None?
  {
    var k := Tee([], None);
    NodeInfo(coords, id, TypeName(k), false, None, k)
  }

  /** `EndpointNodeInfo(coords=c, id=i)`: an open end without a direction yet. */
  function NewEndpoint(coords: Vec3, id: string): (n: NodeInfo)
    ensures WellTyped(n) && n.nodeType == "ENDPOINT"
    ensures n.kind.Endpoint? && n.kind.fittingType == "OPEN" && n.kind.direction.None?
    ensures n.coords == coords && n.id == id && !n.requiresReducer && n.assignedSpec.None?
  {
    var k := Endpoint("OPEN", None);
    NodeInfo(coords, id, TypeName(k), false, None, k)
  }

  /** The attributes of an edge of the 3D graph; the builder never sets a length. */
  datatype EdgeData = EdgeData(segmentId: string, specName: string, isConstruction: bool, length: Option<real>)

  /** The topology: nodes keyed by id carrying their record, edges carrying their attributes. */
  type PipeGraph = Graph<string, NodeInfo, EdgeData>
}
