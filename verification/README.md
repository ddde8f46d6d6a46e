# Sketch-to-centerline pipeline, modelled in Dafny

This project models the core of a pipe-routing backend. The backend turns an
isometric 2D sketch of a pipe run into the centerline geometry a CAD
executor draws. It runs in these stages:

- **Catalog loader** (`components_catalog/loader.py`). Reads the component
  catalog into one `PipeSpecData` per cleaned spec name. Each spec holds its
  bend radius and its bend, tee and clamp entries. A bend computes its own
  tangent length.
- **Topology builder** (`pipeline/topology_builder/builder.py`).
  - Snaps each sketch bearing to one of the six isometric axes.
  - Places the dimensioned segments in 3D by a breadth-first walk from a
    root point, then adds the shortcut segments whose ends were both placed.
  - Builds a graph with one node per distinct 3D point and removes
    construction edges and isolated nodes.
  - Classifies every node by degree as an endpoint, a bend or a tee. It
    records the bend angle and legs, or the tee's run and branch, and the
    catalog spec of the edges.
- **Route planner** (`pipeline/planner/planner.py`). Splits the graph into
  edge-disjoint walks from the endpoints, written as NODE/EDGE plans. At a
  tee it keeps to the run.
- **Build planner** (`pipeline/build_planner/planner.py`). Makes the same
  kind of walks, written as COMPONENT/STRAIGHT plans. Each component is
  named from its type and spec.
- **Component factory** (`pipeline/component_factory/factory.py`). Builds
  a 90-degree bend's recipe: tangent line, arc, tangent line.
- **Centerline builder** (`pipeline/centerline_builder/builder.py`). Moves
  a "pen" through a route plan bend by bend, collecting the factory's
  recipes. It also draws a node-to-node wireframe.
- **Plan adjuster** (`pipeline/plan_adjuster/adjuster.py`). Draws a
  wireframe line between consecutive components of a build plan. As
  written, the module's import of `BuildPlan` fails (see Left out); the
  model is of its class body.
- **Comfort cut** (`tests/plan_adjuster/test_adjuster.py`). Written out in
  the adjuster's tests: it shares a length shortfall among the cappable
  components' tangents, each in proportion to its comfort leeway. The
  first test takes each component's own leeway; the second keys the
  leeways by component name.

## How the model is organised

Each module follows one source file:

| module | file | models |
|---|---|---|
| `NodeTypes` | `node_types.dfy` | the node records |
| `Vectors` | `vectors.dfy` | `Vec3` and the `MathOracle` |
| `Snap` | `snap.dfy` | axis snapping |
| `Graphs` | `graphs.dfy` | the networkx graph operations used |
| `Topology` | `topology.dfy` | the topology builder |
| `Enrichment` | `enrich.dfy` | `_enrich_nodes` |
| `Walks` | `walks.dfy` | what the two planners share |
| `Planning` | `planner.dfy` | the route planner |
| `BuildPlanning` | `build_planner.dfy` | the build planner |
| `Factory` | `factory.dfy` | the component factory |
| `Centerline` | `centerline.dfy` | the centerline builder |
| `Adjuster` | `adjuster.dfy` | the plan adjuster |
| `ComfortCut` | `comfort_cut.dfy` | the comfort cut |
| `Catalog` | `catalog.dfy` | the loader |
| `Text` | `text.dfy` | Python string operations |
| `Seqs` | `seqs.dfy` | sequence lemmas |
| `Wrappers` | `wrappers.dfy` | `Option`, `Result` and Python's exceptions |

The source's object types take one of two forms:

- **Classes.** Objects whose fields the source updates in place are
  Dafny classes: `TopologyBuilder`, `Planner`, `BuildPlanner`,
  `CenterlineBuilder`, `PlanAdjuster`, `CatalogLoader` and the tests'
  `MockComponent`. Their loops are methods, each proved against a
  specification function or ghost function. The properties the source
  promises are then proved about those functions.
- **Values.** Data records and pure computations are datatypes and
  functions.

Python's exceptions (a missing key, a bad index, a wrong call, a division
by zero) are modelled as `Err` results. The model states when each one is
raised.

The model follows the code wherever the code departs from what its
comments or tests expect:

- **Custom bends.** The centerline builder passes a `tangent_placement`
  argument that the factory does not accept. A custom bend therefore stops
  placement with a type error (`Centerline.FirstBendCustomFails`).
- **Catalog loader.** `_parse_spec` passes `build_operation` a second
  time to a tee or clamp entry that declares it, which raises a type error.
  `Catalog.SpecFromRaw`, `Catalog.ParseSpec`, `Catalog.LoadOne` and
  `Catalog.CatalogLoader.LoadAll` parse as written, so the test catalog's
  SMS 25 spec fails to load (`Catalog.SampleSpecRejectedAsWritten`). The
  corrected parse is `Catalog.ParseComponent` (see Findings).
- **Comfort cut by name.** The second test's loop reads each leeway, and
  the total, from a dictionary keyed by component name, so two cappable
  components of one name share the later one's leeway.
  `ComfortCut.DistributeShortfall` follows that loop as written
  (`DistributionByName`); the per-component rule the tests intend is
  `ComfortCut.Distribution` (see Findings).
- **Edge lengths.** The builder never stores a `length` on an edge, so
  every EDGE length a route plan copies is `None` on a graph the builder
  produced.

## Model

| member | source | states |
|---|---|---|
| NodeTypes.DefaultId | pipeline/topology_builder/node_types_v2.py:14 | a default id is "node_" followed by eight hexadecimal digits, 13 characters in all |
| NodeTypes.NewNode | pipeline/topology_builder/node_types_v2.py:10-18 | a new `NodeInfo` keeps its coordinates and id, has `node_type` "UNKNOWN", no reducer and no spec |
| NodeTypes.NewBend | pipeline/topology_builder/node_types_v2.py:20-27 | a new bend has `node_type` "BEND", no angle and no vectors, no reducer and no spec |
| NodeTypes.NewTee | pipeline/topology_builder/node_types_v2.py:29-36 | a new tee has `node_type` "TEE", an empty run and no branch, no reducer and no spec |
| NodeTypes.NewEndpoint | pipeline/topology_builder/node_types_v2.py:38-45 | a new endpoint has `node_type` "ENDPOINT", fitting type "OPEN" and no direction, no reducer and no spec |
| Vectors.NormalizeScales | pipeline/topology_builder/builder.py:32-38 | a zero-length vector normalizes to the zero vector; otherwise scaling the normalized vector by the length gives the vector back |
| Snap.Mod360 | pipeline/topology_builder/builder.py:85 | Python's float `% 360`: the result lies in [0, 360) and differs from the argument by a whole number of turns |
| Snap.AngleDistance | pipeline/topology_builder/builder.py:96-98 | the circular distance between two bearings lies in [0, 180] |
| Snap.ClosestFrom | pipeline/topology_builder/builder.py:99 | the chosen standard bearing is at least as close as every other, and strictly closer than every one listed before it, so ties go to the first listed |
| Snap.SnapDirection | pipeline/topology_builder/builder.py:85-100 | the snapped direction is one of the six standard directions |
| Snap.SnapIsAxis | pipeline/topology_builder/builder.py:86-93 | every snapped direction is a unit vector along one axis |
| Snap.StandardAxes | pipeline/topology_builder/builder.py:86-93 | each of the six standard directions is a unit vector along one axis |
| Snap.SnapPeriodic | pipeline/topology_builder/builder.py:85 | bearings a full turn apart snap to the same direction |
| Snap.SnapExact | pipeline/topology_builder/builder.py:86-100 | each standard bearing (30 to +X, 90 to -Z, 150 to -Y, 210 to -X, 270 to +Z, 330 to +Y) snaps to its own direction |
| Graphs.Empty | pipeline/topology_builder/builder.py:52 | `nx.Graph()` is a well-formed graph with no nodes |
| Graphs.DegreeZero | pipeline/topology_builder/builder.py:322 | a node has degree 0 exactly when it has no neighbour |
| Graphs.AddNode | pipeline/topology_builder/builder.py:224 | `add_node` puts a new node last and updates an existing node's data in place; edges are unchanged; the graph stays well-formed |
| Graphs.AddEnds | pipeline/topology_builder/builder.py:230-235 | the first half of `add_edge` adds whichever end is missing, with blank data and no edges, keeping every old node, its data and its adjacency |
| Graphs.AddEdge | pipeline/topology_builder/builder.py:230-235 | `add_edge` first adds any missing end, `u` before `v`. It appends each end to the other's neighbours unless already there and sets the edge's data. Exactly one adjacency is added, in both directions, and nothing else changes |
| Graphs.Link | pipeline/topology_builder/builder.py:230-235 | linking appends the new neighbour unless it is already there: the neighbours afterwards are the old ones plus that one, and stay free of repeats |
| Graphs.Connect | pipeline/topology_builder/builder.py:230-235 | linking two existing nodes adds exactly the adjacency between them, in both directions, and sets the edge's data |
| Graphs.RemoveEdgesWhere | pipeline/topology_builder/builder.py:313-317 | the edges whose data is selected are removed and every other adjacency stays; the nodes and their order are unchanged |
| Graphs.RemoveIsolated | pipeline/topology_builder/builder.py:321-324 | removing the isolated nodes keeps exactly the nodes that have an edge, in their old order, with their data and neighbours |
| Text.StripLeft | pipeline/topology_builder/builder.py:229 | the result is no longer than its argument and does not start with whitespace |
| Text.StripRight | pipeline/topology_builder/builder.py:229 | the result is no longer than its argument and does not end with whitespace |
| Text.StripTrimmed | components_catalog/loader.py:76 | `strip()` leaves no leading or trailing whitespace |
| Text.StripOfTrimmed | components_catalog/loader.py:76 | a string without leading or trailing whitespace is its own strip |
| Text.ReplaceChar | pipeline/topology_builder/builder.py:229 | `replace('-', '_')` keeps the length and changes exactly the '-' characters |
| Text.CleanNameIdempotent | components_catalog/loader.py:76 | a cleaned name has no '-' and no leading whitespace, and cleaning it again changes nothing |
| Text.Contains | components_catalog/loader.py:92-101 | Python's substring test holds exactly when the substring occurs at some position |
| Text.LexLessIrreflexive | pipeline/planner/planner.py:57 | no string is smaller than itself in Python's order |
| Text.LexLessTrichotomy | pipeline/planner/planner.py:57 | of two different strings exactly one is the smaller in Python's order |
| Text.SortedPairSymmetric | pipeline/planner/planner.py:94-95 | the edge key `tuple(sorted((a, b)))` is the same in both directions, holds both ends, and is ordered |
| Text.SortedPairInjective | pipeline/planner/planner.py:94-95 | two edge keys are equal exactly when they join the same two ids |
| Topology.LastJoining | pipeline/topology_builder/builder.py:123 | the segment an edge keeps: the last of the segments whose ends are the edge's two points, none exactly when no segment joins them |
| Topology.CreateSketchGraph | pipeline/topology_builder/builder.py:105-124 | the sketch graph's points are exactly the segment ends; two points are adjacent exactly when a segment joins them; every edge carries the last segment drawn between its two points |
| Topology.SketchGraphEmpty | pipeline/topology_builder/builder.py:136-138 | the sketch graph has no point exactly when there is no dimensioned segment |
| Topology.FirstOfDegreeOne | pipeline/topology_builder/builder.py:143 | the search returns the first point of degree 1, or none when no point has degree 1 |
| Topology.Root | pipeline/topology_builder/builder.py:143 | the traversal root is a point of the sketch graph |
| Topology.Step | pipeline/topology_builder/builder.py:160-184 | a neighbour step keeps the current point placed and never drops a placed point |
| Topology.VisitAll | pipeline/topology_builder/builder.py:153-184 | visiting the neighbours in order keeps the current point placed and never drops a placed point |
| Topology.VisitAllPlaced | pipeline/topology_builder/builder.py:153-184 | visiting a placed point's neighbours keeps the placement invariant: each placed point is its parent's point moved along the snapped bearing by the segment length |
| Topology.VisitAllQueue | pipeline/topology_builder/builder.py:153-184 | visiting a point's neighbours marks all of them visited and queues exactly the newly visited ones, in order, behind the old queue |
| Topology.Visit | pipeline/topology_builder/builder.py:153-184 | the inner loop computes exactly the state the specification function `VisitAll` gives |
| Topology.Traverse | pipeline/topology_builder/builder.py:146-184 | the breadth-first traversal places the root at the origin and each reached point exactly once, as its parent's point plus the snapped direction times the segment length. It emits one tree segment per placed point other than the root, and the placed points are closed under adjacency |
| Topology.ShortcutSegments | pipeline/topology_builder/builder.py:187-205 | exactly the shortcuts whose two ends were placed are emitted, each with the 3D points of its ends |
| Topology.EmitShortcuts | pipeline/topology_builder/builder.py:187-205 | the shortcut loop appends exactly `ShortcutSegments` to the tree segments |
| Topology.PlaceSketch | pipeline/topology_builder/builder.py:131-184 | with no dimensioned segment nothing is placed; otherwise the traversal from the root places the points connected to it |
| Topology.TreeSegmentsJoin | pipeline/topology_builder/builder.py:158-183 | each tree segment is the last dimensioned segment drawn between its parent and its child, and the child lies that segment's length from the parent along the snapped bearing |
| Topology.TopologyBuilder.constructor | pipeline/topology_builder/builder.py:49-57 | a new builder holds the sketch and catalog, an empty graph, no nodes and an empty point map |
| Topology.TopologyBuilder.Translate | pipeline/topology_builder/builder.py:126-207 | `_translate_2d_to_3d` emits the tree segments of the traversal and then the resolved shortcuts. It records every placed point in the point map, and emits nothing when there is no dimensioned segment |
| Topology.NodeAt | pipeline/topology_builder/builder.py:220-224 | a coordinate not met before gets a new plain node under the next fresh id; a known one changes nothing |
| Topology.BuildFrom | pipeline/topology_builder/builder.py:214-235 | the loop of `_build_graph` creates one node per distinct coordinate and one edge per segment between the nodes of its ends, each edge carrying the data of the last segment between those nodes |
| Topology.AddSegment | pipeline/topology_builder/builder.py:220-235 | one round of the loop keeps the invariants: one node per distinct coordinate seen, both ends of every handled segment known, one edge per handled segment, carrying the last handled segment between its nodes |
| Topology.TopologyBuilder.BuildGraph | pipeline/topology_builder/builder.py:209-235 | one plain node per distinct 3D coordinate, under fresh ids in order. One edge per segment between its ends' nodes, every adjacency coming from a segment. Each edge carries the id, cleaned spec name and construction flag of the last segment joining its two nodes |
| Topology.Cleaned | pipeline/topology_builder/builder.py:310-325 | the cleaned graph is well-formed |
| Topology.CleanedEdges | pipeline/topology_builder/builder.py:313-324 | after cleanup no edge is a construction edge, every other edge is still there, and every node has an edge |
| Topology.CleanedNodes | pipeline/topology_builder/builder.py:321-324 | exactly the nodes that keep a non-construction edge survive, with their records, in their old order |
| Topology.TopologyBuilder.Cleanup | pipeline/topology_builder/builder.py:310-325 | `_cleanup_graph` leaves exactly `Cleaned` of the old graph and changes nothing else |
| Topology.TopologyBuilder.Enrich | pipeline/topology_builder/builder.py:238-308 | `_enrich_nodes` stores each node's enriched record in the graph and lists the stored records in order. When the body raises, the records stored so far stay and the node list is not replaced |
| Enrichment.TowardAll | pipeline/topology_builder/builder.py:275 | one normalized vector per neighbour, in neighbour order |
| Enrichment.Clamp | pipeline/topology_builder/builder.py:269 | the clamped dot product lies in [-1, 1] and equals the input when the input does |
| Enrichment.BestRunUnique | pipeline/topology_builder/builder.py:278-285 | the tee search's outcome is determined by the leg vectors |
| Enrichment.SelectRun | pipeline/topology_builder/builder.py:278-285 | the nested loops find no pair when no two legs have a dot product below 1.0, else the first pair in loop order with the smallest dot product |
| Enrichment.Branch | pipeline/topology_builder/builder.py:289-290 | the branch is the smallest index outside the run, and there is none (an IndexError) when only the run's two indices exist |
| Enrichment.EnrichedKind | pipeline/topology_builder/builder.py:250-295 | an enriched node keeps its coordinates and id and carries its own `node_type`. It is an endpoint, bend or tee exactly when its degree is 1, 2 or at least 3; an isolated node gets no record |
| Enrichment.EnrichedGeometry | pipeline/topology_builder/builder.py:250-270 | an endpoint is open and points at its neighbour; a bend records its two legs in neighbour order and the angle between them |
| Enrichment.EnrichedFails | pipeline/topology_builder/builder.py:257-290 | enrichment raises IndexError exactly at a degree-2 node whose only edge is a self-loop and at a degree-3 node made of a self-loop and one other edge |
| Enrichment.EnrichedTee | pipeline/topology_builder/builder.py:272-293 | a tee with a run stores the two neighbours with the most nearly opposite legs and the smallest index outside them as branch; without a run it stores neither |
| Enrichment.EnrichedSpecs | pipeline/topology_builder/builder.py:295-303 | a node needs a reducer exactly when its edges carry more than one spec name, and gets the catalog's spec for the picked name |
| Enrichment.EnrichedSameShape | pipeline/topology_builder/builder.py:245-306 | enrichment reads only the graph's shape, so storing records earlier in the loop does not change later results |
| Enrichment.TeeNode | pipeline/topology_builder/builder.py:272-293 | the tee branch of the loop body returns the tee whose run the search determines |
| Enrichment.ClassifyNode | pipeline/topology_builder/builder.py:247-293 | the classification by degree returns `Classify` for the run the search picks |
| Enrichment.EnrichNode | pipeline/topology_builder/builder.py:246-303 | the loop body returns the enriched record for an allowed choice of spec name |
| Enrichment.Live | pipeline/topology_builder/builder.py:305-308 | the listed nodes are exactly those with an edge, in graph order |
| Enrichment.Store | pipeline/topology_builder/builder.py:305-306 | storing a record replaces only that node's record |
| Enrichment.ExpectedDone | pipeline/topology_builder/builder.py:245-306 | each handled node holds its enriched record, or its old one when it has no edges |
| Enrichment.ExpectedShape | pipeline/topology_builder/builder.py:306 | every stored record keeps the coordinates and id of the record it replaces |
| Enrichment.EnrichStep | pipeline/topology_builder/builder.py:245-306 | one round of the loop stores the next node's record or reports the exception its body raises |
| Enrichment.EnrichAll | pipeline/topology_builder/builder.py:238-308 | the whole loop leaves the graph with the handled nodes enriched and the records of the nodes with edges listed in order, or reports where it raised |
| Walks.ById | pipeline/planner/planner.py:17 | the lookup holds exactly the ids of the nodes, each mapped to a node of the list carrying that id |
| Walks.ByIdLast | pipeline/build_planner/planner.py:14 | when several nodes share an id, the last one wins |
| Walks.Starts | pipeline/planner/planner.py:29 | the start nodes are exactly the endpoints of the list |
| Walks.OpenAmongMembers | pipeline/planner/planner.py:52-59 | exactly the neighbours other than the previous node and not across a walked edge are kept |
| Walks.OpenAmongFirst | pipeline/planner/planner.py:74 | the first kept neighbour is the first open one in neighbour order |
| Walks.KeysShrink | pipeline/planner/planner.py:94-95 | walking an edge not walked before leaves one fewer edge to walk, so every walk terminates |
| Planning.FirstInSpec | pipeline/planner/planner.py:67-70 | the node found lies on the run and among the open neighbours; none is found exactly when they share none |
| Planning.NextNode | pipeline/planner/planner.py:46-74 | the next node is a neighbour, not the previous node, and not across a walked edge |
| Planning.NextNodeChoice | pipeline/planner/planner.py:52-70 | there is no next node exactly when no neighbour is open; at a tee an open neighbour on the run is chosen over any other |
| Planning.NextNodeFirst | pipeline/planner/planner.py:74 | away from a tee's run, the next node is the first open neighbour in neighbour order |
| Planning.OpenAmongSplit | pipeline/planner/planner.py:52-59 | the two filtering passes together keep exactly the open neighbours |
| Planning.WalkAlternates | pipeline/planner/planner.py:87-113 | a walk starts with its own node and alternates NODE and EDGE items |
| Planning.WalkJoined | pipeline/planner/planner.py:89-111 | each EDGE item between two NODE items is their sorted id pair and joins them in the graph |
| Planning.WalkLengths | pipeline/planner/planner.py:99-107 | each EDGE item carries the length stored on its edge, or None |
| Planning.WalkStep | pipeline/planner/planner.py:87-113 | one step writes the node, then either stops or writes the edge to the next node and continues from there |
| Planning.WalkFresh | pipeline/planner/planner.py:76-115 | a walk walks only edges not walked before, none twice, and exactly those are added to the walked set |
| Planning.WalkInGraph | pipeline/planner/planner.py:94-99 | every edge a walk walks is an edge of the graph |
| Planning.WalkBounded | pipeline/planner/planner.py:87-113 | a walk walks at most as many edges as remain unwalked |
| Planning.WalkEndsOnNode | pipeline/planner/planner.py:87-113 | when the lookup knows every node, a plan starts and ends with a NODE |
| Planning.Plans | pipeline/planner/planner.py:22-44 | `create_plans` yields at most one plan per start and only adds to the walked edges |
| Planning.PlansStep | pipeline/planner/planner.py:31-40 | an endpoint whose first edge was walked starts no plan; any other adds the plan of its walk |
| Planning.PlansDisjoint | pipeline/planner/planner.py:22-44 | across all plans no edge is walked twice, every walked edge is an edge of the graph not walked before, and the walked set grows by exactly these edges |
| Planning.PlansStart | pipeline/planner/planner.py:29-40 | every plan is non-empty and starts at one of the endpoints |
| Planning.KeepNotFrom | pipeline/planner/planner.py:52 | the loop keeps the neighbours other than the previous node |
| Planning.KeepUnwalked | pipeline/planner/planner.py:55-59 | the loop keeps the neighbours across an unwalked edge |
| Planning.FindInRun | pipeline/planner/planner.py:67-70 | the loop returns the first open neighbour on the run |
| Planning.Planner.constructor | pipeline/planner/planner.py:15-20 | a new planner holds the nodes, their lookup by id and the graph, with no edge walked |
| Planning.Planner.FindNextNode | pipeline/planner/planner.py:46-74 | `_find_next_node` returns exactly `NextNode` |
| Planning.Planner.Traverse | pipeline/planner/planner.py:76-115 | `_traverse_and_build_plan` returns the walk's plan and leaves the walked set the walk leaves |
| Planning.Planner.CreatePlans | pipeline/planner/planner.py:22-44 | `create_plans` returns `Plans` over the endpoints and leaves its walked set |
| BuildPlanning.RoundHalfEven | pipeline/build_planner/planner.py:92 | Python's `round` gives an integer within one half, the even one at exactly one half |
| BuildPlanning.RoundsTo90 | pipeline/build_planner/planner.py:92-93 | an angle rounds to 90 exactly when it lies in [89.5, 90.5] |
| BuildPlanning.RoundsTo45 | pipeline/build_planner/planner.py:92-94 | an angle rounds to 45 exactly when it lies in (44.5, 45.5) |
| BuildPlanning.SpecNameOf | pipeline/build_planner/planner.py:88 | the spec name is that of the assigned spec, or "UNKNOWN_SPEC" |
| BuildPlanning.ComponentType | pipeline/build_planner/planner.py:90-97 | a bend is BEND_90, BEND_45 or BEND_CUSTOM by its rounded angle, with a missing angle counting as 0. An endpoint uses its fitting type and any other node its `node_type` |
| BuildPlanning.ComponentItem | pipeline/build_planner/planner.py:86-108 | always a COMPONENT item named type + "_" + spec for the node, 0.0 long exactly for "OPEN" and 50.0 otherwise |
| BuildPlanning.NewEndpointComponent | pipeline/build_planner/planner.py:88-100 | a fresh endpoint becomes "OPEN_UNKNOWN_SPEC" with length 0 |
| BuildPlanning.StraightItem | pipeline/build_planner/planner.py:110-117 | a STRAIGHT item copies the edge's spec name and construction flag and has no length |
| BuildPlanning.FirstOpenInSpec | pipeline/build_planner/planner.py:59-69 | the choice is the first neighbour that is neither the previous node nor across a walked edge; there is none exactly when none is open |
| BuildPlanning.FirstOpenInHead | pipeline/build_planner/planner.py:59-69 | that choice is the head of the open neighbours the route planner collects |
| BuildPlanning.FirstOpen | pipeline/build_planner/planner.py:59-69 | the next node is an open neighbour, and there is none exactly when every neighbour is closed |
| BuildPlanning.FirstOpenAsPlanner | pipeline/build_planner/planner.py:59-69 | away from a tee both planners step to the same neighbour |
| BuildPlanning.BuildWalkShape | pipeline/build_planner/planner.py:54-82 | a walk starts with its node's component and alternates COMPONENT and STRAIGHT. It has one straight per walked edge, copying that edge's data, and each edge is the sorted pair of the components around it |
| BuildPlanning.BuildWalkFresh | pipeline/build_planner/planner.py:66-73 | a walk walks only unwalked edges of the graph, none twice, and exactly those are added to the walked set |
| BuildPlanning.BuildWalkEndsOnComponent | pipeline/build_planner/planner.py:54-82 | when the lookup knows every node, a plan ends with a COMPONENT |
| BuildPlanning.BuildPlans | pipeline/build_planner/planner.py:19-41 | at most one plan per start |
| BuildPlanning.BuildPlansStep | pipeline/build_planner/planner.py:28-38 | an endpoint whose first edge was walked starts no plan; any other adds the plan of its walk |
| BuildPlanning.BuildPlansDisjoint | pipeline/build_planner/planner.py:19-41 | no edge appears in two plans or twice in one, and the walked set grows by exactly the walked edges |
| BuildPlanning.BuildPlansBounded | pipeline/build_planner/planner.py:54-82 | all plans together hold at most as many straights as the graph has unwalked edges |
| BuildPlanning.BuildPlansStart | pipeline/build_planner/planner.py:26-38 | every plan is non-empty and opens with the component of an endpoint |
| BuildPlanning.FindFirstOpen | pipeline/build_planner/planner.py:59-69 | the neighbour loop, with its `continue` and `break`, returns the first open neighbour |
| BuildPlanning.BuildPlanner.constructor | pipeline/build_planner/planner.py:12-17 | a new planner holds the nodes, their lookup by id and the graph, with no edge walked |
| BuildPlanning.BuildPlanner.Traverse | pipeline/build_planner/planner.py:43-84 | `_traverse_and_build_plan` returns the walk's plan and leaves the walked set the walk leaves |
| BuildPlanning.BuildPlanner.CreatePlans | pipeline/build_planner/planner.py:19-41 | `create_plans` returns `BuildPlans` over the endpoints and leaves its walked set |
| Factory.Outgoing | pipeline/component_factory/factory.py:41 | the outgoing direction is one of the two legs, the one less aligned with the way back, and the first leg on a tie |
| Factory.ArcGeometry | pipeline/component_factory/factory.py:35-57 | the arc starts back along the incoming direction and ends forward along the outgoing one, both `radius / tan(half internal angle)` from the corner. Fewer than two vectors is an IndexError and a missing angle a TypeError |
| Factory.TangentLength | pipeline/component_factory/factory.py:70-72 | the tangent is `max(0, center_to_end - radius)` |
| Factory.Bend90Recipe | pipeline/component_factory/factory.py:66-86 | the recipe around the arc, the position one tangent past the arc's end along the outgoing direction, and the outgoing direction |
| Factory.RecipeShape | pipeline/component_factory/factory.py:74-86 | exactly one arc; both lines present when the tangent exceeds 1e-6, else neither; contiguous; each line one tangent long along its direction; the returned position is where the last line ends |
| Factory.Dispatch | pipeline/component_factory/factory.py:103-122 | a missing catalog entry, or one no expert handles, leaves the recipe empty and the pen unmoved; a BEND_90 entry gets the 90-degree recipe |
| Factory.CreateBendRecipeUsesMock | pipeline/component_factory/factory.py:95-118 | the dispatcher always builds the radius 38, centre-to-end 70 recipe: a tangent of 32, so three primitives |
| Centerline.TangentPlacement | pipeline/centerline_builder/builder.py:99-122 | INCOMING exactly when the incoming length is known and strictly less than the outgoing length, a missing length counting as infinity |
| Centerline.TiesGoOutgoing | pipeline/centerline_builder/builder.py:117-122 | equal lengths, or two unknown ones, give OUTGOING |
| Centerline.ExtLessStrict | pipeline/centerline_builder/builder.py:114-117 | the comparison with infinity is a strict order |
| Centerline.CustomAngleBounds | pipeline/centerline_builder/builder.py:93 | exactly 90 or 45 is not custom; an angle more than 1e-6 from both is custom |
| Centerline.StartPen | pipeline/centerline_builder/builder.py:67-78 | the pen starts at the first node; along an endpoint's direction, or else towards the node two items on. An empty plan is an IndexError and an unknown node a KeyError |
| Centerline.PlacedSticky | pipeline/centerline_builder/builder.py:82-137 | once an item raises, the later items change nothing |
| Centerline.PlacedCount | pipeline/centerline_builder/builder.py:82-137 | without an error, each bend adds the factory's three primitives, other items add nothing, and placement only appends |
| Centerline.PlacedNoBends | pipeline/centerline_builder/builder.py:83-86 | items before any bend leave the pen and primitives as they were |
| Centerline.FirstBendCustomFails | pipeline/centerline_builder/builder.py:86-128 | a custom first bend stops placement with a TypeError before anything is placed |
| Centerline.PlaceResultPenFree | pipeline/centerline_builder/builder.py:63-78 | the primitives placed do not depend on the pen left by an earlier plan |
| Centerline.DrawingPlans | pipeline/centerline_builder/builder.py:42-61 | one drawing plan per travel plan, or the first error |
| Centerline.DrawingPlansEach | pipeline/centerline_builder/builder.py:50-61 | drawing plan `k` is the placement of travel plan `k`, in order |
| Centerline.DrawingPlansStopped | pipeline/centerline_builder/builder.py:50-61 | once a plan fails, the later plans are not placed |
| Centerline.Wire | pipeline/centerline_builder/builder.py:160-172 | at most one line per consecutive pair |
| Centerline.NodeIds | pipeline/centerline_builder/builder.py:154 | the NODE ids are no more than the plan's items |
| Centerline.WireAllKnown | pipeline/centerline_builder/builder.py:156-172 | with every node known there is one line per pair, line `i` from node `i` to node `i + 1`, each starting where the one before ends |
| Centerline.PlaceItem | pipeline/centerline_builder/builder.py:83-137 | one pass of the loop computes exactly `Step` |
| Centerline.CenterlineBuilder.constructor | pipeline/centerline_builder/builder.py:29-40 | a new builder holds the travel plans and the node lookup, with no pen |
| Centerline.CenterlineBuilder.PlaceComponents | pipeline/centerline_builder/builder.py:63-137 | `_place_components` returns the placement's primitives or error and leaves the pen where `PlaceResult` says |
| Centerline.CenterlineBuilder.BuildDrawingPlans | pipeline/centerline_builder/builder.py:42-61 | `build_drawing_plans` returns `DrawingPlans` and leaves its pen |
| Centerline.CenterlineBuilder.Wireframe | pipeline/centerline_builder/builder.py:144-174 | no lines for fewer than two NODE items, else the wireframe over the NODE ids, skipping unknown nodes |
| Adjuster.ComponentIds | pipeline/plan_adjuster/adjuster.py:49 | exactly the node ids of COMPONENT items, no more than the plan's items |
| Adjuster.ExplicitLinesSpec | pipeline/plan_adjuster/adjuster.py:56-67 | the lines succeed exactly when every id met is known. There is then one line per pair, line `i` from node `i` to node `i + 1`, each starting where the one before ends; otherwise a KeyError |
| Adjuster.ExplicitPlanSpec | pipeline/plan_adjuster/adjuster.py:39-69 | a plan fails exactly when it has two components or more and one is unknown; otherwise it has one line fewer than it has components (none below two), joined end to start |
| Adjuster.ExplicitLinesAgreeWithWire | pipeline/plan_adjuster/adjuster.py:56-67 | with every node known, the adjuster's lines are the centerline builder's wireframe |
| Adjuster.ExplicitPlans | pipeline/plan_adjuster/adjuster.py:25-37 | one wireframe per plan, each the plan's own, or an error from a plan that fails |
| Adjuster.ExplicitLinesFailed | pipeline/plan_adjuster/adjuster.py:60-61 | once a pair fails, the error stands |
| Adjuster.ExplicitPlansFailed | pipeline/plan_adjuster/adjuster.py:31-35 | once a plan fails, the later plans are not converted |
| Adjuster.PlanAdjuster.constructor | pipeline/plan_adjuster/adjuster.py:19-23 | a new adjuster holds the plans and the node lookup |
| Adjuster.PlanAdjuster.ExplicitPlanOf | pipeline/plan_adjuster/adjuster.py:39-69 | `_create_explicit_plan_from_semantic` returns exactly `ExplicitPlan` |
| Adjuster.PlanAdjuster.CreateExplicitPlans | pipeline/plan_adjuster/adjuster.py:25-37 | `create_explicit_plans` returns exactly `ExplicitPlans` |
| ComfortCut.Spread | tests/plan_adjuster/test_adjuster.py:185-200 | the division fails exactly when the shortfall is within a zero total and a part is cappable. Otherwise there is one entry per part, a cut exactly for the cappable parts when the shortfall is within the total |
| ComfortCut.MockComponent.constructor | tests/plan_adjuster/test_adjuster.py:78-85 | a new mock component holds its part and a cut of 0 |
| ComfortCut.Parts | tests/plan_adjuster/test_adjuster.py:185 | the parts of the components, one per component in order |
| ComfortCut.Untouched | tests/plan_adjuster/test_adjuster.py:195-200 | `n` entries, every one uncut |
| ComfortCut.Shares | tests/plan_adjuster/test_adjuster.py:196-200 | each cappable part is cut by shortfall times leeway over total; the others are left alone |
| ComfortCut.Distribution | tests/plan_adjuster/test_adjuster.py:102-110 | the per-component rule, each part's own leeway over the total of the parts' leeways: the cut fails exactly when the shortfall is within a zero total leeway and some part is cappable |
| ComfortCut.Proportion | tests/plan_adjuster/test_adjuster.py:195-200 | shares of a shortfall add up, and the whole total's share is the shortfall |
| ComfortCut.CutPrefix | tests/plan_adjuster/test_adjuster.py:102-110 | under the per-component rule, the cuts of the first `k` parts are the shortfall's share of their leeway |
| ComfortCut.CutsSumToShortfall | tests/plan_adjuster/test_adjuster.py:215-217 | within a non-zero total, the cuts sum to the shortfall |
| ComfortCut.ShareWithin | tests/plan_adjuster/test_adjuster.py:121-123 | a share lies between 0 and the leeway, and is the whole leeway when the shortfall is the total |
| ComfortCut.CutsWithinComfort | tests/plan_adjuster/test_adjuster.py:121-123 | a cut is at least 0 and leaves the tangent at or above its preferred minimum, exactly at it when the shortfall equals the total |
| ComfortCut.UncappableUntouched | tests/plan_adjuster/test_adjuster.py:185-205 | a non-cappable part is never cut |
| ComfortCut.UncappableNotCounted | tests/plan_adjuster/test_adjuster.py:185-192 | a non-cappable part does not count towards the total leeway |
| ComfortCut.DistributeShortfall | tests/plan_adjuster/test_adjuster.py:185-200 | as written: each cappable component's cut becomes its entry of `DistributionByName`, its name's leeway in the name-keyed dict over the sum of the dict's values; uncut ones keep theirs; a failure changes nothing |
| ComfortCut.Upsert | tests/plan_adjuster/test_adjuster.py:187-189 | a dict assignment makes the key present and map to the new value, leaves every other key's value, and keeps an existing key in its place (a new one goes last) |
| ComfortCut.LeewayDictDistinct | tests/plan_adjuster/test_adjuster.py:187-192 | with distinct names, the leeway dict holds each cappable part's leeway under its name and its values sum to the total leeway |
| ComfortCut.ByNameAgreesWhenNamesDistinct | tests/plan_adjuster/test_adjuster.py:187-200 | with distinct names, the test's name-keyed cut is the cut by component |
| ComfortCut.SameNameCutsEach | tests/plan_adjuster/test_adjuster.py:187-200 | two cappable components of one name, the later with a non-zero leeway at least the shortfall: the name-keyed rule cuts each by the whole shortfall, twice the shortfall in all |
| ComfortCut.SameNameCutsTwice | tests/plan_adjuster/test_adjuster.py:187-200 | two same-name bends with leeways 15 and 5 and a shortfall of 5 are each cut by 5 under the name-keyed rule, 10 in all, where the per-component rule cuts 3.75 and 1.25 |
| ComfortCut.TwoBendsScenario | tests/plan_adjuster/test_adjuster.py:87-123 | leeways 10 and 20 with a shortfall of 30 give cuts 10 and 20, each leaving its tangent at its preferred minimum |
| ComfortCut.ChainScenario | tests/plan_adjuster/test_adjuster.py:156-217 | bend, reducer and clamp with a shortfall of 20 give cuts 15, none and 5, summing to 20 |
| ComfortCut.UShapeFigures | tests/plan_adjuster/test_adjuster.py:43-68 | a 90-degree SMS 25 bend has a tangent of 13. A 100 leg leaves a 49 straight, a 40 leg is 11 short (within the tangent), and a 1 leg is 50 short (beyond it) |
| Catalog.Max0 | components_catalog/loader.py:28-33 | `max(0.0, x)` is non-negative, at least `x`, and one of the two |
| Catalog.Tangent | components_catalog/loader.py:23-34 | a bend's tangent is never negative |
| Catalog.TangentOfNinetyDegreeBend | components_catalog/loader.py:27-28 | with `center_to_end` set, the tangent is `max(0, center_to_end - bend_radius)`, whatever `b_dimension` holds |
| Catalog.TangentWithoutDimensions | components_catalog/loader.py:34 | with neither dimension set, the tangent is 0 |
| Catalog.Dispatch | components_catalog/loader.py:89-103 | "BEND" wins, then "TEE", then "SMS_CLAMP"; any other name is not stored. A stored entry keeps its build operation, and a bend inherits the spec's bend radius |
| Catalog.TeeOrClampWithBuildOperationFails | components_catalog/loader.py:99-102 | as written, a tee or clamp entry that declares `build_operation` raises TypeError |
| Catalog.TeeEntryParses | components_catalog/loader.py:99-100 | passing `build_operation` once, a tee entry parses exactly when its other keys are the two tee dimensions |
| Catalog.SampleTeeEntryRejectedAsWritten | components_catalog/loader.py:99-100 | the test catalog's tee entry is rejected as written and parses when corrected |
| Catalog.StoreAllContents | components_catalog/loader.py:74-103 | after a successful fill, a key is present exactly when an entry under it produced a value |
| Catalog.StoreAllLastWins | components_catalog/loader.py:77 | for entries sharing a key, the last one's value is kept |
| Catalog.ParseComponentsContents | components_catalog/loader.py:89-103 | when the components parse as written, the stored components are exactly the claimed entries, and every bend inherits the spec's bend radius |
| Catalog.ParseComponentsLastWins | components_catalog/loader.py:89-103 | a component name given twice keeps its last entry, parsed as written |
| Catalog.SpecFromRaw | components_catalog/loader.py:80-105 | a parsed spec carries its cleaned name. Missing fields are a KeyError, and a tee or clamp entry that declares `build_operation` is a TypeError, as written |
| Catalog.SampleSpecRejectedAsWritten | components_catalog/loader.py:89-102 | the test catalog's SMS 25 spec fails with a TypeError at its tee entry, as written |
| Catalog.ParseSpec | components_catalog/loader.py:80-105 | `_parse_spec`'s loop returns exactly `SpecFromRaw`, with the spec's name and bend radius |
| Catalog.Lookup | components_catalog/loader.py:107-108 | `get` is None exactly for a name not loaded, else the loaded spec |
| Catalog.LoadOne | components_catalog/loader.py:76-77 | every spec that parses is stored, and a spec that fails aborts the load |
| Catalog.LoadedSpecsKeys | components_catalog/loader.py:74-77 | the loaded names are exactly the cleaned names of the specs read |
| Catalog.LoadedSpecsNames | components_catalog/loader.py:76-77 | every loaded name is clean and names the spec stored under it |
| Catalog.LoadedSpecsLastWins | components_catalog/loader.py:77 | a later spec whose name cleans to the same key overwrites the earlier one |
| Catalog.CatalogLoader.constructor | components_catalog/loader.py:63-64 | a new loader has no standards |
| Catalog.CatalogLoader.LoadAll | components_catalog/loader.py:67-78 | `_load_all` fails exactly when a spec fails to parse, and otherwise stores `LoadedSpecs` over the old standards |
| Catalog.CatalogLoader.GetSpec | components_catalog/loader.py:107-108 | `get_spec` returns None exactly for a name not loaded, else its spec |

## Left out

- **Floating point, trig and rounding.**
  - Coordinates, lengths and bearings are exact reals.
  - `sqrt`, `atan2`, `acos`, `tan`, `sin`, `pi` and `round(x, 6)` are fields of a `MathOracle` that callers pass in, and no numeric value of them is proved.
  - `math.isclose` is modelled with its default relative tolerance only.
  - The 45-degree bend's tangent formula is stated through the oracle.
- **Sketch coordinate input.** `Decimal` keys are exact decimal pairs, given directly as points. Whether a point came as a dict or a tuple (`builder.py:115-118`, `191-194`) is not modelled.
- **networkx.** Only the operations the pipeline calls are modelled (`add_node`, `add_edge`, `neighbors`, `degree`, `remove_edges_from`, `remove_nodes_from`). Their ordering behaviour is as the library documents it.
- **CPython set order.**
  - `list(spec_names)[0]` may give any of the names: the choice is a parameter, constrained to one of them.
  - `list(set(range(n)) - {i, j})[0]` is taken in ascending order, which CPython gives for small integers.
- **Fresh node ids.** `uuid4` ids are a parameter: a sequence of distinct ids, of which `_build_graph` needs two per segment. Collisions are not modelled.
- **TopologyBuilder.build.** The orchestration of the four steps (`builder.py:60-77`) is not one method. Its steps are modelled one by one, because the number of fresh ids the graph step needs depends on the segments the first step emits.
- **Printing.** All `print` logging is left out, including the snapping message at `builder.py:101-102`.
- **Other parts of the repository.**
  - The FreeCAD executor, the protobuf sketch parser, `main_runner.py` and `builder_kopia.py` are not part of this model.
  - The `DrawingPlan.assembly_map` is never filled and is left out.
  - `_connect_components` does nothing and is left out.
- **Unused planner code.** `Planner._create_straight_item` (`planner.py:117-124`) is never called and is left out. The planners' `catalog` argument is unused.
- **Custom bends.** The factory call for a custom bend fails in the source, so the model stops with a TypeError there. How the factory would use `tangent_placement` is not modelled; only the placement decision is.
- **Length reconciliation tiers.** The tests call an `adjust_plans` that does not exist in the adjuster. Its surplus, shortfall and impossible-build outcomes are stated only as the figures of `ComfortCut.UShapeFigures`.
- **Loader file I/O.** Reading files and listing the catalog directory are left to the caller. `CatalogLoader.LoadAll` receives the `(name, raw spec)` pairs in reading order.
- Adjuster.PlanAdjuster: `adjuster.py:7` imports `BuildPlan` from `pipeline/shared/types.py`, which defines only `BuildPlanItem`. Importing the module, as `main_runner.py` and the adjuster's tests do, therefore raises ImportError. The model is of the class body as if the import succeeded.
- ComfortCut.DistributeShortfall: requires the components to be distinct objects. With aliasing, a later write would overwrite an earlier cut, and that case is not modelled.
- Planning.Planner.Traverse: requires the start node to be a node of the graph and the planner's nodes to be nodes of the graph (`Ready`), as the builder's output guarantees. A start node outside the graph (a networkx error) is not modelled.
- BuildPlanning.BuildPlanner.Traverse: requires the same as `Planning.Planner.Traverse`, for the same reason.
- Topology.TopologyBuilder.BuildGraph: requires the empty graph the constructor leaves, as the single call in `build` has it. A second call on a filled graph is not modelled.
- Topology.Traverse: states some spanning-tree placement through the ghost parents and children. It does not state the breadth-first order of the tree segments, nor which coordinates a point gets when the lengths around a cycle do not close.
- Topology.TopologyBuilder.Translate: leaves out the same as `Topology.Traverse`.
- Centerline.CenterlineBuilder.constructor: drops the `topology`, `catalog`, `adjuster` and injected `factory` arguments of `builder.py:29-36`. The first three are unused by the modelled methods, and the factory is always the source's `ComponentFactory` with its built-in bend catalog (`Factory.CreateBendRecipe`); no other factory can be injected.
- Catalog.ParseComponents: takes the decoded components as a sequence of entries that may repeat a name. JSON decoding keeps only the last value of a repeated name, so an earlier failing duplicate that Python never parses fails here. With distinct names, as every decoded object has, it follows the source.
- Topology.TopologyBuilder.Enrich: the spec name picked at each node is any one of the names on its edges, rather than CPython's set order.

## Findings

| source | as written | input that shows it | evidently intended | confidence | as-written member | corrected member |
|---|---|---|---|---|---|---|
| components_catalog/loader.py:99-102 | `TeeData(build_operation=build_op, **comp_data)` passes `build_operation` a second time whenever the entry declares it | the SMS 25 tee entry of the loader's test catalog, which carries `build_operation` | pass the entry without its `build_operation` key, so the tee or clamp is stored | not executed | Catalog.TeeOrClampWithBuildOperationFails | Catalog.TeeEntryParses |
| tests/plan_adjuster/test_adjuster.py:187-200 | leeways are kept in a dict keyed by component name, so two cappable components with the same name share one entry | two "BEND_90_SMS_25" bends with leeways 15 and 5 and a shortfall of 5: each is cut by 5, 10 in all | each component is cut by its own share, and the cuts sum to the shortfall | not executed | ComfortCut.SameNameCutsTwice | ComfortCut.CutsSumToShortfall |
