/**
 * The plan adjuster as it stands: it turns each build plan into an explicit
 * wireframe, one line between each pair of consecutive components' nodes.
 */
module Adjuster {
  import opened Wrappers
  import opened NodeTypes
  import opened Primitives
  import opened BuildPlanning
  import Walks
  import Centerline

  /** The node ids of the COMPONENT items of a build plan, in plan order. */
  function ComponentIds(plan: seq<BuildItem>): (r: seq<string>)
    ensures |r| <= |plan|
    ensures forall id :: id in r <==> exists i :: 0 <= i < |plan| && plan[i].Component? && plan[i].nodeId == id
  {
    if plan == [] then []
    else
      var init := plan[..|plan| - 1];
      var last := plan[|plan| - 1];
      var r := ComponentIds(init) + (if last.Component? then [last.nodeId] else []);
      assert forall i :: 0 <= i < |init| ==> init[i] == plan[i];
      r
  }

  /**
   * The lines between the first `k + 1` ids, pair by pair, or the key
   * error of the first pair whose node the lookup does not know.
   */
  function ExplicitLines(byId: map<string, NodeInfo>, ids: seq<string>, k: int): Result<seq<Primitive>>
    requires 0 <= k < |ids|
  {
    if k == 0 then Ok([])
    else match ExplicitLines(byId, ids, k - 1)
      case Err(e) => Err(e)
      case Ok(lines) =>
        if ids[k - 1] !in byId || ids[k] !in byId then Err(KeyError)
        else Ok(lines + [Line(byId[ids[k - 1]].coords, byId[ids[k]].coords)])
  }

  /**
   * The lines succeed exactly when every id met is known, and then there is
   * one line per pair, line `i` from node `i` to node `i + 1`, each starting
   * where the one before ends.
   */
  lemma {:induction false} ExplicitLinesSpec(byId: map<string, NodeInfo>, ids: seq<string>, k: int)
    requires 0 <= k < |ids|
    ensures var r := ExplicitLines(byId, ids, k);
      && (r.Ok? <==> k == 0 || forall j :: 0 <= j <= k ==> ids[j] in byId)
      && (r.Err? ==> r.error == KeyError)
      && (r.Ok? ==>
        && |r.value| == k
        && (forall i :: 0 <= i < k ==> r.value[i] == Line(byId[ids[i]].coords, byId[ids[i + 1]].coords))
        && Contiguous(r.value))
  {
    if k > 0 {
      ExplicitLinesSpec(byId, ids, k - 1);
      var before := ExplicitLines(byId, ids, k - 1);
      if before.Err? {
        assert k - 1 != 0;
        var j :| 0 <= j <= k - 1 && ids[j] !in byId;
        assert !(forall j :: 0 <= j <= k ==> ids[j] in byId);
      }
    }
  }

  /**
   * `_create_explicit_plan_from_semantic`: no lines for a plan with fewer
   * than two components, else the lines between consecutive components.
   */
  function ExplicitPlan(byId: map<string, NodeInfo>, plan: seq<BuildItem>): Result<seq<Primitive>> {
    var ids := ComponentIds(plan);
    if |ids| < 2 then Ok([]) else ExplicitLines(byId, ids, |ids| - 1)
  }

  /**
   * A plan's wireframe fails exactly when it has two components or more and
   * one of their nodes is unknown; otherwise it has one line fewer than the
   * plan has components, joined end to start.
   */
  lemma ExplicitPlanSpec(byId: map<string, NodeInfo>, plan: seq<BuildItem>)
    ensures var ids := ComponentIds(plan);
      var r := ExplicitPlan(byId, plan);
      && (r.Err? <==> |ids| >= 2 && exists id :: id in ids && id !in byId)
      && (r.Ok? ==> |r.value| == if |ids| < 2 then 0 else |ids| - 1)
      && (r.Ok? ==> Contiguous(r.value))
  {
    var ids := ComponentIds(plan);
    if |ids| >= 2 {
      ExplicitLinesSpec(byId, ids, |ids| - 1);
      if ExplicitLines(byId, ids, |ids| - 1).Err? {
        var j :| 0 <= j <= |ids| - 1 && ids[j] !in byId;
        assert ids[j] in ids;
      }
    }
  }

  /**
   * Where every node is known, the adjuster's wireframe is the centerline
   * builder's: the two differ only in that the builder skips a pair with an
   * unknown node where the adjuster fails.
   */
  lemma {:induction false} ExplicitLinesAgreeWithWire(byId: map<string, NodeInfo>, ids: seq<string>, k: int)
    requires 0 <= k < |ids|
    requires forall id :: id in ids ==> id in byId
    ensures ExplicitLines(byId, ids, k) == Ok(Centerline.Wire(byId, ids, k))
  {
    if k > 0 {
      ExplicitLinesAgreeWithWire(byId, ids, k - 1);
    }
  }

  /** `create_explicit_plans`: one wireframe per build plan, in order, or the first error raised. */
  function ExplicitPlans(byId: map<string, NodeInfo>, plans: seq<seq<BuildItem>>): (r: Result<seq<seq<Primitive>>>)
    ensures r.Ok? ==> |r.value| == |plans|
    ensures r.Ok? ==> forall k :: 0 <= k < |plans| ==> ExplicitPlan(byId, plans[k]) == Ok(r.value[k])
    ensures r.Err? ==> exists k :: 0 <= k < |plans| && ExplicitPlan(byId, plans[k]).Err?
  {
    if plans == [] then Ok([])
    else
      var init := plans[..|plans| - 1];
      var last := plans[|plans| - 1];
      assert forall k :: 0 <= k < |init| ==> init[k] == plans[k];
      match ExplicitPlans(byId, init)
      case Err(e) => Err(e)
      case Ok(done) =>
        match ExplicitPlan(byId, last)
        case Err(e) => Err(e)
        case Ok(lines) => Ok(done + [lines])
  }

  /** The plan adjuster: the build plans and the node lookup. */
  class PlanAdjuster {
    const semanticPlans: seq<seq<BuildItem>>
    const nodesById: map<string, NodeInfo>

    constructor(semanticPlans: seq<seq<BuildItem>>, nodes: seq<NodeInfo>)
      ensures this.semanticPlans == semanticPlans && nodesById == Walks.ById(nodes)
    {
      this.semanticPlans := semanticPlans;
      this.nodesById := Walks.ById(nodes);
    }

    /** `_create_explicit_plan_from_semantic`, on this adjuster's node lookup. */
    method ExplicitPlanOf(plan: seq<BuildItem>) returns (r: Result<seq<Primitive>>)
      ensures r == ExplicitPlan(nodesById, plan)
    {
      var ids: seq<string> := [];
      for i := 0 to |plan|
        invariant ids == ComponentIds(plan[..i])
      {
        assert plan[..i + 1][..i] == plan[..i];
        if plan[i].Component? {
          ids := ids + [plan[i].nodeId];
        }
      }
      assert plan[..|plan|] == plan;
      if |ids| < 2 {
        return Ok([]);
      }
      var lines: seq<Primitive> := [];
      for i := 0 to |ids| - 1
        invariant ExplicitLines(nodesById, ids, i) == Ok(lines)
      {
        if ids[i] !in nodesById || ids[i + 1] !in nodesById {
          ExplicitLinesFailed(nodesById, ids, i + 1, |ids| - 1);
          return Err(KeyError);
        }
        lines := lines + [Line(nodesById[ids[i]].coords, nodesById[ids[i + 1]].coords)];
      }
      return Ok(lines);
    }

    /** `create_explicit_plans`: the wireframes of all build plans, in order. */
    method CreateExplicitPlans() returns (r: Result<seq<seq<Primitive>>>)
      ensures r == ExplicitPlans(nodesById, semanticPlans)
    {
      var all: seq<seq<Primitive>> := [];
      for k := 0 to |semanticPlans|
        invariant ExplicitPlans(nodesById, semanticPlans[..k]) == Ok(all)
      {
        assert semanticPlans[..k + 1][..k] == semanticPlans[..k];
        var one := ExplicitPlanOf(semanticPlans[k]);
        if one.Err? {
          ExplicitPlansFailed(nodesById, semanticPlans, k + 1);
          return Err(one.error);
        }
        all := all + [one.value];
      }
      assert semanticPlans[..|semanticPlans|] == semanticPlans;
      return Ok(all);
    }
  }

  /** Once a pair fails, the lines of any longer prefix fail with the same error. */
  lemma {:induction false} ExplicitLinesFailed(byId: map<string, NodeInfo>, ids: seq<string>, i: int, k: int)
    requires 0 <= i <= k < |ids|
    requires ExplicitLines(byId, ids, i).Err?
    ensures ExplicitLines(byId, ids, k) == ExplicitLines(byId, ids, i)
    decreases k
  {
    if k > i {
      ExplicitLinesFailed(byId, ids, i, k - 1);
    }
  }

  /** Once a plan fails, the plans after it are not converted and the error stands. */
  lemma {:induction false} ExplicitPlansFailed(byId: map<string, NodeInfo>, plans: seq<seq<BuildItem>>, k: int)
    requires 0 <= k <= |plans|
    requires ExplicitPlans(byId, plans[..k]).Err?
    ensures ExplicitPlans(byId, plans) == ExplicitPlans(byId, plans[..k])
    decreases |plans| - k
  {
    if k < |plans| {
      assert plans[..k + 1][..k] == plans[..k];
      ExplicitPlansFailed(byId, plans, k + 1);
    } else {
      assert plans[..k] == plans;
    }
  }
}
