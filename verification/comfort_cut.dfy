/**
 * The proportional comfort cut of the plan adjuster's tests: a shortfall in
 * a pipe segment is taken from the tangents of its cappable components, each
 * giving up a share proportional to its comfort leeway, the length its
 * tangent has above its preferred minimum.
 */
module ComfortCut {
  import opened Wrappers
  import opened Catalog
  import opened Vectors

  /** What a component of a segment brings to the cut. */
  datatype Part = Part(name: string, isCappable: bool, currentTangent: real, preferredMinTangent: real)

  /** A component of a segment, and the cut recorded on it. */
  class MockComponent {
    const part: Part
    var cutAmount: real

    constructor(part: Part)
      ensures this.part == part && cutAmount == 0.0
    {
      this.part := part;
      cutAmount := 0.0;
    }
  }

  function Parts(comps: seq<MockComponent>): (r: seq<Part>)
    ensures |r| == |comps| && forall i :: 0 <= i < |comps| ==> r[i] == comps[i].part
  {
    seq(|comps|, i requires 0 <= i < |comps| => comps[i].part)
  }

  /** The comfort leeway: how far the tangent is above its preferred minimum. */
  function Leeway(p: Part): real {
    p.currentTangent - p.preferredMinTangent
  }

  /** The sum of the leeways of the cappable parts. */
  function TotalLeeway(ps: seq<Part>): real {
    if ps == [] then 0.0
    else
      var last := ps[|ps| - 1];
      TotalLeeway(ps[..|ps| - 1]) + (if last.isCappable then Leeway(last) else 0.0)
  }

  predicate AnyCappable(ps: seq<Part>) {
    exists i :: 0 <= i < |ps| && ps[i].isCappable
  }

  /**
   * The cut each part receives, `None` for a part left as it was, with
   * `lee` giving each part's leeway and `total` the leeway to share out:
   * when the shortfall is within the total, every cappable part is cut by
   * the shortfall times its share of the total; the division fails when the
   * total is 0 and there is a cappable part to divide for.
   */
  function Spread(ps: seq<Part>, shortfall: real, total: real, lee: Part -> real): (r: Result<seq<Option<real>>>)
    ensures r.Err? <==> shortfall <= total && total == 0.0 && AnyCappable(ps)
    ensures r.Err? ==> r.error == ZeroDivision
    ensures r.Ok? ==> |r.value| == |ps|
    ensures r.Ok? ==> forall i :: 0 <= i < |ps| ==> (r.value[i].Some? <==> ps[i].isCappable && shortfall <= total)
  {
    if !(shortfall <= total) then Ok(Untouched(|ps|))
    else if total == 0.0 then
      if AnyCappable(ps) then Err(ZeroDivision)
      else Ok(Untouched(|ps|))
    else Ok(Shares(ps, shortfall, total, lee))
  }

  /** `n` parts, none of them cut. */
  function Untouched(n: nat): (r: seq<Option<real>>)
    ensures |r| == n && forall i :: 0 <= i < n ==> r[i] == None
  {
    if n == 0 then [] else Untouched(n - 1) + [None]
  }

  /** Each cappable part's share of the shortfall, `None` for the others. */
  function Shares(ps: seq<Part>, shortfall: real, total: real, lee: Part -> real): (r: seq<Option<real>>)
    requires total != 0.0
    ensures |r| == |ps|
    ensures forall i :: 0 <= i < |ps| ==> r[i] == if ps[i].isCappable then Some(Share(shortfall, lee(ps[i]), total)) else None
  {
    if ps == [] then []
    else
      var last := ps[|ps| - 1];
      Shares(ps[..|ps| - 1], shortfall, total, lee) + [if last.isCappable then Some(Share(shortfall, lee(last), total)) else None]
  }

  /** The distribution the comfort cut makes: each part's own leeway, out of the total leeway. */
  function Distribution(ps: seq<Part>, shortfall: real): (r: Result<seq<Option<real>>>)
    ensures r.Err? <==> shortfall <= TotalLeeway(ps) && TotalLeeway(ps) == 0.0 && AnyCappable(ps)
  {
    Spread(ps, shortfall, TotalLeeway(ps), Leeway)
  }

  /** The part of a shortfall `s` a leeway `l` takes out of a total leeway `t`. */
  function Share(s: real, l: real, t: real): real
    requires t != 0.0
  {
    s * (l / t)
  }

  /** The total of the cuts made. */
  function Cut(cuts: seq<Option<real>>): real {
    if cuts == [] then 0.0
    else Cut(cuts[..|cuts| - 1]) + cuts[|cuts| - 1].GetOr(0.0)
  }

  /** Shares add up as their leeways do, and the whole leeway takes the whole shortfall. */
  lemma Proportion(s: real, a: real, l: real, t: real)
    requires t != 0.0
    ensures Share(s, a, t) + Share(s, l, t) == Share(s, a + l, t)
    ensures Share(s, t, t) == s
  {
    assert t / t == 1.0;
  }

  /** Over the first `k` parts, the cuts add up to the shortfall's share of those parts' leeway. */
  lemma {:induction false} CutPrefix(ps: seq<Part>, shortfall: real, k: int)
    requires 0 <= k <= |ps|
    requires Distribution(ps, shortfall).Ok? && shortfall <= TotalLeeway(ps) && TotalLeeway(ps) != 0.0
    ensures Cut(Distribution(ps, shortfall).value[..k]) == Share(shortfall, TotalLeeway(ps[..k]), TotalLeeway(ps))
  {
    var cuts := Distribution(ps, shortfall).value;
    var t := TotalLeeway(ps);
    if k == 0 {
      assert cuts[..0] == [] && ps[..0] == [];
    } else {
      CutPrefix(ps, shortfall, k - 1);
      assert cuts[..k][..k - 1] == cuts[..k - 1];
      assert ps[..k][..k - 1] == ps[..k - 1];
      var l := if ps[k - 1].isCappable then Leeway(ps[k - 1]) else 0.0;
      assert TotalLeeway(ps[..k]) == TotalLeeway(ps[..k - 1]) + l;
      assert cuts[k - 1].GetOr(0.0) == Share(shortfall, l, t);
      Proportion(shortfall, TotalLeeway(ps[..k - 1]), l, t);
    }
  }

  /** When the shortfall is within the total leeway, the cuts add up to exactly the shortfall. */
  lemma CutsSumToShortfall(ps: seq<Part>, shortfall: real)
    requires shortfall <= TotalLeeway(ps) && TotalLeeway(ps) != 0.0
    ensures Distribution(ps, shortfall).Ok? && Cut(Distribution(ps, shortfall).value) == shortfall
  {
    var cuts := Distribution(ps, shortfall).value;
    CutPrefix(ps, shortfall, |ps|);
    assert cuts[..|ps|] == cuts && ps[..|ps|] == ps;
    Proportion(shortfall, 0.0, 0.0, TotalLeeway(ps));
  }

  lemma ShareWithin(s: real, l: real, t: real)
    requires 0.0 <= s <= t && t != 0.0 && 0.0 <= l
    ensures 0.0 <= Share(s, l, t) <= l
    ensures s == t ==> Share(s, l, t) == l
  {
    assert 0.0 <= l / t;
    assert s * (l / t) <= t * (l / t);
  }

  /**
   * With no tangent below its preferred minimum and a shortfall that is not
   * negative, no cut takes a tangent below its preferred minimum; when the
   * shortfall is the whole leeway, every cut tangent lands exactly on it.
   */
  lemma CutsWithinComfort(ps: seq<Part>, shortfall: real, i: int)
    requires 0 <= i < |ps| && ps[i].isCappable
    requires forall j :: 0 <= j < |ps| ==> ps[j].currentTangent >= ps[j].preferredMinTangent
    requires 0.0 <= shortfall <= TotalLeeway(ps) && TotalLeeway(ps) != 0.0
    ensures var c := Distribution(ps, shortfall).value[i];
      && c.Some? && 0.0 <= c.value
      && ps[i].currentTangent - c.value >= ps[i].preferredMinTangent
      && (shortfall == TotalLeeway(ps) ==> ps[i].currentTangent - c.value == ps[i].preferredMinTangent)
  {
    SharesWithinTotal(ps, shortfall);
    ShareWithin(shortfall, Leeway(ps[i]), TotalLeeway(ps));
  }

  /** Within a total leeway that is not 0, the distribution is the shares of the cappable parts. */
  lemma SharesWithinTotal(ps: seq<Part>, shortfall: real)
    requires shortfall <= TotalLeeway(ps) && TotalLeeway(ps) != 0.0
    ensures Distribution(ps, shortfall) == Ok(Shares(ps, shortfall, TotalLeeway(ps), Leeway))
  {
  }

  /** Parts that cannot be capped are never cut, whatever the shortfall. */
  lemma UncappableUntouched(ps: seq<Part>, shortfall: real, i: int)
    requires 0 <= i < |ps| && !ps[i].isCappable
    ensures Distribution(ps, shortfall).Ok? ==> Distribution(ps, shortfall).value[i] == None
  {
  }

  lemma {:induction false} TotalLeewayAppend(a: seq<Part>, b: seq<Part>)
    ensures TotalLeeway(a + b) == TotalLeeway(a) + TotalLeeway(b)
    decreases |b|
  {
    if b == [] {
      assert a + b == a;
    } else {
      var init := b[..|b| - 1];
      assert (a + b)[..|a + b| - 1] == a + init;
      assert (a + b)[|a + b| - 1] == b[|b| - 1];
      TotalLeewayAppend(a, init);
    }
  }

  /** The leeway of a part that cannot be capped does not enter the total. */
  lemma UncappableNotCounted(ps: seq<Part>, i: int)
    requires 0 <= i < |ps| && !ps[i].isCappable
    ensures TotalLeeway(ps) == TotalLeeway(ps[..i] + ps[i + 1..])
  {
    assert ps == ps[..i] + ([ps[i]] + ps[i + 1..]);
    TotalLeewayAppend(ps[..i], [ps[i]] + ps[i + 1..]);
    assert [ps[i]] + ps[i + 1..] == [ps[i]] + ps[i + 1..];
    TotalLeewayAppend([ps[i]], ps[i + 1..]);
    TotalLeewayAppend(ps[..i], ps[i + 1..]);
    assert TotalLeeway([ps[i]]) == 0.0 by { assert [ps[i]][..0] == []; }
  }

  /**
   * The loop of the second test, on its components: the leeways are first
   * gathered in the dictionary keyed by name, then each cappable component
   * is cut by the shortfall times its name's leeway over the sum of the
   * dictionary's values, and the others keep the cut they had.
   */
  method DistributeShortfall(comps: seq<MockComponent>, shortfall: real) returns (failure: Option<Error>)
    requires forall i, j :: 0 <= i < j < |comps| ==> comps[i] != comps[j]
    modifies set c | c in comps
    ensures var r := DistributionByName(Parts(comps), shortfall);
      && (r.Err? ==> failure == Some(r.error) && forall i :: 0 <= i < |comps| ==> comps[i].cutAmount == old(comps[i].cutAmount))
      && (r.Ok? ==> (failure == None
        && forall i :: 0 <= i < |comps| ==> comps[i].cutAmount == r.value[i].GetOr(old(comps[i].cutAmount))))
  {
    ghost var ps := Parts(comps);
    var leeways := LeewayDict(Parts(comps));
    var total := ValueSum(leeways);
    if shortfall <= total {
      for i := 0 to |comps|
        invariant total == 0.0 ==> forall j :: 0 <= j < i ==> !ps[j].isCappable
        invariant forall j :: 0 <= j < |comps| ==>
          comps[j].cutAmount == (if j < i && ps[j].isCappable then Share(shortfall, Lookup(leeways, ps[j].name), total) else old(comps[j].cutAmount))
      {
        var p := comps[i].part;
        if p.isCappable {
          if total == 0.0 {
            assert AnyCappable(ps) by { assert ps[i].isCappable; }
            return Some(ZeroDivision);
          }
          comps[i].cutAmount := Share(shortfall, Lookup(leeways, p.name), total);
        }
      }
    }
    return None;
  }

  /**
   * The comfort leeways as the second test holds them: a dictionary keyed by
   * component name, in insertion order, where a later component of the
   * same name replaces the value but keeps the place.
   */
  function Upsert(d: seq<(string, real)>, k: string, v: real): (r: seq<(string, real)>)
    ensures Keys(r) == Keys(d) + {k}
    ensures Lookup(r, k) == v && forall n {:trigger Lookup(r, n)} :: n != k ==> Lookup(r, n) == Lookup(d, n)
    ensures |r| == if k in Keys(d) then |d| else |d| + 1
    ensures forall i :: 0 <= i < |d| ==> r[i].0 == d[i].0
  {
    if d == [] then [(k, v)]
    else
      KeysCons(d);
      if d[0].0 == k then KeysCons([(k, v)] + d[1..]); [(k, v)] + d[1..]
      else
        var r := [d[0]] + Upsert(d[1..], k, v);
        KeysCons(r);
        r
  }

  lemma KeysCons(d: seq<(string, real)>)
    requires d != []
    ensures Keys(d) == {d[0].0} + Keys(d[1..])
  {
    assert d == [d[0]] + d[1..];
  }

  function Keys(d: seq<(string, real)>): set<string> {
    set e | e in d :: e.0
  }

  function Lookup(d: seq<(string, real)>, k: string): real {
    if d == [] then 0.0
    else if d[0].0 == k then d[0].1
    else Lookup(d[1..], k)
  }

  /** `sum(d.values())`. */
  function ValueSum(d: seq<(string, real)>): real {
    if d == [] then 0.0 else d[0].1 + ValueSum(d[1..])
  }

  /** `{c.name: leeway(c) for c in cappable_components}`. */
  function LeewayDict(ps: seq<Part>): seq<(string, real)> {
    if ps == [] then []
    else
      var last := ps[|ps| - 1];
      var d := LeewayDict(ps[..|ps| - 1]);
      if last.isCappable then Upsert(d, last.name, Leeway(last)) else d
  }

  /**
   * The distribution as the test writes it, with each component's leeway
   * and the total taken from the name-keyed dictionary.
   */
  function DistributionByName(ps: seq<Part>, shortfall: real): Result<seq<Option<real>>> {
    var d := LeewayDict(ps);
    Spread(ps, shortfall, ValueSum(d), (p: Part) => Lookup(d, p.name))
  }

  /**
   * Two cappable components of the same name, with leeways 15 and 5: the
   * dictionary keeps only the 5, so a shortfall of 5 is cut twice over,
   * where the per-component rule cuts 3.75 and 1.25.
   */
  lemma SameNameCutsTwice()
    ensures var ps := [Part("BEND_90_SMS_25", true, 27.5, 12.5), Part("BEND_90_SMS_25", true, 20.0, 15.0)];
      && DistributionByName(ps, 5.0) == Ok([Some(5.0), Some(5.0)])
      && Cut(DistributionByName(ps, 5.0).value) == 10.0
      && Distribution(ps, 5.0) == Ok([Some(3.75), Some(1.25)])
      && Cut(Distribution(ps, 5.0).value) == 5.0
  {
    var ps := [Part("BEND_90_SMS_25", true, 27.5, 12.5), Part("BEND_90_SMS_25", true, 20.0, 15.0)];
    assert ps[..1] == [ps[0]] && ps[..1][..0] == [];
    assert TotalLeeway(ps[..1]) == 15.0;
    assert TotalLeeway(ps) == 20.0;
    assert Share(5.0, 15.0, 20.0) == 3.75 && Share(5.0, 5.0, 20.0) == 1.25;
    var r := Distribution(ps, 5.0).value;
    assert r == [Some(3.75), Some(1.25)];
    assert r[..1] == [r[0]] && r[..1][..0] == [];
    assert Cut(r[..1]) == 3.75;
    SameNameCutsEach(ps[0], ps[1], 5.0);
  }

  /**
   * Two cappable components of one name, the later with a leeway that is not
   * 0: the dictionary keeps only the later leeway, as value and as total, so
   * any shortfall within it is cut in full from each of the two, twice
   * over in all.
   */
  lemma SameNameCutsEach(p: Part, q: Part, shortfall: real)
    requires p.isCappable && q.isCappable && p.name == q.name
    requires Leeway(q) != 0.0 && shortfall <= Leeway(q)
    ensures DistributionByName([p, q], shortfall) == Ok([Some(shortfall), Some(shortfall)])
    ensures Cut(DistributionByName([p, q], shortfall).value) == 2.0 * shortfall
  {
    var ps := [p, q];
    assert ps[..1] == [p] && ps[..1][..0] == [];
    assert LeewayDict([p]) == [(p.name, Leeway(p))];
    var d := LeewayDict(ps);
    assert d == Upsert([(p.name, Leeway(p))], q.name, Leeway(q));
    assert d == [(q.name, Leeway(q))];
    assert ValueSum(d) == Leeway(q);
    Proportion(shortfall, 0.0, Leeway(q), Leeway(q));
    var r := DistributionByName(ps, shortfall).value;
    assert r == [Some(shortfall), Some(shortfall)];
    assert r[..1] == [r[0]] && r[..1][..0] == [];
    assert Cut(r[..1]) == shortfall;
  }

  /** Cappable parts that all carry different names. */
  predicate NamesDistinct(ps: seq<Part>) {
    forall i, j :: 0 <= i < j < |ps| && ps[i].isCappable && ps[j].isCappable ==> ps[i].name != ps[j].name
  }

  lemma {:induction false} UpsertNew(d: seq<(string, real)>, k: string, v: real)
    requires k !in Keys(d)
    ensures Upsert(d, k, v) == d + [(k, v)]
  {
    if d != [] {
      assert d[0] in d;
      assert Keys(d[1..]) <= Keys(d);
      UpsertNew(d[1..], k, v);
    }
  }

  lemma {:induction false} AppendValues(d: seq<(string, real)>, k: string, v: real)
    ensures ValueSum(d + [(k, v)]) == ValueSum(d) + v
    ensures forall n :: Lookup(d + [(k, v)], n) == if n in Keys(d) then Lookup(d, n) else if n == k then v else 0.0
  {
    if d != [] {
      assert (d + [(k, v)])[1..] == d[1..] + [(k, v)];
      assert Keys(d) == {d[0].0} + Keys(d[1..]);
      AppendValues(d[1..], k, v);
    }
  }

  /**
   * With different names, the dictionary holds every cappable part's own
   * leeway, and its values add up to the total leeway.
   */
  lemma {:induction false} LeewayDictDistinct(ps: seq<Part>)
    requires NamesDistinct(ps)
    ensures ValueSum(LeewayDict(ps)) == TotalLeeway(ps)
    ensures Keys(LeewayDict(ps)) == set i | 0 <= i < |ps| && ps[i].isCappable :: ps[i].name
    ensures forall i :: 0 <= i < |ps| && ps[i].isCappable ==> Lookup(LeewayDict(ps), ps[i].name) == Leeway(ps[i])
  {
    if ps != [] {
      var init := ps[..|ps| - 1];
      var last := ps[|ps| - 1];
      LeewayDictDistinct(init);
      var d := LeewayDict(init);
      assert forall i :: 0 <= i < |init| ==> init[i] == ps[i];
      if last.isCappable {
        assert last.name !in Keys(d);
        UpsertNew(d, last.name, Leeway(last));
        AppendValues(d, last.name, Leeway(last));
      }
    }
  }

  /** With different names the dictionary form gives the per-component distribution. */
  lemma ByNameAgreesWhenNamesDistinct(ps: seq<Part>, shortfall: real)
    requires NamesDistinct(ps)
    ensures DistributionByName(ps, shortfall) == Distribution(ps, shortfall)
  {
    LeewayDictDistinct(ps);
    var d := LeewayDict(ps);
    var t := TotalLeeway(ps);
    assert ValueSum(d) == t;
    if shortfall <= t && t != 0.0 {
      var byName := Shares(ps, shortfall, t, (p: Part) => Lookup(d, p.name));
      var own := Shares(ps, shortfall, t, Leeway);
      assert forall i :: 0 <= i < |ps| ==> byName[i] == own[i];
      assert byName == own;
    }
  }

  /**
   * The first comfort-cut test: two bends with leeways 10 and 20 share a
   * shortfall of 30 as 10 and 20, and both end at their preferred minimum.
   */
  lemma TwoBendsScenario()
    ensures var ps := [Part("Bend_A", true, 20.0, 10.0), Part("Bend_B", true, 30.0, 10.0)];
      var r := Distribution(ps, 30.0);
      && r == Ok([Some(10.0), Some(20.0)])
      && forall i :: 0 <= i < 2 ==> ps[i].currentTangent - r.value[i].value == ps[i].preferredMinTangent
  {
    var ps := [Part("Bend_A", true, 20.0, 10.0), Part("Bend_B", true, 30.0, 10.0)];
    assert ps[..1] == [ps[0]] && ps[..1][..0] == [];
    assert TotalLeeway(ps[..1]) == 10.0;
    assert TotalLeeway(ps) == 30.0;
    assert Distribution(ps, 30.0).value == [Some(10.0), Some(20.0)];
  }

  /**
   * The second comfort-cut test: bend, reducer and clamp with leeways 15,
   * none and 5 share a shortfall of 20 as 15, nothing and 5, in either form,
   * and the cuts add up to the shortfall.
   */
  lemma ChainScenario()
    ensures var ps := [Part("BEND_90_SMS_25", true, 27.5, 12.5), Part("REDUCER_25_38", false, 0.0, 0.0),
        Part("SMS_CLAMP_38", true, 20.0, 15.0)];
      && Distribution(ps, 20.0) == Ok([Some(15.0), None, Some(5.0)])
      && DistributionByName(ps, 20.0) == Distribution(ps, 20.0)
      && Cut(Distribution(ps, 20.0).value) == 20.0
  {
    var ps := [Part("BEND_90_SMS_25", true, 27.5, 12.5), Part("REDUCER_25_38", false, 0.0, 0.0),
      Part("SMS_CLAMP_38", true, 20.0, 15.0)];
    assert ps[..2] == [ps[0], ps[1]] && ps[..2][..1] == [ps[0]] && ps[..1][..0] == [];
    assert TotalLeeway(ps[..1]) == 15.0;
    assert TotalLeeway(ps[..2]) == 15.0;
    assert TotalLeeway(ps) == 20.0;
    assert Distribution(ps, 20.0).value == [Some(15.0), None, Some(5.0)];
    ByNameAgreesWhenNamesDistinct(ps, 20.0);
    CutsSumToShortfall(ps, 20.0);
  }

  /**
   * The U-shaped pipe of the adjuster tests, with the SMS 25 figures: a 90
   * degree bend of centre-to-end 51 on a radius of 38 has a tangent of 13.
   * A 100 long leg leaves a 49 straight; a 40 long leg is 11 short, within
   * that tangent; a 1 long leg is 50 short, more than it.
   */
  lemma UShapeFigures(m: MathOracle)
    ensures var t := Tangent(BendData(JStr("BEND"), JNum(51.0), JNull, JNum(38.0)), m);
      && t == Ok(13.0)
      && Max0(100.0 - 51.0) == 49.0
      && Max0(51.0 - 40.0) == 11.0 <= t.value
      && Max0(51.0 - 1.0) == 50.0 > t.value
  {
  }
}
