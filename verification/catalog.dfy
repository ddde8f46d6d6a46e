/**
 * The component catalog: one `PipeSpecData` per cleaned spec name, each
 * holding the bend radius of its pipe dimension and a map of component
 * entries.  JSON values are modelled as numbers, strings or null; reading
 * files and listing the catalog directory are left to the caller, which hands
 * over the `(spec name, raw spec)` pairs in the order they were read.
 */
module Catalog {
  import opened Wrappers
  import opened Text
  import opened Vectors

  /** A JSON scalar; Python's None is JSON null. */
  datatype Json = JNum(num: real) | JStr(str: string) | JNull

  /** A JSON object, key by key. */
  type JsonObject = map<string, Json>

  /** `d.get(key)`: null when the key is absent. */
  function Get(d: JsonObject, key: string): Json {
    if key in d then d[key] else JNull
  }

  datatype ComponentData =
    | BendData(buildOperation: Json, centerToEnd: Json, bDimension: Json, bendRadius: Json)
    | TeeData(buildOperation: Json, equalCteRun: Json, equalCteBranch: Json)
    | EndpointData(buildOperation: Json, tangent: Json, minTangent: Json, sketchFile: Json)

  datatype PipeSpecData = PipeSpecData(
    name: string,
    diameter: Json,
    thickness: Json,
    bendRadius: Json,
    components: map<string, ComponentData>)

  /** One spec of a catalog file: its scalar fields and its ordered `components` object, if present. */
  datatype RawSpec = RawSpec(fields: JsonObject, components: Option<seq<(string, JsonObject)>>)

  function Max0(x: real): (r: real)
    ensures r >= 0.0 && r >= x && (r == 0.0 || r == x)
  {
    if x > 0.0 then x else 0.0
  }

  /**
   * `BendData.tangent`.  A set `center_to_end` decides (a 90 degree bend);
   * otherwise a set `b_dimension` gives the 45 degree formula
   * `b * sqrt(2) - r / tan(radians(45) / 2)`; otherwise the tangent is 0.
   * Arithmetic on a string is Python's TypeError.
   */
  function Tangent(b: ComponentData, m: MathOracle): (r: Result<real>)
    requires b.BendData?
    ensures r.Ok? ==> r.value >= 0.0
  {
    if b.centerToEnd != JNull then
      if b.centerToEnd.JNum? && b.bendRadius.JNum? then Ok(Max0(b.centerToEnd.num - b.bendRadius.num))
      else Err(TypeError)
    else if b.bDimension != JNull then
      if !b.bDimension.JNum? || !b.bendRadius.JNum? then Err(TypeError)
      else
        var cte45 := b.bDimension.num * m.sqrt(2.0);
        var t := m.tan(Radians(m, 45.0) / 2.0);
        if t == 0.0 then Err(ZeroDivision)
        else Ok(Max0(cte45 - b.bendRadius.num / t))
    else Ok(0.0)
  }

  /** With `center_to_end` set, the tangent is `max(0, center_to_end - bend_radius)` whatever `b_dimension` holds. */
  lemma TangentOfNinetyDegreeBend(op: Json, cte: real, bDim: Json, radius: real, m: MathOracle)
    ensures var t := Tangent(BendData(op, JNum(cte), bDim, JNum(radius)), m);
      t.Ok? && t.value >= cte - radius && t.value >= 0.0 && (t.value == 0.0 || t.value == cte - radius)
      && (cte <= radius ==> t.value == 0.0)
  {
  }

  /** With neither dimension set, the tangent is 0. */
  lemma TangentWithoutDimensions(op: Json, radius: Json, m: MathOracle)
    ensures Tangent(BendData(op, JNull, JNull, radius), m) == Ok(0.0)
  {
  }

  /** The keyword arguments a dataclass accepts, and those it cannot do without. */
  const TeeFields: set<string> := {"equal_cte_run", "equal_cte_branch"}
  const EndpointFields: set<string> := {"tangent", "min_tangent", "sketch_file"}
  const EndpointRequired: set<string> := {"tangent", "min_tangent"}

  /**
   * A call `Data(build_operation=op, **d)` with `fields` the dataclass's own
   * fields: Python raises TypeError for a keyword given twice, for an unknown
   * keyword and for a missing required one.
   */
  predicate KeywordCallOk(d: JsonObject, fields: set<string>, required: set<string>) {
    "build_operation" !in d && d.Keys <= fields && required <= d.Keys
  }

  /** The `build_operation` a component entry declares, `'unknown'` when it declares none. */
  function BuildOperation(d: JsonObject): Json {
    if "build_operation" in d then d["build_operation"] else JStr("unknown")
  }

  /** The name selects a dataclass: "BEND" first, then "TEE", then "SMS_CLAMP". */
  predicate Dispatched(compName: string) {
    Contains(compName, "BEND") || Contains(compName, "TEE") || Contains(compName, "SMS_CLAMP")
  }

  /**
   * The dispatch of `_parse_spec` for one entry, given the keyword arguments
   * `kwargs` that are spread into the dataclass call next to
   * `build_operation=op`.  An entry no dataclass claims is not stored
   * (`Ok(None)`).
   */
  function Dispatch(compName: string, op: Json, kwargs: JsonObject, bendRadius: Json): (r: Result<Option<ComponentData>>)
    ensures r.Ok? && r.value.Some? ==> (r.value.value.BendData? <==> Contains(compName, "BEND"))
    ensures r.Ok? && r.value.Some? ==> r.value.value.buildOperation == op
    ensures r.Ok? && r.value.Some? && r.value.value.BendData? ==> r.value.value.bendRadius == bendRadius
    ensures r == Ok(None) <==> !Dispatched(compName)
  {
    if Contains(compName, "BEND") then
      Ok(Some(BendData(op, Get(kwargs, "center_to_end"), Get(kwargs, "b_dimension"), bendRadius)))
    else if Contains(compName, "TEE") then
      if KeywordCallOk(kwargs, TeeFields, TeeFields) then
        Ok(Some(TeeData(op, kwargs["equal_cte_run"], kwargs["equal_cte_branch"])))
      else Err(TypeError)
    else if Contains(compName, "SMS_CLAMP") then
      if KeywordCallOk(kwargs, EndpointFields, EndpointRequired) then
        Ok(Some(EndpointData(op, kwargs["tangent"], kwargs["min_tangent"], Get(kwargs, "sketch_file"))))
      else Err(TypeError)
    else Ok(None)
  }

  /** One component entry as `_parse_spec` is written: the whole entry is spread as keyword arguments. */
  function ParseComponentAsWritten(compName: string, d: JsonObject, bendRadius: Json): Result<Option<ComponentData>> {
    Dispatch(compName, BuildOperation(d), d, bendRadius)
  }

  /** As written, a tee or clamp entry that declares `build_operation` can never be parsed. */
  lemma TeeOrClampWithBuildOperationFails(compName: string, d: JsonObject, bendRadius: Json)
    requires !Contains(compName, "BEND")
    requires Contains(compName, "TEE") || Contains(compName, "SMS_CLAMP")
    requires "build_operation" in d
    ensures ParseComponentAsWritten(compName, d, bendRadius) == Err(TypeError)
  {
  }

  /**
   * One component entry with `build_operation` passed once: the entry is
   * spread without its `build_operation` key.
   */
  function ParseComponent(compName: string, d: JsonObject, bendRadius: Json): Result<Option<ComponentData>> {
    Dispatch(compName, BuildOperation(d), d - {"build_operation"}, bendRadius)
  }

  /**
   * A tee entry parses exactly when its keys other than `build_operation`
   * are the two tee dimensions, and then keeps them and its build operation.
   */
  lemma TeeEntryParses(compName: string, d: JsonObject, bendRadius: Json)
    requires !Contains(compName, "BEND") && Contains(compName, "TEE")
    ensures ParseComponent(compName, d, bendRadius).Ok? <==> d.Keys - {"build_operation"} == TeeFields
    ensures ParseComponent(compName, d, bendRadius).Ok? ==>
      ParseComponent(compName, d, bendRadius) == Ok(Some(TeeData(BuildOperation(d), d["equal_cte_run"], d["equal_cte_branch"])))
  {
    var kw := d - {"build_operation"};
    assert "build_operation" !in kw;
    assert kw.Keys == d.Keys - {"build_operation"};
  }

  /** The tee entry of the SMS_25 test catalog (tests/components_catalog/test_loader.py:29). */
  function SampleTeeEntry(): JsonObject {
    map["equal_cte_run" := JNum(51.0), "equal_cte_branch" := JNum(51.0), "build_operation" := JStr("build_tee_solid")]
  }

  /** That entry is rejected as written and parsed once `build_operation` is passed only once. */
  lemma SampleTeeEntryRejectedAsWritten()
    ensures ParseComponentAsWritten("TEE", SampleTeeEntry(), JNum(38.0)) == Err(TypeError)
    ensures ParseComponent("TEE", SampleTeeEntry(), JNum(38.0))
         == Ok(Some(TeeData(JStr("build_tee_solid"), JNum(51.0), JNum(51.0))))
  {
    assert Contains("TEE", "TEE") by { assert OccursAt("TEE", "TEE", 0); }
    assert !Contains("TEE", "BEND");
    TeeEntryParses("TEE", SampleTeeEntry(), JNum(38.0));
    assert SampleTeeEntry().Keys - {"build_operation"} == TeeFields;
  }

  /**
   * Filling a dictionary from `(name, data)` entries in order, as both loops
   * of the loader do: `parse` turns an entry, under its key `key(name)`, into
   * a value to store (`Some`), nothing to store (`None`) or a failure that
   * aborts the whole fill.
   */
  function StoreAll<T, V>(entries: seq<(string, T)>, key: string -> string, parse: (string, T) -> Result<Option<V>>)
    : Result<map<string, V>>
  {
    if entries == [] then Ok(map[])
    else
      match StoreAll(entries[..|entries| - 1], key, parse)
      case Err(e) => Err(e)
      case Ok(m) =>
        var k := key(entries[|entries| - 1].0);
        match parse(k, entries[|entries| - 1].1)
        case Err(e) => Err(e)
        case Ok(None) => Ok(m)
        case Ok(Some(v)) => Ok(m[k := v])
  }

  /** A failure while filling from a prefix of the entries is the failure of the whole fill. */
  lemma {:induction false} StoreAllPrefixErr<T, V>(entries: seq<(string, T)>, key: string -> string,
                                                  parse: (string, T) -> Result<Option<V>>, i: nat)
    requires i <= |entries|
    requires StoreAll(entries[..i], key, parse).Err?
    ensures StoreAll(entries, key, parse) == StoreAll(entries[..i], key, parse)
    decreases |entries| - i
  {
    if i < |entries| {
      assert entries[..i + 1][..i] == entries[..i];
      StoreAllPrefixErr(entries, key, parse, i + 1);
    } else {
      assert entries[..i] == entries;
    }
  }

  /** One more entry, after the ones before it filled the dictionary, extends it or fails the whole fill. */
  lemma StoreAllStep<T, V>(entries: seq<(string, T)>, key: string -> string,
                           parse: (string, T) -> Result<Option<V>>, i: int)
    requires 0 <= i < |entries| && StoreAll(entries[..i], key, parse).Ok?
    ensures parse(key(entries[i].0), entries[i].1).Err? ==>
      StoreAll(entries, key, parse) == Err(parse(key(entries[i].0), entries[i].1).error)
    ensures parse(key(entries[i].0), entries[i].1) == Ok(None) ==>
      StoreAll(entries[..i + 1], key, parse) == StoreAll(entries[..i], key, parse)
    ensures parse(key(entries[i].0), entries[i].1).Ok? && parse(key(entries[i].0), entries[i].1).value.Some? ==>
      StoreAll(entries[..i + 1], key, parse) ==
        Ok(StoreAll(entries[..i], key, parse).value[key(entries[i].0) := parse(key(entries[i].0), entries[i].1).value.value])
  {
    assert entries[..i + 1][..i] == entries[..i];
    if parse(key(entries[i].0), entries[i].1).Err? {
      StoreAllPrefixErr(entries, key, parse, i + 1);
    }
  }

  /**
   * After a successful fill, a key is present exactly when some entry under
   * that key produced a value, and every stored value was produced by an
   * entry under its key.
   */
  lemma {:induction false} StoreAllContents<T, V>(entries: seq<(string, T)>, key: string -> string,
                                                 parse: (string, T) -> Result<Option<V>>)
    requires StoreAll(entries, key, parse).Ok?
    ensures forall i :: 0 <= i < |entries| ==> parse(key(entries[i].0), entries[i].1).Ok?
    ensures forall k :: k in StoreAll(entries, key, parse).value <==>
      exists i :: 0 <= i < |entries| && key(entries[i].0) == k && parse(k, entries[i].1).value.Some?
    ensures forall k :: k in StoreAll(entries, key, parse).value ==>
      exists i :: 0 <= i < |entries| && key(entries[i].0) == k && parse(k, entries[i].1) == Ok(Some(StoreAll(entries, key, parse).value[k]))
  {
    if entries != [] {
      var init := entries[..|entries| - 1];
      var last := |entries| - 1;
      StoreAllContents(init, key, parse);
      var m := StoreAll(entries, key, parse).value;
      forall i | 0 <= i < |entries| ensures parse(key(entries[i].0), entries[i].1).Ok? {
        if i < last {
          assert init[i] == entries[i];
        }
      }
      forall k ensures k in m <==> exists i :: 0 <= i < |entries| && key(entries[i].0) == k && parse(k, entries[i].1).value.Some? {
        if k in m && k != key(entries[last].0) {
          var i :| 0 <= i < |init| && key(init[i].0) == k && parse(k, init[i].1).value.Some?;
          assert entries[i] == init[i];
        }
        if k in m && k == key(entries[last].0) && !parse(k, entries[last].1).value.Some? {
          var i :| 0 <= i < |init| && key(init[i].0) == k && parse(k, init[i].1).value.Some?;
          assert entries[i] == init[i];
        }
        if exists i :: 0 <= i < |entries| && key(entries[i].0) == k && parse(k, entries[i].1).value.Some? {
          var i :| 0 <= i < |entries| && key(entries[i].0) == k && parse(k, entries[i].1).value.Some?;
          if i < last {
            assert init[i] == entries[i];
          }
        }
      }
      forall k | k in m
        ensures exists i :: 0 <= i < |entries| && key(entries[i].0) == k && parse(k, entries[i].1) == Ok(Some(m[k]))
      {
        if k == key(entries[last].0) && parse(k, entries[last].1).value.Some? {
          assert parse(k, entries[last].1) == Ok(Some(m[k]));
        } else {
          var i :| 0 <= i < |init| && key(init[i].0) == k && parse(k, init[i].1) == Ok(Some(m[k]));
          assert entries[i] == init[i];
        }
      }
    }
  }

  /** For entries sharing a key, the value of the last one that produced a value is the one kept. */
  lemma {:induction false} StoreAllLastWins<T, V>(entries: seq<(string, T)>, key: string -> string,
                                                 parse: (string, T) -> Result<Option<V>>, i: int)
    requires StoreAll(entries, key, parse).Ok? && 0 <= i < |entries|
    requires forall j :: i < j < |entries| ==> key(entries[j].0) != key(entries[i].0)
    ensures parse(key(entries[i].0), entries[i].1).Ok?
    ensures parse(key(entries[i].0), entries[i].1).value.Some? ==>
      key(entries[i].0) in StoreAll(entries, key, parse).value &&
      Some(StoreAll(entries, key, parse).value[key(entries[i].0)]) == parse(key(entries[i].0), entries[i].1).value
  {
    var init := entries[..|entries| - 1];
    if i < |entries| - 1 {
      assert init[i] == entries[i];
      StoreAllLastWins(init, key, parse, i);
    }
  }

  /** `i` is the last entry that carries its name. */
  predicate LastOfName<T>(entries: seq<(string, T)>, i: int) {
    0 <= i < |entries| && forall j :: i < j < |entries| ==> entries[j].0 != entries[i].0
  }

  /**
   * The components of one spec, parsed entry by entry in order under their
   * own names, each as `_parse_spec` is written.
   */
  function ParseComponents(comps: seq<(string, JsonObject)>, bendRadius: Json): Result<map<string, ComponentData>> {
    StoreAll(comps, n => n, (n, d) => ParseComponentAsWritten(n, d, bendRadius))
  }

  /**
   * The stored components are exactly the entries whose name a dataclass
   * claims, each parsed from an entry of that name, and every bend inherits
   * the bend radius of its spec.
   */
  lemma ParseComponentsContents(comps: seq<(string, JsonObject)>, bendRadius: Json)
    requires ParseComponents(comps, bendRadius).Ok?
    ensures forall n :: n in ParseComponents(comps, bendRadius).value <==>
      Dispatched(n) && exists i :: 0 <= i < |comps| && comps[i].0 == n
    ensures forall n :: n in ParseComponents(comps, bendRadius).value && ParseComponents(comps, bendRadius).value[n].BendData? ==>
      ParseComponents(comps, bendRadius).value[n].bendRadius == bendRadius
  {
    var key := (n: string) => n;
    var parse := (n, d) => ParseComponentAsWritten(n, d, bendRadius);
    StoreAllContents(comps, key, parse);
    var m := ParseComponents(comps, bendRadius).value;
    forall n ensures n in m <==> Dispatched(n) && exists i :: 0 <= i < |comps| && comps[i].0 == n {
      if Dispatched(n) && exists i :: 0 <= i < |comps| && comps[i].0 == n {
        var i :| 0 <= i < |comps| && comps[i].0 == n;
        assert key(comps[i].0) == n && parse(n, comps[i].1).value.Some?;
      }
    }
  }

  /** For a component name given several times, the last entry is the one stored. */
  lemma ParseComponentsLastWins(comps: seq<(string, JsonObject)>, bendRadius: Json, i: int)
    requires ParseComponents(comps, bendRadius).Ok?
    requires LastOfName(comps, i) && Dispatched(comps[i].0)
    ensures comps[i].0 in ParseComponents(comps, bendRadius).value
    ensures Ok(Some(ParseComponents(comps, bendRadius).value[comps[i].0])) == ParseComponentAsWritten(comps[i].0, comps[i].1, bendRadius)
  {
    var key := (n: string) => n;
    var parse := (n, d) => ParseComponentAsWritten(n, d, bendRadius);
    StoreAllLastWins(comps, key, parse, i);
  }

  /** `_parse_spec`'s result as a value: missing scalar fields or `components` are a KeyError. */
  function SpecFromRaw(name: string, raw: RawSpec): (r: Result<PipeSpecData>)
    ensures r.Ok? ==> r.value.name == name
  {
    if "diameter" !in raw.fields || "thickness" !in raw.fields || "bend_radius" !in raw.fields then Err(KeyError)
    else if raw.components.None? then Err(KeyError)
    else
      match ParseComponents(raw.components.value, raw.fields["bend_radius"])
      case Err(e) => Err(e)
      case Ok(m) => Ok(PipeSpecData(name, raw.fields["diameter"], raw.fields["thickness"], raw.fields["bend_radius"], m))
  }

  /** `_parse_spec`: fills the spec's component dictionary entry by entry. */
  method ParseSpec(name: string, raw: RawSpec) returns (r: Result<PipeSpecData>)
    ensures r == SpecFromRaw(name, raw)
    ensures r.Ok? ==> r.value.name == name && r.value.bendRadius == raw.fields["bend_radius"]
  {
    if "diameter" !in raw.fields || "thickness" !in raw.fields || "bend_radius" !in raw.fields {
      return Err(KeyError);
    }
    var radius := raw.fields["bend_radius"];
    if raw.components.None? {
      return Err(KeyError);
    }
    var comps := raw.components.value;
    var components: map<string, ComponentData> := map[];
    var i := 0;
    while i < |comps|
      invariant 0 <= i <= |comps|
      invariant ParseComponents(comps[..i], radius) == Ok(components)
    {
      StoreAllStep(comps, n => n, (n, d) => ParseComponentAsWritten(n, d, radius), i);
      var (n, d) := comps[i];
      var c := ParseComponentAsWritten(n, d, radius);
      if c.Err? {
        return Err(c.error);
      }
      if c.value.Some? {
        components := components[n := c.value.value];
      }
      i := i + 1;
    }
    assert comps[..i] == comps;
    r := Ok(PipeSpecData(name, raw.fields["diameter"], raw.fields["thickness"], radius, components));
  }

  /** The SMS_25 spec of the test catalog (tests/components_catalog/test_loader.py:25-30). */
  function SampleSpec(): RawSpec {
    RawSpec(
      map["diameter" := JNum(25.0), "thickness" := JNum(1.2), "bend_radius" := JNum(38.0),
          "default_preferred_min_tangent" := JNum(12.5)],
      Some([("BEND_90", map["center_to_end" := JNum(51.0), "build_operation" := JStr("sweep_arc")]),
            ("TEE", SampleTeeEntry()),
            ("SMS_CLAMP", map["tangent" := JNum(20.0), "min_tangent" := JNum(8.0),
                              "preferred_min_tangent" := JNum(15.0), "build_operation" := JStr("revolve")])]))
  }

  /**
   * As written, `_parse_spec` stores the bend of that spec and then raises
   * TypeError at its tee, so the spec cannot be loaded.
   */
  lemma SampleSpecRejectedAsWritten()
    ensures SpecFromRaw("SMS_25", SampleSpec()) == Err(TypeError)
  {
    var comps := SampleSpec().components.value;
    var radius := JNum(38.0);
    var parse := (n, d) => ParseComponentAsWritten(n, d, radius);
    assert Contains("BEND_90", "BEND") by { assert OccursAt("BEND_90", "BEND", 0); }
    assert parse(comps[0].0, comps[0].1).Ok?;
    assert comps[..1][..0] == comps[..0];
    assert StoreAll(comps[..1], n => n, parse).Ok?;
    SampleTeeEntryRejectedAsWritten();
    StoreAllStep(comps, n => n, parse, 1);
  }

  /** `catalog.get_spec(name)` on the loaded standards. */
  function Lookup(standards: map<string, PipeSpecData>, name: string): (r: Option<PipeSpecData>)
    ensures r.None? <==> name !in standards
    ensures r.Some? ==> r.value == standards[name]
  {
    if name in standards then Some(standards[name]) else None
  }

  /** `_load_all`'s treatment of one spec read: parse it under its cleaned name. */
  function LoadOne(cleaned: string, raw: RawSpec): (r: Result<Option<PipeSpecData>>)
    ensures r.Ok? ==> r.value.Some?
  {
    match SpecFromRaw(cleaned, raw)
    case Err(e) => Err(e)
    case Ok(spec) => Ok(Some(spec))
  }

  /** The standards `_load_all` builds from the specs read, in reading order; the first failure aborts. */
  function LoadedSpecs(entries: seq<(string, RawSpec)>): Result<map<string, PipeSpecData>> {
    StoreAll(entries, CleanName, LoadOne)
  }

  /** The loaded names are exactly the cleaned names of the specs read. */
  lemma LoadedSpecsKeys(entries: seq<(string, RawSpec)>)
    requires LoadedSpecs(entries).Ok?
    ensures forall k :: k in LoadedSpecs(entries).value <==> exists i :: 0 <= i < |entries| && CleanName(entries[i].0) == k
  {
    StoreAllContents(entries, CleanName, LoadOne);
  }

  /**
   * Every loaded name is a cleaned name (no '-', cleaning it again changes
   * nothing) and names the spec stored under it.
   */
  lemma LoadedSpecsNames(entries: seq<(string, RawSpec)>)
    requires LoadedSpecs(entries).Ok?
    ensures forall k :: k in LoadedSpecs(entries).value ==>
      '-' !in k && CleanName(k) == k && LoadedSpecs(entries).value[k].name == k
  {
    StoreAllContents(entries, CleanName, LoadOne);
    var m := LoadedSpecs(entries).value;
    forall k | k in m ensures '-' !in k && CleanName(k) == k && m[k].name == k {
      var i :| 0 <= i < |entries| && CleanName(entries[i].0) == k && LoadOne(k, entries[i].1) == Ok(Some(m[k]));
      CleanNameIdempotent(entries[i].0);
    }
  }

  /** A later spec whose name cleans to the same key overwrites the earlier one. */
  lemma LoadedSpecsLastWins(entries: seq<(string, RawSpec)>, i: int)
    requires LoadedSpecs(entries).Ok?
    requires 0 <= i < |entries|
    requires forall j :: i < j < |entries| ==> CleanName(entries[j].0) != CleanName(entries[i].0)
    ensures CleanName(entries[i].0) in LoadedSpecs(entries).value
    ensures Ok(LoadedSpecs(entries).value[CleanName(entries[i].0)]) == SpecFromRaw(CleanName(entries[i].0), entries[i].1)
  {
    StoreAllLastWins(entries, CleanName, LoadOne, i);
    var k := CleanName(entries[i].0);
    assert LoadOne(k, entries[i].1).Ok?;
    assert SpecFromRaw(k, entries[i].1) == Ok(LoadOne(k, entries[i].1).value.value);
  }

  /** Storing into the right operand of a merge is storing into the merge. */
  lemma MergeUpdate<K, V>(a: map<K, V>, b: map<K, V>, k: K, v: V)
    ensures (a + b)[k := v] == a + b[k := v]
  {
  }

  /** The catalog object: `CatalogLoader.standards`, filled by `_load_all`. */
  class CatalogLoader {
    var standards: map<string, PipeSpecData>

    constructor ()
      ensures standards == map[]
    {
      standards := map[];
    }

    /**
     * `_load_all` once the catalog files have been read: each spec is stored
     * under its cleaned name, a later spec overwriting an earlier one.
     */
    method LoadAll(entries: seq<(string, RawSpec)>) returns (r: Result<bool>)
      modifies this
      ensures LoadedSpecs(entries).Err? <==> r.Err?
      ensures r.Ok? ==> standards == old(standards) + LoadedSpecs(entries).value
    {
      var loaded: map<string, PipeSpecData> := map[];
      var i := 0;
      while i < |entries|
        invariant 0 <= i <= |entries|
        invariant LoadedSpecs(entries[..i]) == Ok(loaded)
        invariant standards == old(standards) + loaded
      {
        var (n, raw) := entries[i];
        var cleaned := CleanName(n);
        var spec := ParseSpec(cleaned, raw);
        StoreAllStep(entries, CleanName, LoadOne, i);
        if spec.Err? {
          return Err(spec.error);
        }
        MergeUpdate(old(standards), loaded, cleaned, spec.value);
        standards := standards[cleaned := spec.value];
        loaded := loaded[cleaned := spec.value];
        i := i + 1;
      }
      assert entries[..i] == entries;
      r := Ok(true);
    }

    /** `get_spec`: None for a name that was never loaded. */
    function GetSpec(name: string): (r: Option<PipeSpecData>)
      reads this
      ensures r.None? <==> name !in standards
      ensures r.Some? ==> name in standards && r.value == standards[name]
    {
      Lookup(standards, name)
    }
  }
}
