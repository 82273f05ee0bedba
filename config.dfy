/** Loading a project from a JSON-like mapping (`project_from_mapping`): every section is read
    with its defaults, enum names are normalised before lookup, and the configurations the tool
    cannot write (a non-constant tailwater, channel fields, a min-max-increment flow) are refused.
    The loaders are methods that fill fresh objects, proved against the functions that specify
    them; `render` stands for `str()` of a float or a container, whose text is not modelled. */
module Config {
  import opened Wrappers
  import opened Text
  import opened PyValues
  import opened Enums
  import opened References
  import Flows
  import Tailwaters
  import Roadways
  import Barrels
  import Crossings
  import Projects

  // ---------------------------------------------------------------------------------------
  // Messages
  // ---------------------------------------------------------------------------------------

  /** What Python reports when `.get` is called on something that is not a mapping. */
  const NoGet: string := "object has no attribute 'get'"
  const CrossingsNotList: string := "'crossings' section must be a list of crossing definitions"
  const UserValuesNotList: string := "Flow 'user_values' must be a list of numbers"
  /** `flow.increment` is read before anything has set it. */
  const NoIncrement: string := "'FlowDefinition' object has no attribute 'increment'"
  const SurfaceRequired: string := "Roadway surface must be specified (paved, gravel, user_defined)."

  function CulvertsNotList(name: string): string {
    "Crossing '" + name + "' culverts must be a list"
  }

  function MissingField(key: string, context: string): string {
    "Missing required field '" + key + "' in " + context
  }

  function NotAString(key: string, context: string): string {
    "Field '" + key + "' in " + context + " must be a string"
  }

  function UnsupportedTailwaterType(name: string): string {
    "Tailwater type '" + name + "' is not supported by run-hy8. "
    + "Configure a constant elevation or use the HY-8 GUI."
  }

  function UnsupportedTailwaterFields(pretty: string): string {
    "Tailwater fields (" + pretty + ") are not supported by run-hy8. Use the HY-8 GUI for this configuration."
  }

  // ---------------------------------------------------------------------------------------
  // Values
  // ---------------------------------------------------------------------------------------

  /** `str(v)`, with `render` giving the text of the values whose `repr` is not modelled. */
  function StrOf(v: PyValue, render: PyValue -> string): (r: string)
    ensures v.PStr? ==> r == v.s
    ensures ToStr(v).Some? ==> r == ToStr(v).value
  {
    var t := ToStr(v);
    if t.Some? then t.value else render(v)
  }

  /** The entries of a section on which `.get` is called. */
  function AsEntries(v: PyValue): (r: Result<seq<(string, PyValue)>>)
    ensures r.Ok? <==> v.PDict?
    ensures v.PDict? ==> r.value == v.entries
  {
    if v.PDict? then Ok(v.entries) else Err(NoGet)
  }

  /** `_require_str(entry, key, context)`: the key must be present and hold a string. */
  function RequireStr(entries: seq<(string, PyValue)>, key: string, context: string): (r: Result<string>)
    ensures !HasKey(entries, key) ==> r == Err(MissingField(key, context))
    ensures HasKey(entries, key) && !Get(entries, key, PNone).PStr? ==> r == Err(NotAString(key, context))
    ensures r.Ok? <==> HasKey(entries, key) && Get(entries, key, PNone).PStr?
    ensures r.Ok? ==> r.value == Get(entries, key, PNone).s
  {
    if !HasKey(entries, key) then Err(MissingField(key, context))
    else
      var value := Get(entries, key, PNone);
      if !value.PStr? then Err(NotAString(key, context)) else Ok(value.s)
  }

  /** Python's name for the type of a value that cannot be searched with `in`. */
  function TypeName(v: PyValue): string {
    match v
    case PNone => "NoneType"
    case PBool(_) => "bool"
    case PInt(_) => "int"
    case PFloat(_) => "float"
    case PMember(cls, _) => cls
    case PStr(_) => "str"
    case PList(_) => "list"
    case PTuple(_) => "tuple"
    case PDict(_) => "dict"
  }

  function NotIterable(v: PyValue): string {
    "argument of type '" + TypeName(v) + "' is not iterable"
  }

  function IndexedByText(v: PyValue): string {
    if v.PStr? then "string indices must be integers, not 'str'"
    else TypeName(v) + " indices must be integers or slices, not str"
  }

  /** The entries of an entry that `_require_str` reads first. On anything but a mapping, `key in
      entry` is a substring test on a string and an item test on a list or tuple, and raises for
      any other value; a key so found is then refused by `entry[key]`. */
  function RequireEntry(v: PyValue, key: string, context: string): (r: Result<seq<(string, PyValue)>>)
    ensures r.Ok? <==> v.PDict?
    ensures v.PDict? ==> r.value == v.entries
    ensures v.PStr? ==> r == Err(if Contains(v.s, key) then IndexedByText(v) else MissingField(key, context))
    ensures IsSequence(v) ==> r == Err(if PStr(key) in Items(v) then IndexedByText(v) else MissingField(key, context))
    ensures !(v.PDict? || v.PStr? || IsSequence(v)) ==> r == Err(NotIterable(v))
  {
    match v
    case PDict(entries) => Ok(entries)
    case PStr(s) => Err(if Contains(s, key) then IndexedByText(v) else MissingField(key, context))
    case PList(items) => Err(if PStr(key) in items then IndexedByText(v) else MissingField(key, context))
    case PTuple(elems) => Err(if PStr(key) in elems then IndexedByText(v) else MissingField(key, context))
    case _ => Err(NotIterable(v))
  }

  /** `[float(v) for v in items]` where `items` is any iterable. */
  function FloatsIn(v: PyValue): (r: Result<seq<real>>)
    ensures IsSequence(v) ==> r == FloatsOf(Items(v))
    ensures !(IsSequence(v) || v.PStr? || v.PDict?) ==> r.Err?
  {
    var items :- Iterate(v);
    FloatsOf(items)
  }

  // ---------------------------------------------------------------------------------------
  // Enum normalisers
  // ---------------------------------------------------------------------------------------

  /** `str(value).strip().upper()` */
  function Normalized(v: PyValue, render: PyValue -> string): string {
    Upper(Strip(StrOf(v, render)))
  }

  /** A unit system is named by its flag, upper-cased, or by its member name. */
  predicate UnitMatches(u: UnitSystem, normalized: string) {
    Upper(u.CliFlag()) == normalized || u.Name() == normalized
  }

  /** `_parse_unit_system(value)`: a member is kept; otherwise the first unit whose flag or name
      equals the trimmed, upper-cased text. */
  function ParseUnitSystem(v: PyValue, render: PyValue -> string): (r: Result<UnitSystem>)
    ensures v.PMember? && v.cls == "UnitSystem" && v.name == "ENGLISH" ==> r == Ok(English)
    ensures v.PMember? && v.cls == "UnitSystem" && v.name == "SI" ==> r == Ok(SI)
    ensures !v.PMember? ==> (r.Ok? ==> UnitMatches(r.value, Normalized(v, render)))
    ensures !v.PMember? ==> (r.Err? <==> forall u: UnitSystem :: !UnitMatches(u, Normalized(v, render)))
  {
    if v.PMember? && v.cls == "UnitSystem" && v.name == "ENGLISH" then Ok(English)
    else if v.PMember? && v.cls == "UnitSystem" && v.name == "SI" then Ok(SI)
    else
      var normalized := Normalized(v, render);
      if UnitMatches(English, normalized) then Ok(English)
      else if UnitMatches(SI, normalized) then Ok(SI)
      else Err("Unsupported unit system '" + StrOf(v, render) + "'")
  }

  /** `RoadwaySurface[name]` */
  function SurfaceNamed(n: string): (r: Option<RoadwaySurface>)
    ensures r.Some? ==> r.value.Name() == n
    ensures forall s: RoadwaySurface :: s.Name() == n ==> r == Some(s)
  {
    if n == "PAVED" then Some(Paved) else if n == "GRAVEL" then Some(Gravel)
    else if n == "USER_DEFINED" then Some(UserDefinedSurface) else None
  }

  /** `CulvertShape[name]` */
  function ShapeNamed(n: string): (r: Option<CulvertShape>)
    ensures r.Some? ==> r.value.Name() == n
    ensures forall s: CulvertShape :: s.Name() == n ==> r == Some(s)
  {
    if n == "CIRCLE" then Some(Circle) else if n == "BOX" then Some(Box) else None
  }

  /** `CulvertMaterial[name]` */
  function MaterialNamed(n: string): (r: Option<CulvertMaterial>)
    ensures r.Some? ==> r.value.Name() == n
    ensures forall m: CulvertMaterial :: m.Name() == n ==> r == Some(m)
  {
    if n == "CONCRETE" then Some(Concrete) else if n == "CORRUGATED_STEEL" then Some(CorrugatedSteel)
    else if n == "HDPE" then Some(Hdpe) else None
  }

  /** `TailwaterType[name]` */
  function TailwaterTypeNamed(n: string): (r: Option<TailwaterType>)
    ensures r.Some? ==> r.value.Name() == n
    ensures forall t: TailwaterType :: t.Name() == n ==> r == Some(t)
  {
    if n == "RECTANGULAR" then Some(Rectangular) else if n == "TRAPEZOIDAL" then Some(Trapezoidal)
    else if n == "TRIANGULAR" then Some(Triangular) else if n == "IRREGULAR" then Some(Irregular)
    else if n == "RATING_CURVE" then Some(RatingCurve) else if n == "CONSTANT" then Some(Constant)
    else None
  }

  /** The lookup key of `_parse_surface` and `_parse_tailwater_type`: "-" becomes "_". */
  function DashKey(v: PyValue, render: PyValue -> string): string {
    ReplaceChar(Normalized(v, render), '-', '_')
  }

  /** The lookup key of `_parse_culvert_material`: " " becomes "_". */
  function SpaceKey(v: PyValue, render: PyValue -> string): string {
    ReplaceChar(Normalized(v, render), ' ', '_')
  }

  /** `_parse_surface(value)` */
  function ParseSurface(v: PyValue, render: PyValue -> string): (r: Result<RoadwaySurface>)
    ensures r.Ok? ==> r.value.Name() == DashKey(v, render)
    ensures r.Err? <==> forall s: RoadwaySurface :: s.Name() != DashKey(v, render)
  {
    var found := SurfaceNamed(DashKey(v, render));
    if found.Some? then Ok(found.value) else Err("Unsupported roadway surface '" + StrOf(v, render) + "'")
  }

  /** `_parse_culvert_shape(value)`: upper-cased only. */
  function ParseShape(v: PyValue, render: PyValue -> string): (r: Result<CulvertShape>)
    ensures r.Ok? ==> r.value.Name() == Normalized(v, render)
    ensures r.Err? <==> forall s: CulvertShape :: s.Name() != Normalized(v, render)
  {
    var found := ShapeNamed(Normalized(v, render));
    if found.Some? then Ok(found.value) else Err("Unsupported culvert shape '" + StrOf(v, render) + "'")
  }

  /** `_parse_culvert_material(value)` */
  function ParseMaterial(v: PyValue, render: PyValue -> string): (r: Result<CulvertMaterial>)
    ensures r.Ok? ==> r.value.Name() == SpaceKey(v, render)
    ensures r.Err? <==> forall m: CulvertMaterial :: m.Name() != SpaceKey(v, render)
  {
    var found := MaterialNamed(SpaceKey(v, render));
    if found.Some? then Ok(found.value) else Err("Unsupported culvert material '" + StrOf(v, render) + "'")
  }

  /** `_parse_tailwater_type(value)` */
  function ParseTailwaterType(v: PyValue, render: PyValue -> string): (r: Result<TailwaterType>)
    ensures r.Ok? ==> r.value.Name() == DashKey(v, render)
    ensures r.Err? <==> forall t: TailwaterType :: t.Name() != DashKey(v, render)
  {
    var found := TailwaterTypeNamed(DashKey(v, render));
    if found.Some? then Ok(found.value) else Err("Unsupported tailwater type '" + StrOf(v, render) + "'")
  }

  // ---------------------------------------------------------------------------------------
  // Sections
  // ---------------------------------------------------------------------------------------

  /** `FlowMethod(text)`: lookup by value. */
  function MethodWithValue(text: string): (r: Option<FlowMethod>)
    ensures r.Some? ==> r.value.Value() == text
    ensures forall m: FlowMethod :: m.Value() == text ==> r == Some(m)
  {
    if text == "min-design-max" then Some(MinDesignMax)
    else if text == "min-max-increment" then Some(MinMaxIncrement)
    else if text == "user-defined" then Some(UserDefined)
    else None
  }

  /** The method text `_parse_flow` looks up: min-design-max unless the entry names one. */
  function MethodText(entries: seq<(string, PyValue)>, render: PyValue -> string): string {
    StrOf(Get(entries, "method", PStr(MinDesignMax.Value())), render)
  }

  /** `_parse_flow(entry)`: a user-defined flow takes its values from a list, the other methods
      their three scalars; reading `flow.increment` for min-max-increment always fails. */
  function ParseFlow(v: PyValue, render: PyValue -> string): (r: Result<Flows.FlowValue>)
    ensures v.PDict? && MethodWithValue(MethodText(v.entries, render)).None? ==> r.Err?
    ensures r.Ok? ==> v.PDict? && r.value.flowMethod.Value() == MethodText(v.entries, render)
    ensures r.Ok? ==> r.value.flowMethod != MinMaxIncrement
    ensures r.Ok? && r.value.flowMethod == UserDefined ==>
      && IsSequence(Get(v.entries, "user_values", PList([])))
      && r.value == Flows.DefaultFlow.(userValues := r.value.userValues)
    ensures r.Ok? && r.value.flowMethod == MinDesignMax ==> r.value.userValues == [] && r.value.userValueLabels == []
  {
    var entry :- AsEntries(v);
    var text := MethodText(entry, render);
    var found := MethodWithValue(text);
    if found.None? then Err("Unsupported flow method '" + text + "'")
    else
      var flow := Flows.DefaultFlow.(flowMethod := found.value);
      if found.value == UserDefined then
        var values := Get(entry, "user_values", PList([]));
        if !IsSequence(values) then Err(UserValuesNotList)
        else
          var floats :- FloatsOf(Items(values));
          Ok(flow.(userValues := floats))
      else
        var minimum :- ToFloat(Get(entry, "minimum", PFloat(flow.minimum)));
        var design :- ToFloat(Get(entry, "design", PFloat(flow.design)));
        var maximum :- ToFloat(Get(entry, "maximum", PFloat(flow.maximum)));
        if found.value == MinMaxIncrement then Err(NoIncrement)
        else Ok(flow.(minimum := minimum, design := design, maximum := maximum))
  }

  /** The channel fields the constant-tailwater writer cannot express, in sorted order. */
  const ChannelKeys: seq<string> := ["bottom_width", "channel_slope", "manning_n", "rating_curve"]

  /** The keys of `keys` that the entries carry, in the order of `keys`. */
  function PresentKeys(entries: seq<(string, PyValue)>, keys: seq<string>): (r: seq<string>)
    ensures |r| <= |keys|
    ensures forall k :: k in r <==> k in keys && HasKey(entries, k)
    decreases |keys|
  {
    if keys == [] then []
    else (if HasKey(entries, keys[0]) then [keys[0]] else []) + PresentKeys(entries, keys[1..])
  }

  /** `_parse_tailwater(entry)`: only a constant tailwater without channel fields is accepted,
      and only its two elevations are read. */
  function ParseTailwater(v: PyValue, render: PyValue -> string): (r: Result<Tailwaters.TailwaterValue>)
    ensures r.Ok? ==> v.PDict? && PresentKeys(v.entries, ChannelKeys) == []
    ensures r.Ok? ==> Get(v.entries, "type", PNone).PNone?
                      || ParseTailwaterType(Get(v.entries, "type", PNone), render) == Ok(Constant)
    ensures r.Ok? ==> r.value == Tailwaters.DefaultTailwater.(constantElevation := r.value.constantElevation,
                                                              invertElevation := r.value.invertElevation)
  {
    var entry :- AsEntries(v);
    var requested := Get(entry, "type", PNone);
    var checked :- if requested.PNone? then Ok(Constant) else ParseTailwaterType(requested, render);
    if checked != Constant then Err(UnsupportedTailwaterType(checked.Name()))
    else
      var present := PresentKeys(entry, ChannelKeys);
      if present != [] then Err(UnsupportedTailwaterFields(Join(", ", present)))
      else
        var elevation :- ToFloat(Get(entry, "constant_elevation", PFloat(0.0)));
        var invert :- ToFloat(Get(entry, "invert_elevation", PFloat(0.0)));
        Ok(Tailwaters.DefaultTailwater.(constantElevation := elevation, invertElevation := invert))
  }

  /** `_parse_roadway(entry)`: width and shape default, the surface is mandatory, and the points
      are read from any iterable. */
  function ParseRoadway(v: PyValue, render: PyValue -> string): (r: Result<Roadways.RoadwayValue>)
  {
    var entry :- AsEntries(v);
    var width :- ToFloat(Get(entry, "width", PFloat(Roadways.DefaultRoadway.width)));
    var shape :- ToInt(Get(entry, "shape", PInt(Roadways.DefaultRoadway.shape)));
    RoadwayPoints(entry, render, width, shape)
  }

  /** `_parse_roadway` after the width and the shape: the surface, which must be present, then the
      stations and the elevations. */
  function RoadwayPoints(entry: seq<(string, PyValue)>, render: PyValue -> string, width: real, shape: int)
    : (r: Result<Roadways.RoadwayValue>)
  {
    if !HasKey(entry, "surface") then Err(SurfaceRequired)
    else
      var surface :- ParseSurface(Get(entry, "surface", PNone), render);
      RoadwayLists(entry, width, shape, surface)
  }

  /** The end of `_parse_roadway`: the stations, then the elevations. */
  function RoadwayLists(entry: seq<(string, PyValue)>, width: real, shape: int, surface: RoadwaySurface)
    : (r: Result<Roadways.RoadwayValue>)
  {
    var stations :- FloatsIn(Get(entry, "stations", PList([])));
    var elevations :- FloatsIn(Get(entry, "elevations", PList([])));
    Ok(Roadways.RoadwayValue(width, shape, surface, stations, elevations))
  }

  /** `barrel_spacing`: an explicit `None` (or no entry) stays `None`. */
  function SpacingOf(v: PyValue): (r: Result<Option<real>>)
    ensures r.Ok? && r.value.None? <==> v.PNone?
    ensures r.Ok? && r.value.Some? ==> ToFloat(v) == Ok(r.value.value)
  {
    if v.PNone? then Ok(None)
    else
      var x :- ToFloat(v);
      Ok(Some(x))
  }

  function CulvertContext(crossingName: string): string {
    "culvert in crossing '" + crossingName + "'"
  }

  /** `_parse_culvert(entry, crossing_name=...)`: a named barrel whose fields default as in a new
      barrel; only the fields listed in the loader are read. */
  function ParseCulvert(v: PyValue, crossingName: string, render: PyValue -> string): (r: Result<Barrels.BarrelValue>)
    ensures r.Ok? ==> v.PDict? && RequireStr(v.entries, "name", CulvertContext(crossingName)) == Ok(r.value.name)
    ensures !v.PDict? ==> r == Err(RequireEntry(v, "name", CulvertContext(crossingName)).msg)
  {
    var entry :- RequireEntry(v, "name", CulvertContext(crossingName));
    var name :- RequireStr(entry, "name", CulvertContext(crossingName));
    var b := Barrels.DefaultBarrel(name);
    var span :- ToFloat(Get(entry, "span", PFloat(b.span)));
    var rise :- ToFloat(Get(entry, "rise", PFloat(b.rise)));
    var shape :- ParseShape(Get(entry, "shape", PStr(b.shape.Name())), render);
    var material :- ParseMaterial(Get(entry, "material", PStr(b.material.Name())), render);
    var count :- ToInt(Get(entry, "number_of_barrels", PInt(b.numberOfBarrels)));
    var inletStation :- ToFloat(Get(entry, "inlet_invert_station", PFloat(b.inletInvertStation)));
    var inletElevation :- ToFloat(Get(entry, "inlet_invert_elevation", PFloat(b.inletInvertElevation)));
    var outletStation :- ToFloat(Get(entry, "outlet_invert_station", PFloat(b.outletInvertStation)));
    var outletElevation :- ToFloat(Get(entry, "outlet_invert_elevation", PFloat(b.outletInvertElevation)));
    var roadwayStation :- ToFloat(Get(entry, "roadway_station", PFloat(b.roadwayStation)));
    var spacing :- SpacingOf(Get(entry, "barrel_spacing", PNone));
    var notes := StrOf(Get(entry, "notes", PStr(b.notes)), render);
    Ok(b.(span := span, rise := rise, shape := shape, material := material, numberOfBarrels := count,
          inletInvertStation := inletStation, inletInvertElevation := inletElevation,
          outletInvertStation := outletStation, outletInvertElevation := outletElevation,
          roadwayStation := roadwayStation, barrelSpacing := spacing, notes := notes))
  }

  /** `[parse(item) for item in items]`, stopping at the first failure. Defined from the back so
      that a loop over the items meets it one prefix at a time. */
  function ParseAll<T>(items: seq<PyValue>, parse: PyValue -> Result<T>): (r: Result<seq<T>>)
    ensures r.Ok? ==> |r.value| == |items|
    ensures r.Ok? ==> forall i :: 0 <= i < |items| ==> parse(items[i]) == Ok(r.value[i])
    ensures r.Err? ==> exists i :: 0 <= i < |items| && parse(items[i]) == Err(r.msg)
    decreases |items|
  {
    if items == [] then Ok([])
    else
      var init :- ParseAll(items[..|items| - 1], parse);
      var last :- parse(items[|items| - 1]);
      assert forall i :: 0 <= i < |items| - 1 ==> items[..|items| - 1][i] == items[i];
      Ok(init + [last])
  }

  /** A failure in a prefix is the failure of the whole list. */
  lemma {:induction false} ParseAllPrefixFails<T>(items: seq<PyValue>, n: nat, parse: PyValue -> Result<T>)
    requires n <= |items| && ParseAll(items[..n], parse).Err?
    ensures ParseAll(items, parse) == ParseAll(items[..n], parse)
    decreases |items| - n
  {
    if n < |items| {
      ParseAllPrefixFails(items[..|items| - 1], n, parse);
      assert items[..|items| - 1][..n] == items[..n];
    } else {
      assert items[..n] == items;
    }
  }

  /** Every item parses exactly when the list does. */
  lemma {:induction false} ParseAllSucceeds<T>(items: seq<PyValue>, parse: PyValue -> Result<T>)
    ensures ParseAll(items, parse).Ok? <==> forall i :: 0 <= i < |items| ==> parse(items[i]).Ok?
    decreases |items|
  {
    if items != [] {
      var init := items[..|items| - 1];
      ParseAllSucceeds(init, parse);
      assert forall i :: 0 <= i < |init| ==> init[i] == items[i];
    }
  }

  function CulvertParser(crossingName: string, render: PyValue -> string): PyValue -> Result<Barrels.BarrelValue> {
    v => ParseCulvert(v, crossingName, render)
  }

  /** The uuid is kept, as text, only when it is truthy. */
  function UuidOf(entries: seq<(string, PyValue)>, render: PyValue -> string): (r: Option<string>)
    ensures r.Some? <==> Truthy(Get(entries, "uuid", PNone))
  {
    var value := Get(entries, "uuid", PNone);
    if Truthy(value) then Some(StrOf(value, render)) else None
  }

  /** `_parse_crossing(entry)` */
  function ParseCrossing(v: PyValue, render: PyValue -> string): (r: Result<Crossings.CrossingValue>)
  {
    var entry :- RequireEntry(v, "name", "crossing");
    var name :- RequireStr(entry, "name", "crossing");
    var notes := StrOf(Get(entry, "notes", PStr("")), render);
    var uuid := UuidOf(entry, render);
    var flow :- ParseFlow(Get(entry, "flow", PDict([])), render);
    var tailwater :- ParseTailwater(Get(entry, "tailwater", PDict([])), render);
    var roadway :- ParseRoadway(Get(entry, "roadway", PDict([])), render);
    var culvertEntries := Get(entry, "culverts", PList([]));
    if !IsSequence(culvertEntries) then Err(CulvertsNotList(name))
    else
      var culverts :- ParseAll(Items(culvertEntries), CulvertParser(name, render));
      Ok(Crossings.CrossingValue(name, notes, flow, tailwater, roadway, culverts, uuid))
  }

  function CrossingParser(render: PyValue -> string): PyValue -> Result<Crossings.CrossingValue> {
    v => ParseCrossing(v, render)
  }

  /** The scalar fields of the "project" section, in the order they are read. */
  datatype Header = Header(title: string, designer: string, notes: string, units: UnitSystem, exitLoss: int)

  function ParseHeader(section: seq<(string, PyValue)>, render: PyValue -> string): (r: Result<Header>)
    ensures r.Ok? ==> ParseUnitSystem(Get(section, "units", PStr(English.CliFlag())), render) == Ok(r.value.units)
  {
    var title := StrOf(Get(section, "title", PStr("")), render);
    var designer := StrOf(Get(section, "designer", PStr("")), render);
    var notes := StrOf(Get(section, "notes", PStr("")), render);
    var units :- ParseUnitSystem(Get(section, "units", PStr(English.CliFlag())), render);
    var exitLoss :- ToInt(Get(section, "exit_loss_option", PInt(0)));
    Ok(Header(title, designer, notes, units, exitLoss))
  }

  /** `project_from_mapping(config)` */
  function ProjectFromMapping(config: seq<(string, PyValue)>, render: PyValue -> string): (r: Result<Projects.ProjectValue>)
  {
    var section :- AsEntries(Get(config, "project", PDict([])));
    var header :- ParseHeader(section, render);
    var entries := Get(config, "crossings", PList([]));
    if !IsSequence(entries) then Err(CrossingsNotList)
    else
      var crossings :- ParseAll(Items(entries), CrossingParser(render));
      Ok(Projects.ProjectValue(header.title, header.designer, header.notes, header.units, header.exitLoss, crossings))
  }

  // ---------------------------------------------------------------------------------------
  // Loaders
  // ---------------------------------------------------------------------------------------

  /** `_parse_roadway(entry)`: a fresh profile whose fields are assigned one by one. */
  method LoadRoadway(v: PyValue, render: PyValue -> string) returns (r: Result<Roadways.RoadwayProfile>)
    ensures ParseRoadway(v, render).Err? ==> r.Err? && r.msg == ParseRoadway(v, render).msg
    ensures ParseRoadway(v, render).Ok? ==>
      r.Ok? && fresh(r.value) && r.value.Value() == ParseRoadway(v, render).value
  {
    if !v.PDict? {
      return Err(NoGet);
    }
    var entry := v.entries;
    var roadway := new Roadways.RoadwayProfile();
    var width := ToFloat(Get(entry, "width", PFloat(roadway.width)));
    if width.Err? {
      return Err(width.msg);
    }
    roadway.width := width.value;
    var shape := ToInt(Get(entry, "shape", PInt(roadway.shape)));
    if shape.Err? {
      return Err(shape.msg);
    }
    roadway.shape := shape.value;
    var failure := ReadRoadwayPoints(roadway, entry, render);
    if failure.Some? {
      return Err(failure.value);
    }
    r := Ok(roadway);
  }

  /** The rest of `_parse_roadway`: the surface, then the two lists; the first that fails ends the
      parse with its message. */
  method ReadRoadwayPoints(roadway: Roadways.RoadwayProfile, entry: seq<(string, PyValue)>, render: PyValue -> string)
    returns (failure: Option<string>)
    modifies roadway
    ensures var spec := RoadwayPoints(entry, render, old(roadway.width), old(roadway.shape));
      && (spec.Err? ==> failure == Some(spec.msg))
      && (spec.Ok? ==> failure.None? && roadway.Value() == spec.value)
  {
    if !HasKey(entry, "surface") {
      return Some(SurfaceRequired);
    }
    var surface := ParseSurface(Get(entry, "surface", PNone), render);
    if surface.Err? {
      return Some(surface.msg);
    }
    roadway.surface := surface.value;
    failure := ReadRoadwayLists(roadway, entry);
  }

  /** The stations and the elevations of `_parse_roadway`, assigned one after the other. */
  method ReadRoadwayLists(roadway: Roadways.RoadwayProfile, entry: seq<(string, PyValue)>)
    returns (failure: Option<string>)
    modifies roadway
    ensures var spec := RoadwayLists(entry, old(roadway.width), old(roadway.shape), old(roadway.surface));
      && (spec.Err? ==> failure == Some(spec.msg))
      && (spec.Ok? ==> failure.None? && roadway.Value() == spec.value)
  {
    var stations := FloatsIn(Get(entry, "stations", PList([])));
    if stations.Err? {
      return Some(stations.msg);
    }
    roadway.stations := stations.value;
    var elevations := FloatsIn(Get(entry, "elevations", PList([])));
    if elevations.Err? {
      return Some(elevations.msg);
    }
    roadway.elevations := elevations.value;
    failure := None;
  }

  /** `for item in items: out.append(parse(item))`: the entries parsed and appended in order; the
      first entry that fails ends the loop with its error. */
  method ParseEach<T>(items: seq<PyValue>, parse: PyValue -> Result<T>) returns (r: Result<seq<T>>)
    ensures r == ParseAll(items, parse)
  {
    var parsed: seq<T> := [];
    var i := 0;
    while i < |items|
      invariant 0 <= i <= |items|
      invariant ParseAll(items[..i], parse) == Ok(parsed)
    {
      var item := parse(items[i]);
      assert items[..i + 1][..i] == items[..i];
      if item.Err? {
        ParseAllPrefixFails(items, i + 1, parse);
        return Err(item.msg);
      }
      parsed := parsed + [item.value];
      i := i + 1;
    }
    assert items[..i] == items;
    r := Ok(parsed);
  }

  /** `_parse_crossing(entry)`, section by section: the first section that fails decides the error. */
  method ReadCrossing(v: PyValue, render: PyValue -> string) returns (r: Result<Crossings.CrossingValue>)
    ensures r == ParseCrossing(v, render)
  {
    if !v.PDict? {
      return Err(RequireEntry(v, "name", "crossing").msg);
    }
    var entry := v.entries;
    var name := RequireStr(entry, "name", "crossing");
    if name.Err? {
      return Err(name.msg);
    }
    var notes := StrOf(Get(entry, "notes", PStr("")), render);
    var uuidValue := Get(entry, "uuid", PNone);
    var uuid: Option<string> := None;
    if Truthy(uuidValue) {
      uuid := Some(StrOf(uuidValue, render));
    }
    var flow := ParseFlow(Get(entry, "flow", PDict([])), render);
    if flow.Err? {
      return Err(flow.msg);
    }
    var tailwater := ParseTailwater(Get(entry, "tailwater", PDict([])), render);
    if tailwater.Err? {
      return Err(tailwater.msg);
    }
    var roadway := ParseRoadway(Get(entry, "roadway", PDict([])), render);
    if roadway.Err? {
      return Err(roadway.msg);
    }
    var culvertEntries := Get(entry, "culverts", PList([]));
    if !IsSequence(culvertEntries) {
      return Err(CulvertsNotList(name.value));
    }
    var culverts := ParseEach(Items(culvertEntries), CulvertParser(name.value, render));
    if culverts.Err? {
      return Err(culverts.msg);
    }
    r := Ok(Crossings.CrossingValue(name.value, notes, flow.value, tailwater.value, roadway.value, culverts.value, uuid));
  }

  /** A fresh `CulvertCrossing` holding the sections `ReadCrossing` parsed. */
  method LoadCrossing(v: PyValue, render: PyValue -> string) returns (r: Result<Crossings.CulvertCrossing>)
    ensures ParseCrossing(v, render).Err? ==> r.Err? && r.msg == ParseCrossing(v, render).msg
    ensures ParseCrossing(v, render).Ok? ==>
      r.Ok? && fresh(r.value) && r.value.Value() == ParseCrossing(v, render).value
  {
    var parsed := ReadCrossing(v, render);
    if parsed.Err? {
      return Err(parsed.msg);
    }
    var c := parsed.value;
    var crossing := new Crossings.CulvertCrossing(c.name);
    crossing.notes, crossing.uuid := c.notes, c.uuid;
    crossing.flow, crossing.tailwater, crossing.roadway := c.flow, c.tailwater, c.roadway;
    crossing.culverts := c.culverts;
    r := Ok(crossing);
  }

  lemma ProjectAssembled(config: seq<(string, PyValue)>, render: PyValue -> string, section: seq<(string, PyValue)>,
                         header: Header, crossings: seq<Crossings.CrossingValue>)
    requires Get(config, "project", PDict([])) == PDict(section)
    requires ParseHeader(section, render) == Ok(header)
    requires IsSequence(Get(config, "crossings", PList([])))
    requires ParseAll(Items(Get(config, "crossings", PList([]))), CrossingParser(render)) == Ok(crossings)
    ensures ProjectFromMapping(config, render)
         == Ok(Projects.ProjectValue(header.title, header.designer, header.notes, header.units, header.exitLoss, crossings))
  {
  }

  /** `project_from_mapping(config)`: a fresh project, its header fields assigned and its
      crossings appended in order. */
  method LoadProject(config: seq<(string, PyValue)>, render: PyValue -> string) returns (r: Result<Projects.Hy8Project>)
    ensures ProjectFromMapping(config, render).Err? ==> r.Err? && r.msg == ProjectFromMapping(config, render).msg
    ensures ProjectFromMapping(config, render).Ok? ==>
      r.Ok? && fresh(r.value) && r.value.Value() == ProjectFromMapping(config, render).value
  {
    var sectionValue := Get(config, "project", PDict([]));
    if !sectionValue.PDict? {
      return Err(NoGet);
    }
    var section := sectionValue.entries;
    var project := new Projects.Hy8Project();
    project.title := StrOf(Get(section, "title", PStr("")), render);
    project.designer := StrOf(Get(section, "designer", PStr("")), render);
    project.notes := StrOf(Get(section, "notes", PStr("")), render);
    var units := ParseUnitSystem(Get(section, "units", PStr(English.CliFlag())), render);
    if units.Err? {
      return Err(units.msg);
    }
    project.units := units.value;
    var exitLoss := ToInt(Get(section, "exit_loss_option", PInt(0)));
    if exitLoss.Err? {
      return Err(exitLoss.msg);
    }
    project.exitLossOption := exitLoss.value;
    var entries := Get(config, "crossings", PList([]));
    if !IsSequence(entries) {
      return Err(CrossingsNotList);
    }
    var crossings := ParseEach(Items(entries), CrossingParser(render));
    if crossings.Err? {
      return Err(crossings.msg);
    }
    project.crossings := crossings.value;
    ProjectAssembled(config, render, section, Header(project.title, project.designer, project.notes, project.units,
                     project.exitLossOption), crossings.value);
    r := Ok(project);
  }

  // ---------------------------------------------------------------------------------------
  // Properties
  // ---------------------------------------------------------------------------------------

  /** A roadway loads only from a mapping with a surface; its surface and its two point lists
      are those the entry spells. */
  lemma RoadwayParsed(v: PyValue, render: PyValue -> string)
    ensures ParseRoadway(v, render).Ok? ==> var r := ParseRoadway(v, render).value;
      && v.PDict? && HasKey(v.entries, "surface")
      && ParseSurface(Get(v.entries, "surface", PNone), render) == Ok(r.surface)
      && FloatsIn(Get(v.entries, "stations", PList([]))) == Ok(r.stations)
      && FloatsIn(Get(v.entries, "elevations", PList([]))) == Ok(r.elevations)
  {
    if v.PDict? {
      var entry := v.entries;
      var width := ToFloat(Get(entry, "width", PFloat(Roadways.DefaultRoadway.width)));
      var shape := ToInt(Get(entry, "shape", PInt(Roadways.DefaultRoadway.shape)));
      var surface := ParseSurface(Get(entry, "surface", PNone), render);
      var stations := FloatsIn(Get(entry, "stations", PList([])));
      var elevations := FloatsIn(Get(entry, "elevations", PList([])));
      if width.Ok? && shape.Ok? && HasKey(entry, "surface") && surface.Ok? && stations.Ok? && elevations.Ok? {
        assert ParseRoadway(v, render) == Ok(Roadways.RoadwayValue(width.value, shape.value, surface.value,
                                                                   stations.value, elevations.value));
      }
    }
  }

  /** A crossing that loads has a string name, the roadway its "roadway" entry gives and one
      barrel per entry of its culvert list. */
  lemma CrossingParsed(v: PyValue, render: PyValue -> string)
    ensures ParseCrossing(v, render).Ok? ==> var c := ParseCrossing(v, render).value;
      && v.PDict? && RequireStr(v.entries, "name", "crossing") == Ok(c.name)
      && ParseRoadway(Get(v.entries, "roadway", PDict([])), render) == Ok(c.roadway)
      && IsSequence(Get(v.entries, "culverts", PList([])))
      && |c.culverts| == |Items(Get(v.entries, "culverts", PList([])))|
  {
    if v.PDict? {
      var entry := v.entries;
      var name := RequireStr(entry, "name", "crossing");
      var flow := ParseFlow(Get(entry, "flow", PDict([])), render);
      var tailwater := ParseTailwater(Get(entry, "tailwater", PDict([])), render);
      var roadway := ParseRoadway(Get(entry, "roadway", PDict([])), render);
      var culvertEntries := Get(entry, "culverts", PList([]));
      if name.Ok? && flow.Ok? && tailwater.Ok? && roadway.Ok? && IsSequence(culvertEntries) {
        var culverts := ParseAll(Items(culvertEntries), CulvertParser(name.value, render));
        if culverts.Ok? {
          assert ParseCrossing(v, render) == Ok(Crossings.CrossingValue(name.value,
            StrOf(Get(entry, "notes", PStr("")), render), flow.value, tailwater.value, roadway.value,
            culverts.value, UuidOf(entry, render)));
        }
      }
    }
  }

  /** A configuration loads only when its crossings form a list, and then holds one crossing per
      entry, each the crossing that entry loads as. */
  lemma ProjectParsed(config: seq<(string, PyValue)>, render: PyValue -> string)
    ensures !IsSequence(Get(config, "crossings", PList([]))) ==> ProjectFromMapping(config, render).Err?
    ensures ProjectFromMapping(config, render).Ok? ==>
      var items := Items(Get(config, "crossings", PList([])));
      var crossings := ProjectFromMapping(config, render).value.crossings;
      && |crossings| == |items|
      && forall i :: 0 <= i < |items| ==> ParseCrossing(items[i], render) == Ok(crossings[i])
  {
  }

  /** A unit text selects exactly the unit whose flag or name it spells: the two units share
      no spelling. */
  lemma UnitSystemByText(s: string, u: UnitSystem, render: PyValue -> string)
    ensures ParseUnitSystem(PStr(s), render) == Ok(u) <==> UnitMatches(u, Upper(Strip(s)))
  {
    assert Upper("EN") == "EN" && Upper("SI") == "SI";
  }

  /** The normalised text of a string with no surrounding blanks is its upper-case form. */
  lemma NormalizedText(s: string, t: string, render: PyValue -> string)
    requires s != [] && !IsSpace(s[0]) && !IsSpace(s[|s| - 1])
    requires |s| == |t| && forall i :: 0 <= i < |s| ==> UpperChar(s[i]) == t[i]
    ensures Normalized(PStr(s), render) == t
  {
    assert LStrip(s) == s;
    assert RStrip(s) == s;
  }

  /** Python's `<` on strings. */
  predicate LexLess(a: string, b: string)
    decreases |a|
  {
    b != [] && (a == [] || a[0] < b[0] || (a[0] == b[0] && LexLess(a[1..], b[1..])))
  }

  predicate SortedStrings(keys: seq<string>) {
    forall i, j :: 0 <= i < j < |keys| ==> LexLess(keys[i], keys[j])
  }

  /** Keeping the keys of a sorted list in their order keeps them sorted. */
  lemma {:induction false} PresentKeysSorted(entries: seq<(string, PyValue)>, keys: seq<string>)
    requires SortedStrings(keys)
    ensures SortedStrings(PresentKeys(entries, keys))
    decreases |keys|
  {
    if keys != [] {
      var rest := PresentKeys(entries, keys[1..]);
      PresentKeysSorted(entries, keys[1..]);
      if HasKey(entries, keys[0]) {
        var r := [keys[0]] + rest;
        forall i, j | 0 <= i < j < |r| ensures LexLess(r[i], r[j]) {
          if i == 0 {
            assert r[j] in keys[1..];
            var k :| 0 <= k < |keys[1..]| && keys[1..][k] == r[j];
            assert keys[k + 1] == r[j];
          } else {
            assert r[i] == rest[i - 1] && r[j] == rest[j - 1];
          }
        }
      }
    }
  }

  lemma ChannelKeysSorted()
    ensures SortedStrings(ChannelKeys)
  {
    assert LexLess("bottom_width", "channel_slope");
    assert LexLess("bottom_width", "manning_n");
    assert LexLess("bottom_width", "rating_curve");
    assert LexLess("channel_slope", "manning_n");
    assert LexLess("channel_slope", "rating_curve");
    assert LexLess("manning_n", "rating_curve");
  }

  /** A tailwater entry naming any channel field is refused, and the message lists exactly the
      fields present, in sorted order. */
  lemma TailwaterChannelFieldsRefused(entries: seq<(string, PyValue)>, render: PyValue -> string)
    requires Get(entries, "type", PNone).PNone?
    requires exists k :: k in ChannelKeys && HasKey(entries, k)
    ensures var present := PresentKeys(entries, ChannelKeys);
      && ParseTailwater(PDict(entries), render) == Err(UnsupportedTailwaterFields(Join(", ", present)))
      && SortedStrings(present)
      && forall k :: k in present <==> k in ChannelKeys && HasKey(entries, k)
  {
    ChannelKeysSorted();
    PresentKeysSorted(entries, ChannelKeys);
    var k :| k in ChannelKeys && HasKey(entries, k);
    assert k in PresentKeys(entries, ChannelKeys);
  }

  /** A requested type other than CONSTANT is refused by name, before the fields are looked at. */
  lemma TailwaterTypeRefused(entries: seq<(string, PyValue)>, t: TailwaterType, render: PyValue -> string)
    requires !Get(entries, "type", PNone).PNone?
    requires ParseTailwaterType(Get(entries, "type", PNone), render) == Ok(t) && t != Constant
    ensures ParseTailwater(PDict(entries), render) == Err(UnsupportedTailwaterType(t.Name()))
  {
  }

  /** A crossing is refused when its roadway entry is missing or names no surface. */
  lemma RoadwaySurfaceMandatory(entries: seq<(string, PyValue)>, render: PyValue -> string)
    requires var road := Get(entries, "roadway", PDict([])); road.PDict? ==> !HasKey(road.entries, "surface")
    ensures ParseCrossing(PDict(entries), render).Err?
  {
    RoadwayParsed(Get(entries, "roadway", PDict([])), render);
    CrossingParsed(PDict(entries), render);
  }

  /** An empty configuration loads as an empty English project. */
  lemma EmptyConfig(render: PyValue -> string)
    ensures ProjectFromMapping([], render) == Ok(Projects.ProjectValue("", "", "", English, 0, []))
  {
    NormalizedText("EN", "EN", render);
    assert ParseHeader([], render) == Ok(Header("", "", "", English, 0));
  }

  /** A min-max-increment flow never loads. */
  lemma IncrementFlowRefused(entries: seq<(string, PyValue)>, render: PyValue -> string)
    requires MethodText(entries, render) == MinMaxIncrement.Value()
    ensures ParseFlow(PDict(entries), render).Err?
  {
  }

  /** Without a "method" key the flow is min-design-max, read from its three scalars. */
  lemma FlowDefaultsToRange(entries: seq<(string, PyValue)>, render: PyValue -> string)
    requires !HasKey(entries, "method")
    ensures var r := ParseFlow(PDict(entries), render);
      r.Ok? ==> r.value.flowMethod == MinDesignMax
  {
    GetSpec(entries, "method", PStr(MinDesignMax.Value()));
  }
}
