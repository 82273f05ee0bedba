/** A culvert barrel: its geometry, material, inlet configuration and inverts. */
module Barrels {
  import opened Wrappers
  import opened Text
  import opened PyValues
  import opened Enums

  datatype BarrelValue = BarrelValue(
    name: string,
    span: real,
    rise: real,
    shape: CulvertShape,
    material: CulvertMaterial,
    numberOfBarrels: int,
    inletInvertStation: real,
    inletInvertElevation: real,
    outletInvertStation: real,
    outletInvertElevation: real,
    roadwayStation: real,
    inletType: InletType,
    inletEdgeType: InletEdgeType,
    inletEdgeType71: InletEdgeType71,
    improvedInletEdgeType: ImprovedInletEdgeType,
    barrelSpacing: Option<real>,
    notes: string,
    manningNTop: Option<real>,
    manningNBottom: Option<real>)

  /** A barrel with the given name and every other field at its default. */
  function DefaultBarrel(name: string): BarrelValue {
    BarrelValue(name, 0.0, 0.0, Circle, Concrete, 1, 0.0, 0.0, 0.0, 0.0, 0.0,
                Straight, ThinEdgeProjecting, Code0, NoImprovement, None, "", None, None)
  }

  const SpanError: string := "Culvert span must be greater than zero."
  const RiseError: string := "Culvert rise must be greater than zero."
  const BoxRiseError: string := "Box culverts must include a rise."
  const CountError: string := "Number of barrels must be >= 1."

  /** The barrel the validator accepts. */
  predicate BarrelValid(b: BarrelValue) {
    b.span > 0.0 && b.rise > 0.0 && b.numberOfBarrels >= 1
  }

  /** `validate(prefix)`: the rise is checked for every shape, and a box without a rise gets a
      second, box-specific message. */
  function Validate(b: BarrelValue, prefix: string): (errors: seq<string>)
    ensures (prefix + SpanError in errors) <== b.span <= 0.0
    ensures (prefix + RiseError in errors) <== b.rise <= 0.0
    ensures (prefix + BoxRiseError in errors) <== b.shape.Box? && b.rise <= 0.0
    ensures (prefix + CountError in errors) <== b.numberOfBarrels <= 0
    ensures errors == [] <==> BarrelValid(b)
    ensures forall e :: e in errors ==> StartsWith(e, prefix)
  {
    (if b.span <= 0.0 then [prefix + SpanError] else [])
    + (if b.rise <= 0.0 then [prefix + RiseError] else [])
    + (if b.shape.Box? && b.rise <= 0.0 then [prefix + BoxRiseError] else [])
    + (if b.numberOfBarrels <= 0 then [prefix + CountError] else [])
  }

  /** `manning_values()`: Manning's n for the top and bottom of the barrel by material. */
  function ManningValues(b: BarrelValue): (n: (real, real))
    ensures n.0 == n.1 && n.0 > 0.0
    ensures b.material.CorrugatedSteel? <==> n.0 == 0.024
    ensures !b.material.CorrugatedSteel? <==> n.0 == 0.012
  {
    if b.material.CorrugatedSteel? then (0.024, 0.024) else (0.012, 0.012)
  }

  // ---------------------------------------------------------------------------------------
  // Dictionaries
  // ---------------------------------------------------------------------------------------

  /** An optional float as a loaded value. */
  function OptionalItem(x: Option<real>): PyValue {
    if x.Some? then PFloat(x.value) else PNone
  }

  /** `float(data[key]) if data.get(key) is not None else None` */
  function OptionalFloat(v: PyValue): (r: Result<Option<real>>)
    ensures v.PNone? <==> r == Ok(None)
    ensures r.Ok? && r.value.Some? ==> ToFloat(v) == Ok(r.value.value)
  {
    if v.PNone? then Ok(None)
    else
      var x :- ToFloat(v);
      Ok(Some(x))
  }

  lemma OptionalRoundTrip(x: Option<real>)
    ensures OptionalFloat(OptionalItem(x)) == Ok(x)
  {
  }

  /** The keys `to_dict` writes, in order. */
  const DictKeys: seq<string> :=
    ["name", "span", "rise", "shape", "material", "number_of_barrels",
     "inlet_invert_station", "inlet_invert_elevation", "outlet_invert_station", "outlet_invert_elevation",
     "roadway_station", "inlet_type", "inlet_edge_type", "inlet_edge_type71", "improved_inlet_edge_type",
     "barrel_spacing", "notes", "manning_n_top", "manning_n_bottom"]

  // The keys are compared in blocks of rows, to keep each comparison small.
  lemma KeysAfterFirstRows()
    ensures forall i, j :: 0 <= i < 5 && i < j < |DictKeys| ==> DictKeys[i] != DictKeys[j]
  {
  }

  lemma KeysAfterSecondRows()
    ensures forall i, j :: 5 <= i < 10 && i < j < |DictKeys| ==> DictKeys[i] != DictKeys[j]
  {
  }

  lemma KeysAfterThirdRows()
    ensures forall i, j :: 10 <= i < 15 && i < j < |DictKeys| ==> DictKeys[i] != DictKeys[j]
  {
  }

  lemma KeysAfterLastRows()
    ensures forall i, j :: 15 <= i < j < |DictKeys| ==> DictKeys[i] != DictKeys[j]
  {
  }

  lemma DictKeysDistinct()
    ensures DistinctKeys(DictKeys)
  {
    KeysAfterFirstRows();
    KeysAfterSecondRows();
    KeysAfterThirdRows();
    KeysAfterLastRows();
  }

  /** The values `to_dict` writes, in key order. */
  function DictItems(b: BarrelValue): (r: seq<PyValue>)
    ensures |r| == |DictKeys|
  {
    [PStr(b.name), PFloat(b.span), PFloat(b.rise), PStr(b.shape.Name()), PStr(b.material.Name()),
     PInt(b.numberOfBarrels), PFloat(b.inletInvertStation), PFloat(b.inletInvertElevation),
     PFloat(b.outletInvertStation), PFloat(b.outletInvertElevation), PFloat(b.roadwayStation),
     PStr(b.inletType.Name()), PStr(b.inletEdgeType.Name()), PStr(b.inletEdgeType71.Name()),
     PStr(b.improvedInletEdgeType.Name()), OptionalItem(b.barrelSpacing), PStr(b.notes),
     OptionalItem(b.manningNTop), OptionalItem(b.manningNBottom)]
  }

  function DictEntries(b: BarrelValue): seq<(string, PyValue)> {
    Zip(DictKeys, DictItems(b))
  }

  /** `to_dict()`: the enums are written by name. */
  function ToDict(b: BarrelValue): PyValue {
    PDict(DictEntries(b))
  }

  /** The barrel name as `from_dict` takes it: the stored value itself, "" when absent. */
  function NameOf(v: PyValue): (r: Result<string>)
    ensures v.PStr? ==> r == Ok(v.s)
  {
    if v.PStr? then Ok(v.s) else Err("a barrel name that is not a string is outside the model")
  }

  /** `from_dict(data)`: missing fields take the defaults; a missing or `None` spacing or Manning
      value stays `None`. */
  function FromDict(data: seq<(string, PyValue)>): (r: Result<BarrelValue>)
    ensures data == [] ==> r == Ok(DefaultBarrel(""))
  {
    var name :- NameOf(Get(data, "name", PStr("")));
    var span :- ToFloat(Get(data, "span", PFloat(0.0)));
    var rise :- ToFloat(Get(data, "rise", PFloat(0.0)));
    var shape :- CoerceShape(Get(data, "shape", PNone), Circle);
    var material :- CoerceMaterial(Get(data, "material", PNone), Concrete);
    var count :- ToInt(Get(data, "number_of_barrels", PInt(1)));
    var inletStation :- ToFloat(Get(data, "inlet_invert_station", PFloat(0.0)));
    var inletElevation :- ToFloat(Get(data, "inlet_invert_elevation", PFloat(0.0)));
    var outletStation :- ToFloat(Get(data, "outlet_invert_station", PFloat(0.0)));
    var outletElevation :- ToFloat(Get(data, "outlet_invert_elevation", PFloat(0.0)));
    var roadwayStation :- ToFloat(Get(data, "roadway_station", PFloat(0.0)));
    var inletType :- CoerceInletType(Get(data, "inlet_type", PNone), Straight);
    var edge :- CoerceInletEdgeType(Get(data, "inlet_edge_type", PNone), ThinEdgeProjecting);
    var edge71 :- CoerceInletEdgeType71(Get(data, "inlet_edge_type71", PNone), Code0);
    var improved :- CoerceImprovedInletEdgeType(Get(data, "improved_inlet_edge_type", PNone), NoImprovement);
    var spacing :- OptionalFloat(Get(data, "barrel_spacing", PNone));
    var notes :- StrOf(Get(data, "notes", PStr("")));
    var top :- OptionalFloat(Get(data, "manning_n_top", PNone));
    var bottom :- OptionalFloat(Get(data, "manning_n_bottom", PNone));
    Ok(BarrelValue(name, span, rise, shape, material, count, inletStation, inletElevation,
                   outletStation, outletElevation, roadwayStation, inletType, edge, edge71,
                   improved, spacing, notes, top, bottom))
  }

  /** `str(v)` as a result. */
  function StrOf(v: PyValue): (r: Result<string>)
    ensures v.PStr? ==> r == Ok(v.s)
  {
    var s := ToStr(v);
    if s.Some? then Ok(s.value) else Err("str() of a float or container is outside the model")
  }

  /** Every field of `to_dict`'s output is found under its key. */
  lemma DictGets(b: BarrelValue)
    ensures var d := DictEntries(b);
      Get(d, "name", PStr("")) == PStr(b.name)
      && Get(d, "span", PFloat(0.0)) == PFloat(b.span)
      && Get(d, "rise", PFloat(0.0)) == PFloat(b.rise)
      && Get(d, "shape", PNone) == PStr(b.shape.Name())
      && Get(d, "material", PNone) == PStr(b.material.Name())
      && Get(d, "number_of_barrels", PInt(1)) == PInt(b.numberOfBarrels)
      && Get(d, "inlet_invert_station", PFloat(0.0)) == PFloat(b.inletInvertStation)
      && Get(d, "inlet_invert_elevation", PFloat(0.0)) == PFloat(b.inletInvertElevation)
      && Get(d, "outlet_invert_station", PFloat(0.0)) == PFloat(b.outletInvertStation)
      && Get(d, "outlet_invert_elevation", PFloat(0.0)) == PFloat(b.outletInvertElevation)
      && Get(d, "roadway_station", PFloat(0.0)) == PFloat(b.roadwayStation)
      && Get(d, "inlet_type", PNone) == PStr(b.inletType.Name())
      && Get(d, "inlet_edge_type", PNone) == PStr(b.inletEdgeType.Name())
      && Get(d, "inlet_edge_type71", PNone) == PStr(b.inletEdgeType71.Name())
      && Get(d, "improved_inlet_edge_type", PNone) == PStr(b.improvedInletEdgeType.Name())
      && Get(d, "barrel_spacing", PNone) == OptionalItem(b.barrelSpacing)
      && Get(d, "notes", PStr("")) == PStr(b.notes)
      && Get(d, "manning_n_top", PNone) == OptionalItem(b.manningNTop)
      && Get(d, "manning_n_bottom", PNone) == OptionalItem(b.manningNBottom)
  {
    var v := DictItems(b);
    DictKeysDistinct();
    GetZip(DictKeys, v, 0, PStr(""));
    GetZip(DictKeys, v, 1, PFloat(0.0));
    GetZip(DictKeys, v, 2, PFloat(0.0));
    GetZip(DictKeys, v, 3, PNone);
    GetZip(DictKeys, v, 4, PNone);
    GetZip(DictKeys, v, 5, PInt(1));
    GetZip(DictKeys, v, 6, PFloat(0.0));
    GetZip(DictKeys, v, 7, PFloat(0.0));
    GetZip(DictKeys, v, 8, PFloat(0.0));
    GetZip(DictKeys, v, 9, PFloat(0.0));
    GetZip(DictKeys, v, 10, PFloat(0.0));
    GetZip(DictKeys, v, 11, PNone);
    GetZip(DictKeys, v, 12, PNone);
    GetZip(DictKeys, v, 13, PNone);
    GetZip(DictKeys, v, 14, PNone);
    GetZip(DictKeys, v, 15, PNone);
    GetZip(DictKeys, v, 16, PStr(""));
    GetZip(DictKeys, v, 17, PNone);
    GetZip(DictKeys, v, 18, PNone);
  }

  /** `from_dict(to_dict(b))` reproduces the barrel: the enum names map back to the same
      members and absent optional values stay absent. */
  lemma DictRoundTrip(b: BarrelValue)
    ensures FromDict(DictEntries(b)) == Ok(b)
  {
    DictGets(b);
    ShapeMaterialNamesRoundTrip(b.shape, b.material, Circle, Concrete);
    InletTypeNameCoerces(b.inletType);
    InletEdgeTypeNameCoerces(b.inletEdgeType);
    InletEdgeType71NameCoerces(b.inletEdgeType71);
    ImprovedInletEdgeTypeNameCoerces(b.improvedInletEdgeType);
    OptionalRoundTrip(b.barrelSpacing);
    OptionalRoundTrip(b.manningNTop);
    OptionalRoundTrip(b.manningNBottom);
  }
}
