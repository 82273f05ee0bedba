/** The roadway over a crossing: its width, cross-section points and surface. */
module Roadways {
  import opened Wrappers
  import opened Text
  import opened PyValues
  import opened Enums
  import opened Base

  datatype RoadwayValue = RoadwayValue(
    width: real,
    shape: int,
    surface: RoadwaySurface,
    stations: seq<real>,
    elevations: seq<real>)

  const DefaultRoadway: RoadwayValue := RoadwayValue(0.0, 1, Paved, [], [])

  /** `points()`: stations paired with elevations, as far as both lists go. */
  function Points(r: RoadwayValue): (p: seq<(real, real)>)
    ensures |p| == if |r.stations| <= |r.elevations| then |r.stations| else |r.elevations|
    ensures forall i :: 0 <= i < |p| ==> p[i] == (r.stations[i], r.elevations[i])
  {
    var n := if |r.stations| <= |r.elevations| then |r.stations| else |r.elevations|;
    seq(n, i requires 0 <= i < n => (r.stations[i], r.elevations[i]))
  }

  const WidthError: string := "Roadway width must be > 0."
  const TooFewPoints: string := "Provide at least two roadway stations/elevations."
  const CountMismatch: string := "Stations and elevations counts must match."

  /** The profile the validator accepts. */
  predicate RoadwayValid(r: RoadwayValue) {
    r.width > 0.0 && |r.stations| >= 2 && |r.stations| == |r.elevations|
  }

  /** `validate(prefix)`: each of the three checks reports its own message, in order. */
  function Validate(r: RoadwayValue, prefix: string): (errors: seq<string>)
    ensures (prefix + WidthError in errors) <== r.width <= 0.0
    ensures (prefix + TooFewPoints in errors) <== |r.stations| < 2 || |r.elevations| < 2
    ensures (prefix + CountMismatch in errors) <== |r.stations| != |r.elevations|
    ensures errors == [] <==> RoadwayValid(r)
    ensures forall e :: e in errors ==> StartsWith(e, prefix)
    ensures |errors| <= 3
  {
    (if r.width <= 0.0 then [prefix + WidthError] else [])
    + (if |r.stations| < 2 || |r.elevations| < 2 then [prefix + TooFewPoints] else [])
    + (if |r.stations| != |r.elevations| then [prefix + CountMismatch] else [])
  }

  const NoElevations: string := "Roadway elevations are required before computing crest elevation."

  /** `crest_elevation()`: the lowest roadway elevation; an error when there are none. */
  function Crest(r: RoadwayValue): (c: Result<real>)
    ensures r.elevations == [] <==> c.Err?
    ensures c.Err? ==> c.msg == NoElevations
    ensures c.Ok? ==> c.value in r.elevations
    ensures c.Ok? ==> forall i :: 0 <= i < |r.elevations| ==> c.value <= r.elevations[i]
  {
    if r.elevations == [] then Err(NoElevations) else Ok(MinOf(r.elevations))
  }

  /** `min(values)` */
  function MinOf(v: seq<real>): (m: real)
    requires v != []
    ensures m in v && forall i :: 0 <= i < |v| ==> m <= v[i]
  {
    if |v| == 1 then v[0]
    else
      var rest := MinOf(v[1..]);
      assert forall i :: 1 <= i < |v| ==> v[i] == v[1..][i - 1];
      if v[0] <= rest then v[0] else rest
  }

  /** The profile after `add_point(station, elevation)`. */
  function WithPoint(r: RoadwayValue, station: real, elevation: real): RoadwayValue {
    r.(stations := r.stations + [station], elevations := r.elevations + [elevation])
  }

  /** `add_point` keeps the difference between the two list lengths, adds the pair as the last
      point when the lists were aligned, and never raises the crest. */
  lemma AddPointKeepsShape(r: RoadwayValue, station: real, elevation: real)
    ensures var s := WithPoint(r, station, elevation);
      |s.stations| - |s.elevations| == |r.stations| - |r.elevations|
      && (|r.stations| == |r.elevations| ==> Points(s) == Points(r) + [(station, elevation)])
      && Crest(s).Ok?
      && (Crest(r).Ok? ==> Crest(s).value <= Crest(r).value)
      && Crest(s).value <= elevation
  {
    var s := WithPoint(r, station, elevation);
    assert s.elevations[|s.elevations| - 1] == elevation;
    if Crest(r).Ok? {
      var c := Crest(r).value;
      var k :| 0 <= k < |r.elevations| && r.elevations[k] == c;
      assert s.elevations[k] == c;
    }
  }

  class RoadwayProfile {
    var width: real
    var shape: int
    var surface: RoadwaySurface
    var stations: seq<real>
    var elevations: seq<real>

    function Value(): RoadwayValue
      reads this
    {
      RoadwayValue(width, shape, surface, stations, elevations)
    }

    constructor ()
      ensures Value() == DefaultRoadway
    {
      width, shape, surface := 0.0, 1, Paved;
      stations, elevations := [], [];
    }

    /** `add_point(station, elevation)`: one station and one elevation appended. */
    method AddPoint(station: real, elevation: real)
      modifies this
      ensures Value() == WithPoint(old(Value()), station, elevation)
    {
      stations := stations + [station];
      elevations := elevations + [elevation];
    }
  }

  // ---------------------------------------------------------------------------------------
  // Dictionaries
  // ---------------------------------------------------------------------------------------

  function DictEntries(r: RoadwayValue): seq<(string, PyValue)> {
    [("width", PFloat(r.width)),
     ("shape", PInt(r.shape)),
     ("surface", PStr(r.surface.Name())),
     ("stations", PList(FloatItems(r.stations))),
     ("elevations", PList(FloatItems(r.elevations)))]
  }

  /** `to_dict()` */
  function ToDict(r: RoadwayValue): PyValue {
    PDict(DictEntries(r))
  }

  /** `from_dict(data)`: missing fields take the defaults (shape 1, a paved surface). */
  function FromDict(data: seq<(string, PyValue)>): (r: Result<RoadwayValue>)
    ensures data == [] ==> r == Ok(DefaultRoadway)
  {
    var width :- ToFloat(Get(data, "width", PFloat(0.0)));
    var shape :- ToInt(Get(data, "shape", PInt(1)));
    var surface :- CoerceSurface(Get(data, "surface", PNone), Paved);
    var stations :- FloatsOf(Items(NormalizeSequence(Get(data, "stations", PNone))));
    var elevations :- FloatsOf(Items(NormalizeSequence(Get(data, "elevations", PNone))));
    Ok(RoadwayValue(width, shape, surface, stations, elevations))
  }

  /** Every field of `to_dict`'s output is found under its key. */
  lemma DictGets(r: RoadwayValue)
    ensures var d := DictEntries(r);
      Get(d, "width", PFloat(0.0)) == PFloat(r.width)
      && Get(d, "shape", PInt(1)) == PInt(r.shape)
      && Get(d, "surface", PNone) == PStr(r.surface.Name())
      && Get(d, "stations", PNone) == PList(FloatItems(r.stations))
      && Get(d, "elevations", PNone) == PList(FloatItems(r.elevations))
  {
    var d := DictEntries(r);
    assert Get(d, "width", PFloat(0.0)) == PFloat(r.width) by { GetAt(d, 0, "width", PFloat(0.0)); }
    assert Get(d, "shape", PInt(1)) == PInt(r.shape) by { GetAt(d, 1, "shape", PInt(1)); }
    assert Get(d, "surface", PNone) == PStr(r.surface.Name()) by { GetAt(d, 2, "surface", PNone); }
    assert Get(d, "stations", PNone) == PList(FloatItems(r.stations)) by { GetAt(d, 3, "stations", PNone); }
    assert Get(d, "elevations", PNone) == PList(FloatItems(r.elevations)) by { GetAt(d, 4, "elevations", PNone); }
  }

  /** `from_dict(to_dict(r))` reproduces width, shape, surface, stations and elevations. */
  lemma DictRoundTrip(r: RoadwayValue)
    ensures FromDict(DictEntries(r)) == Ok(r)
  {
    DictGets(r);
    SurfaceNameCoerces(r.surface);
    FloatsRoundTrip(r.stations);
    FloatsRoundTrip(r.elevations);
  }

  lemma SurfaceNameCoerces(s: RoadwaySurface)
    ensures CoerceSurface(PStr(s.Name()), Paved) == Ok(s)
  {
    var k := s.Code() - 1;
    assert RoadwaySurfaces[k] == s;
    SurfaceNamesDistinct();
    CoerceByName("RoadwaySurface", RoadwaySurfaces, SurfaceName, SurfaceValue, k, Paved);
  }
}
