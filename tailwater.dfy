/** The tailwater boundary condition of a crossing. Only a constant elevation is supported. */
module Tailwaters {
  import opened Wrappers
  import opened Text
  import opened PyValues
  import opened Enums
  import opened Base

  /** One rating-curve row: flow, elevation and velocity. */
  datatype RatingPoint = RatingPoint(flow: real, elevation: real, velocity: real)

  datatype TailwaterValue = TailwaterValue(
    twType: TailwaterType,
    bottomWidth: real,
    sideslope: real,
    channelSlope: real,
    manningN: real,
    constantElevation: real,
    invertElevation: real,
    ratingCurveEntries: int,
    ratingCurve: seq<RatingPoint>)

  const DefaultTailwater: TailwaterValue :=
    TailwaterValue(Constant, 0.0, 1.0, 0.0, 0.0, 0.0, 0.0, 6, [])

  function UnsupportedType(t: TailwaterType): string {
    "Tailwater type '" + t.Name() + "' is not supported by run-hy8. "
    + "Configure a constant tailwater elevation or use the HY-8 GUI."
  }

  const BelowInvert: string :=
    "Constant tailwater elevation must be greater than or equal to the invert elevation."

  /** The definition the validator accepts: a constant elevation not below the invert. */
  predicate TailwaterValid(t: TailwaterValue) {
    t.twType.Constant? && t.constantElevation >= t.invertElevation
  }

  /** `validate(prefix)`: a non-constant type is the only error reported for it; a constant
      elevation may equal the invert but not lie below it. */
  function Validate(t: TailwaterValue, prefix: string): (errors: seq<string>)
    ensures !t.twType.Constant? ==> errors == [prefix + UnsupportedType(t.twType)]
    ensures t.twType.Constant? ==>
      (errors == [] <==> t.constantElevation >= t.invertElevation)
      && (errors != [] ==> errors == [prefix + BelowInvert])
    ensures errors == [] <==> TailwaterValid(t)
    ensures forall e :: e in errors ==> StartsWith(e, prefix)
  {
    if !t.twType.Constant? then [prefix + UnsupportedType(t.twType)]
    else if t.constantElevation < t.invertElevation then [prefix + BelowInvert]
    else []
  }

  /** The definition after `set_constant(elevation=..., invert=...)`. */
  function WithConstant(t: TailwaterValue, elevation: real, invert: Option<real>): TailwaterValue {
    t.(twType := Constant, constantElevation := elevation,
       invertElevation := if invert.Some? then invert.value else t.invertElevation)
  }

  /** After `set_constant` the tailwater validates exactly when the elevation is not below the
      invert in force, which is the old one when no invert is given. */
  lemma SetConstantValidates(t: TailwaterValue, elevation: real, invert: Option<real>)
    ensures var u := WithConstant(t, elevation, invert);
      u.twType == Constant && u.constantElevation == elevation
      && (invert.None? ==> u.invertElevation == t.invertElevation)
      && (Validate(u, "") == [] <==>
          elevation >= (if invert.Some? then invert.value else t.invertElevation))
  {
  }

  class TailwaterDefinition {
    var twType: TailwaterType
    var bottomWidth: real
    var sideslope: real
    var channelSlope: real
    var manningN: real
    var constantElevation: real
    var invertElevation: real
    var ratingCurveEntries: int
    var ratingCurve: seq<RatingPoint>

    function Value(): TailwaterValue
      reads this
    {
      TailwaterValue(twType, bottomWidth, sideslope, channelSlope, manningN, constantElevation,
                     invertElevation, ratingCurveEntries, ratingCurve)
    }

    constructor ()
      ensures Value() == DefaultTailwater
    {
      twType := Constant;
      bottomWidth, sideslope, channelSlope, manningN := 0.0, 1.0, 0.0, 0.0;
      constantElevation, invertElevation := 0.0, 0.0;
      ratingCurveEntries := 6;
      ratingCurve := [];
    }

    /** `set_constant(elevation=..., invert=...)`: the invert changes only when one is given. */
    method SetConstant(elevation: real, invert: Option<real>)
      modifies this
      ensures Value() == WithConstant(old(Value()), elevation, invert)
    {
      twType := Constant;
      constantElevation := elevation;
      if invert.Some? {
        invertElevation := invert.value;
      }
    }

    /** `rating_curve_rows()`: a copy of the rating curve. */
    method RatingCurveRows() returns (rows: seq<RatingPoint>)
      ensures rows == ratingCurve
    {
      rows := ratingCurve;
    }
  }

  // ---------------------------------------------------------------------------------------
  // Dictionaries
  // ---------------------------------------------------------------------------------------

  /** Whether `from_dict` takes a rating-curve entry: a non-string sequence of length >= 3. */
  predicate IsCurveEntry(v: PyValue) {
    IsSequence(v) && |Items(v)| >= 3
  }

  /** The entries `from_dict` keeps, each cut to its first three items. */
  function KeptEntries(items: seq<PyValue>): (r: seq<seq<PyValue>>)
    ensures |r| <= |items|
    ensures forall i :: 0 <= i < |r| ==> |r[i]| == 3
  {
    if items == [] then []
    else if IsCurveEntry(items[0]) then [Items(items[0])[..3]] + KeptEntries(items[1..])
    else KeptEntries(items[1..])
  }

  /** The rating curve `from_dict` builds: each kept entry's three items through `float()`, in
      order; the first conversion that fails is the error. */
  function CurvePoints(items: seq<PyValue>): Result<seq<RatingPoint>> {
    if items == [] then Ok([])
    else if !IsCurveEntry(items[0]) then CurvePoints(items[1..])
    else
      var e := Items(items[0]);
      var a :- ToFloat(e[0]);
      var b :- ToFloat(e[1]);
      var c :- ToFloat(e[2]);
      var rest :- CurvePoints(items[1..]);
      Ok([RatingPoint(a, b, c)] + rest)
  }

  /** A successfully read curve has one point per kept entry, made of that entry's three items. */
  lemma {:induction false} CurvePointsSpec(items: seq<PyValue>)
    ensures var r := CurvePoints(items);
      r.Ok? ==> (|r.value| == |KeptEntries(items)|
                 && forall i :: 0 <= i < |r.value| ==>
                      var e := KeptEntries(items)[i];
                      ToFloat(e[0]) == Ok(r.value[i].flow) && ToFloat(e[1]) == Ok(r.value[i].elevation)
                      && ToFloat(e[2]) == Ok(r.value[i].velocity))
    decreases |items|
  {
    if items != [] {
      CurvePointsSpec(items[1..]);
      var r := CurvePoints(items);
      if IsCurveEntry(items[0]) && r.Ok? {
        var rest := CurvePoints(items[1..]).value;
        var kept := KeptEntries(items);
        assert kept == [Items(items[0])[..3]] + KeptEntries(items[1..]);
        forall i | 0 <= i < |r.value|
          ensures ToFloat(kept[i][0]) == Ok(r.value[i].flow) && ToFloat(kept[i][1]) == Ok(r.value[i].elevation)
            && ToFloat(kept[i][2]) == Ok(r.value[i].velocity)
        {
          if i > 0 {
            assert r.value[i] == rest[i - 1] && kept[i] == KeptEntries(items[1..])[i - 1];
          }
        }
      }
    }
  }

  /** Entries that are not sequences, strings, or too short are dropped. */
  lemma {:induction false} ShortEntriesDropped(items: seq<PyValue>)
    requires forall i :: 0 <= i < |items| ==> !IsCurveEntry(items[i])
    ensures CurvePoints(items) == Ok([])
    decreases |items|
  {
    if items != [] {
      ShortEntriesDropped(items[1..]);
    }
  }

  function PointItem(p: RatingPoint): PyValue {
    PTuple([PFloat(p.flow), PFloat(p.elevation), PFloat(p.velocity)])
  }

  function PointItems(points: seq<RatingPoint>): (r: seq<PyValue>)
    ensures |r| == |points| && forall i :: 0 <= i < |r| ==> r[i] == PointItem(points[i])
  {
    seq(|points|, i requires 0 <= i < |points| => PointItem(points[i]))
  }

  /** The entries `to_dict` builds. */
  function DictEntries(t: TailwaterValue): seq<(string, PyValue)> {
    [("type", PStr(t.twType.Name())),
     ("bottom_width", PFloat(t.bottomWidth)),
     ("sideslope", PFloat(t.sideslope)),
     ("channel_slope", PFloat(t.channelSlope)),
     ("manning_n", PFloat(t.manningN)),
     ("constant_elevation", PFloat(t.constantElevation)),
     ("invert_elevation", PFloat(t.invertElevation)),
     ("rating_curve_entries", PInt(t.ratingCurveEntries)),
     ("rating_curve", PList(PointItems(t.ratingCurve)))]
  }

  /** `to_dict()` */
  function ToDict(t: TailwaterValue): PyValue {
    PDict(DictEntries(t))
  }

  /** `from_dict(data)`: missing fields take the defaults (a constant tailwater, side slope 1.0,
      six rating-curve entries). */
  function FromDict(data: seq<(string, PyValue)>): (r: Result<TailwaterValue>)
    ensures data == [] ==> r == Ok(DefaultTailwater)
  {
    var curve :- CurvePoints(Items(NormalizeSequence(Get(data, "rating_curve", PNone))));
    var twType :- CoerceTailwaterType(Get(data, "type", PNone), Constant);
    var bottomWidth :- ToFloat(Get(data, "bottom_width", PFloat(0.0)));
    var sideslope :- ToFloat(Get(data, "sideslope", PFloat(1.0)));
    var channelSlope :- ToFloat(Get(data, "channel_slope", PFloat(0.0)));
    var manningN :- ToFloat(Get(data, "manning_n", PFloat(0.0)));
    var constantElevation :- ToFloat(Get(data, "constant_elevation", PFloat(0.0)));
    var invertElevation :- ToFloat(Get(data, "invert_elevation", PFloat(0.0)));
    var entries :- ToInt(Get(data, "rating_curve_entries", PInt(6)));
    Ok(TailwaterValue(twType, bottomWidth, sideslope, channelSlope, manningN, constantElevation,
                      invertElevation, entries, curve))
  }

  lemma {:induction false} CurveRoundTrip(points: seq<RatingPoint>)
    ensures CurvePoints(PointItems(points)) == Ok(points)
    decreases |points|
  {
    if points != [] {
      CurveRoundTrip(points[1..]);
      assert PointItems(points)[1..] == PointItems(points[1..]);
      assert [points[0]] + points[1..] == points;
    }
  }

  /** The scalar fields of `to_dict`'s output are found under their keys. */
  lemma DictGetsScalars(t: TailwaterValue)
    ensures var d := DictEntries(t);
      Get(d, "bottom_width", PFloat(0.0)) == PFloat(t.bottomWidth)
      && Get(d, "sideslope", PFloat(1.0)) == PFloat(t.sideslope)
      && Get(d, "channel_slope", PFloat(0.0)) == PFloat(t.channelSlope)
      && Get(d, "manning_n", PFloat(0.0)) == PFloat(t.manningN)
  {
    var d := DictEntries(t);
    assert Get(d, "bottom_width", PFloat(0.0)) == PFloat(t.bottomWidth) by { GetAt(d, 1, "bottom_width", PFloat(0.0)); }
    assert Get(d, "sideslope", PFloat(1.0)) == PFloat(t.sideslope) by { GetAt(d, 2, "sideslope", PFloat(1.0)); }
    assert Get(d, "channel_slope", PFloat(0.0)) == PFloat(t.channelSlope) by { GetAt(d, 3, "channel_slope", PFloat(0.0)); }
    assert Get(d, "manning_n", PFloat(0.0)) == PFloat(t.manningN) by { GetAt(d, 4, "manning_n", PFloat(0.0)); }
  }

  /** The type, the elevations and the rating curve of `to_dict`'s output are found under their keys. */
  lemma DictGetsRest(t: TailwaterValue)
    ensures var d := DictEntries(t);
      Get(d, "type", PNone) == PStr(t.twType.Name())
      && Get(d, "constant_elevation", PFloat(0.0)) == PFloat(t.constantElevation)
      && Get(d, "invert_elevation", PFloat(0.0)) == PFloat(t.invertElevation)
      && Get(d, "rating_curve_entries", PInt(6)) == PInt(t.ratingCurveEntries)
      && Get(d, "rating_curve", PNone) == PList(PointItems(t.ratingCurve))
  {
    var d := DictEntries(t);
    assert Get(d, "type", PNone) == PStr(t.twType.Name()) by { GetAt(d, 0, "type", PNone); }
    assert Get(d, "constant_elevation", PFloat(0.0)) == PFloat(t.constantElevation) by { GetAt(d, 5, "constant_elevation", PFloat(0.0)); }
    assert Get(d, "invert_elevation", PFloat(0.0)) == PFloat(t.invertElevation) by { GetAt(d, 6, "invert_elevation", PFloat(0.0)); }
    assert Get(d, "rating_curve_entries", PInt(6)) == PInt(t.ratingCurveEntries) by { GetAt(d, 7, "rating_curve_entries", PInt(6)); }
    assert Get(d, "rating_curve", PNone) == PList(PointItems(t.ratingCurve)) by { GetAt(d, 8, "rating_curve", PNone); }
  }

  /** `from_dict(to_dict(t))` reproduces the definition. */
  lemma DictRoundTrip(t: TailwaterValue)
    ensures FromDict(DictEntries(t)) == Ok(t)
  {
    CurveRoundTrip(t.ratingCurve);
    TypeNameCoerces(t.twType);
    DictGetsScalars(t);
    DictGetsRest(t);
  }

  lemma TypeNameCoerces(t: TailwaterType)
    ensures CoerceTailwaterType(PStr(t.Name()), Constant) == Ok(t)
  {
    var k := t.Code() - 1;
    assert TailwaterTypes[k] == t;
    TailwaterTypeNamesDistinct();
    CoerceByName("TailwaterType", TailwaterTypes, TailwaterTypeName, TailwaterTypeValue, k, Constant);
  }
}
