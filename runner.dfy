/** The reference runner (`tests/hy8runner/hy8_runner.py`): a list of crossings, each holding a
    list of barrels, edited through setters that settle on the last element when given no index
    or one past the end. Neither list is ever left empty. */
module Runner {
  import opened Wrappers
  import opened Text
  import opened RunnerOutput
  import opened RunnerFlows
  import opened RunnerCulverts
  import opened RunnerCrossings

  const BasenameExe: string := "HY864.exe"
  const Hy8Extension: string := ".hy8"

  // ---------------------------------------------------------------------------------------
  // Indices
  // ---------------------------------------------------------------------------------------

  /** Python's `xs[i]` on a list of length `n`: a negative index counts from the end, and one
      before the front raises `IndexError` (`None` here). */
  function PyIndex(i: int, n: nat): (k: Option<nat>)
    ensures k.Some? <==> -(n as int) <= i < n
    ensures k.Some? ==> k.value < n && (k.value == i || k.value == n + i)
  {
    if 0 <= i < n then Some(i as nat) else if -(n as int) <= i < 0 then Some((n + i) as nat) else None
  }

  /** The element a setter changes: `None`, or an index past the end, means the last one. */
  function Target(index: Option<int>, n: nat): (k: Option<nat>)
    ensures k.Some? ==> k.value < n
    ensures k.None? <==> n == 0 || (index.Some? && index.value < -(n as int))
    ensures n > 0 && (index.None? || index.value >= n) ==> k == Some(n - 1)
    ensures index.Some? && 0 <= index.value < n ==> k == Some(index.value)
  {
    var i := if index.None? || index.value >= n then n - 1 else index.value;
    PyIndex(i, n)
  }

  // ---------------------------------------------------------------------------------------
  // The lists
  // ---------------------------------------------------------------------------------------

  /** There is a crossing, and every crossing has a barrel. */
  predicate NeverEmpty(crossings: seq<RunnerCrossing>) {
    |crossings| > 0 && forall i :: 0 <= i < |crossings| ==> |crossings[i].culverts| > 0
  }

  /** `add_crossing`: a new crossing numbered after the ones there are. */
  function AddedCrossing(crossings: seq<RunnerCrossing>): seq<RunnerCrossing> {
    crossings + [NewCrossing(|crossings|)]
  }

  /** `delete_crossing(index)`, or `None` when the deletion raises. */
  function DeletedCrossing(crossings: seq<RunnerCrossing>, index: Option<int>): Option<seq<RunnerCrossing>> {
    match Target(index, |crossings|)
    case None => None
    case Some(k) =>
      var rest := crossings[..k] + crossings[k + 1..];
      Some(if rest == [] then AddedCrossing(rest) else rest)
  }

  /** `add_culvert_barrel(index_crossing)`: the index it returns and the crossings after, or
      `None` when it raises. An index past the end returns -1 and changes nothing. */
  function AddedBarrel(crossings: seq<RunnerCrossing>, index: Option<int>): Option<(int, seq<RunnerCrossing>)> {
    var i := if index.None? then |crossings| - 1 else index.value;
    if i >= |crossings| then Some((-1, crossings))
    else match PyIndex(i, |crossings|)
      case None => None
      case Some(k) =>
        var culverts := crossings[k].culverts;
        Some((|culverts|, crossings[k := crossings[k].(culverts := culverts + [NewBarrel(|culverts|)])]))
  }

  /** `delete_culvert_barrel(index_crossing, index_culvert)`, or `None` when it raises. An index
      past the end changes nothing; a crossing left without barrels gets a new one. */
  function DeletedBarrel(crossings: seq<RunnerCrossing>, indexCrossing: Option<int>, indexCulvert: Option<int>)
    : Option<seq<RunnerCrossing>>
  {
    var i := if indexCrossing.None? then |crossings| - 1 else indexCrossing.value;
    if i >= |crossings| then Some(crossings)
    else match PyIndex(i, |crossings|)
      case None => None
      case Some(k) =>
        var culverts := crossings[k].culverts;
        var j := if indexCulvert.None? then |culverts| - 1 else indexCulvert.value;
        if j >= |culverts| then Some(crossings)
        else match PyIndex(j, |culverts|)
          case None => None
          case Some(m) =>
            var rest := culverts[..m] + culverts[m + 1..];
            Some(crossings[k := crossings[k].(culverts := if rest == [] then [NewBarrel(0)] else rest)])
  }

  /** A crossing setter: the target crossing edited, or `None` when the index raises. */
  function Edited(crossings: seq<RunnerCrossing>, index: Option<int>, edit: RunnerCrossing -> RunnerCrossing)
    : Option<seq<RunnerCrossing>>
  {
    match Target(index, |crossings|)
    case None => None
    case Some(k) => Some(crossings[k := edit(crossings[k])])
  }

  /** A barrel setter: the target barrel of the target crossing edited, or `None` when an index
      raises. */
  function EditedBarrel(crossings: seq<RunnerCrossing>, indexCrossing: Option<int>, indexCulvert: Option<int>,
                        edit: RunnerBarrel -> RunnerBarrel): Option<seq<RunnerCrossing>>
  {
    match Target(indexCrossing, |crossings|)
    case None => None
    case Some(k) =>
      var culverts := crossings[k].culverts;
      match Target(indexCulvert, |culverts|)
      case None => None
      case Some(m) => Some(crossings[k := crossings[k].(culverts := culverts[m := edit(culverts[m])])])
  }

  /** A crossing index raises `IndexError` only below minus the length; larger ones pick the
      last crossing. */
  predicate IndexRaises<T>(items: seq<T>, index: Option<int>) {
    index.Some? && index.value < -|items|
  }

  /** The indices of a barrel setter raise: the crossing index does, or the barrel index does
      within the crossing it picks. */
  predicate BarrelIndexRaises(crossings: seq<RunnerCrossing>, indexCrossing: Option<int>, indexCulvert: Option<int>) {
    IndexRaises(crossings, indexCrossing)
    || (Target(indexCrossing, |crossings|).Some?
        && IndexRaises(crossings[Target(indexCrossing, |crossings|).value].culverts, indexCulvert))
  }

  /** What an operation that may raise leaves behind. */
  function Outcome(before: seq<RunnerCrossing>, after: Option<seq<RunnerCrossing>>): seq<RunnerCrossing> {
    if after.None? then before else after.value
  }

  // ---------------------------------------------------------------------------------------
  // What the list operations keep
  // ---------------------------------------------------------------------------------------

  /** `add_crossing` keeps the lists non-empty and returns the index of the new last crossing. */
  lemma AddCrossingKeeps(crossings: seq<RunnerCrossing>)
    requires NeverEmpty(crossings)
    ensures NeverEmpty(AddedCrossing(crossings))
    ensures |AddedCrossing(crossings)| - 1 == |crossings|
    ensures AddedCrossing(crossings)[..|crossings|] == crossings
  {
    assert |NewCrossing(|crossings|).culverts| == 1;
  }

  /** `delete_crossing` removes exactly the target crossing, and puts a new one back when that was
      the only one; it raises only for an index before the front. */
  lemma DeleteCrossingKeeps(crossings: seq<RunnerCrossing>, index: Option<int>)
    requires NeverEmpty(crossings)
    ensures var r := DeletedCrossing(crossings, index);
      (r.None? <==> index.Some? && index.value < -|crossings|)
      && (r.Some? ==> NeverEmpty(r.value))
      && (r.Some? && |crossings| == 1 ==> r.value == [NewCrossing(0)])
      && (r.Some? && |crossings| > 1 ==>
            var k := Target(index, |crossings|).value;
            r.value == crossings[..k] + crossings[k + 1..])
      && (index.None? && |crossings| > 1 ==> r == Some(crossings[..|crossings| - 1]))
  {
    var n := |crossings|;
    match Target(index, n)
    case None =>
    case Some(k) =>
      var rest := crossings[..k] + crossings[k + 1..];
      if rest == [] {
        assert |NewCrossing(0).culverts| == 1;
      } else {
        forall i | 0 <= i < |rest|
          ensures |rest[i].culverts| > 0
        {
          if i < k {
            assert rest[i] == crossings[i];
          } else {
            assert rest[i] == crossings[i + 1];
          }
        }
      }
      if index.None? {
        assert rest == crossings[..k];
      }
  }

  /** `add_culvert_barrel` appends one new barrel to the target crossing and returns its index,
      returns -1 with nothing changed for an index past the end, and raises only for an index
      before the front. */
  lemma AddBarrelKeeps(crossings: seq<RunnerCrossing>, index: Option<int>)
    requires NeverEmpty(crossings)
    ensures var r := AddedBarrel(crossings, index);
      (r.None? <==> index.Some? && index.value < -|crossings|)
      && (r.Some? ==> NeverEmpty(r.value.1) && |r.value.1| == |crossings|)
      && (index.Some? && index.value >= |crossings| ==> r == Some((-1, crossings)))
      && (r.Some? && r.value.0 != -1 ==>
            var k := Target(index, |crossings|).value;
            r.value.0 == |crossings[k].culverts|
            && r.value.1[k].culverts == crossings[k].culverts + [NewBarrel(r.value.0)]
            && (forall j :: 0 <= j < |crossings| && j != k ==> r.value.1[j] == crossings[j]))
  {
  }

  /** `delete_culvert_barrel` removes exactly the target barrel, puts a new one back in a crossing
      it empties, changes nothing for an index past the end, and raises only for an index before
      the front. */
  lemma DeleteBarrelKeeps(crossings: seq<RunnerCrossing>, indexCrossing: Option<int>, indexCulvert: Option<int>)
    requires NeverEmpty(crossings)
    ensures var r := DeletedBarrel(crossings, indexCrossing, indexCulvert);
      (r.Some? ==> NeverEmpty(r.value) && |r.value| == |crossings|)
      && (indexCrossing.Some? && indexCrossing.value >= |crossings| ==> r == Some(crossings))
      && (indexCrossing.Some? && indexCrossing.value < -|crossings| ==> r.None?)
  {
    var i := if indexCrossing.None? then |crossings| - 1 else indexCrossing.value;
    if i < |crossings| && PyIndex(i, |crossings|).Some? {
      var k := PyIndex(i, |crossings|).value;
      var culverts := crossings[k].culverts;
      var j := if indexCulvert.None? then |culverts| - 1 else indexCulvert.value;
      if j < |culverts| && PyIndex(j, |culverts|).Some? {
        var m := PyIndex(j, |culverts|).value;
        var rest := culverts[..m] + culverts[m + 1..];
        ReplacedKeeps(crossings, k, if rest == [] then [NewBarrel(0)] else rest);
      }
    }
  }

  /** Giving one crossing a non-empty list of barrels keeps the lists non-empty. */
  lemma ReplacedKeeps(crossings: seq<RunnerCrossing>, k: nat, culverts: seq<RunnerBarrel>)
    requires NeverEmpty(crossings) && k < |crossings| && |culverts| > 0
    ensures NeverEmpty(crossings[k := crossings[k].(culverts := culverts)])
  {
    var r := crossings[k := crossings[k].(culverts := culverts)];
    forall x | 0 <= x < |r|
      ensures |r[x].culverts| > 0
    {
      if x != k {
        assert r[x] == crossings[x];
      }
    }
  }

  /** A setter changes the target crossing alone, and keeps the lists non-empty when its edit
      leaves the barrels alone. */
  lemma EditedKeeps(crossings: seq<RunnerCrossing>, index: Option<int>, edit: RunnerCrossing -> RunnerCrossing)
    requires NeverEmpty(crossings)
    requires forall c :: edit(c).culverts == c.culverts
    ensures var r := Edited(crossings, index, edit);
      (r.None? <==> index.Some? && index.value < -|crossings|)
      && (r.Some? ==>
            var k := Target(index, |crossings|).value;
            NeverEmpty(r.value) && |r.value| == |crossings| && r.value[k] == edit(crossings[k])
            && forall j :: 0 <= j < |crossings| && j != k ==> r.value[j] == crossings[j])
  {
    match Target(index, |crossings|)
    case None =>
    case Some(k) =>
      var r := crossings[k := edit(crossings[k])];
      assert |r[k].culverts| > 0;
  }

  /** A barrel setter changes the target barrel alone and keeps the lists non-empty. */
  lemma EditedBarrelKeeps(crossings: seq<RunnerCrossing>, indexCrossing: Option<int>, indexCulvert: Option<int>,
                          edit: RunnerBarrel -> RunnerBarrel)
    requires NeverEmpty(crossings)
    ensures var r := EditedBarrel(crossings, indexCrossing, indexCulvert, edit);
      (r.None? <==> (indexCrossing.Some? && indexCrossing.value < -|crossings|)
                    || (Target(indexCrossing, |crossings|).Some?
                        && indexCulvert.Some?
                        && indexCulvert.value < -|crossings[Target(indexCrossing, |crossings|).value].culverts|))
      && (r.Some? ==>
            var k := Target(indexCrossing, |crossings|).value;
            var m := Target(indexCulvert, |crossings[k].culverts|).value;
            NeverEmpty(r.value) && |r.value| == |crossings|
            && r.value[k].culverts[m] == edit(crossings[k].culverts[m])
            && |r.value[k].culverts| == |crossings[k].culverts|
            && (forall j :: 0 <= j < |crossings[k].culverts| && j != m ==> r.value[k].culverts[j] == crossings[k].culverts[j])
            && (forall j :: 0 <= j < |crossings| && j != k ==> r.value[j] == crossings[j]))
  {
    match Target(indexCrossing, |crossings|)
    case None =>
    case Some(k) =>
      var culverts := crossings[k].culverts;
      match Target(indexCulvert, |culverts|)
      case None =>
      case Some(m) =>
        var r := crossings[k := crossings[k].(culverts := culverts[m := edit(culverts[m])])];
        assert |r[k].culverts| > 0;
  }

  // ---------------------------------------------------------------------------------------
  // The setters' edits
  // ---------------------------------------------------------------------------------------

  /** `set_hy8_file`: ".hy8" is added unless the name already ends with it, in any case. */
  function WithHy8Extension(name: string): (r: string)
    ensures EndsWith(Lower(r), Hy8Extension)
    ensures EndsWith(Lower(name), Hy8Extension) ==> r == name
    ensures !EndsWith(Lower(name), Hy8Extension) ==> r == name + Hy8Extension
  {
    if EndsWith(Lower(name), Hy8Extension) then name
    else
      var r := name + Hy8Extension;
      assert Lower(r)[|r| - 4..] == Hy8Extension;
      r
  }

  /** Setting the file name twice is setting it once. */
  lemma Hy8ExtensionIdempotent(name: string)
    ensures WithHy8Extension(WithHy8Extension(name)) == WithHy8Extension(name)
  {
  }

  function Named(c: RunnerCrossing, name: string): RunnerCrossing {
    c.(name := name)
  }

  /** `set_discharge_min_design_max_flow`: the method and the three flows; the list stays. */
  function WithMinDesignMax(c: RunnerCrossing, flowMin: real, flowDesign: real, flowMax: real): (r: RunnerCrossing)
    ensures r.culverts == c.culverts
    ensures FlowDataValid(r.flow) <==> 0.0 <= flowMin < flowDesign < flowMax
    ensures ComputeListHalts(r.flow) && ComputedList(r.flow) == [flowMin, flowDesign, flowMax]
  {
    c.(flow := c.flow.(flowMethod := MinDesignMaxMethod, flowMin := flowMin, flowDesign := flowDesign, flowMax := flowMax))
  }

  /** `set_discharge_user_list_flow`: the method and a copy of the list. */
  function WithUserList(c: RunnerCrossing, flowList: seq<real>): (r: RunnerCrossing)
    ensures r.culverts == c.culverts
    ensures ComputeListHalts(r.flow) && ComputedList(r.flow) == flowList
  {
    c.(flow := c.flow.(flowMethod := UserDefinedMethod, flowList := flowList))
  }

  /** `set_discharge_min_max_inc_flow`: the method, the range and the increment, then
      `compute_list`, which returns only for a positive increment or an empty range. */
  function WithMinMaxIncrement(c: RunnerCrossing, flowMin: real, flowMax: real, flowIncrement: real): (r: RunnerCrossing)
    requires flowIncrement > 0.0 || flowMin > flowMax
    ensures r.culverts == c.culverts
    ensures r.flow.flowMethod == IncrementMethod
    ensures r.flow.flowMin == flowMin && r.flow.flowMax == flowMax && r.flow.flowIncrement == flowIncrement
    ensures r.flow.flowDesign == c.flow.flowDesign
    ensures r.flow.flowList == ComputedList(r.flow)
    ensures flowMin > flowMax <==> r.flow.flowList == []
    ensures flowMin <= flowMax ==> r.flow.flowList[0] == flowMin && Flows.StrictlyIncreasing(r.flow.flowList)
    ensures forall i :: 0 <= i < |r.flow.flowList| ==> flowMin <= r.flow.flowList[i] <= flowMax
  {
    var f := c.flow.(flowMethod := IncrementMethod, flowMin := flowMin, flowMax := flowMax, flowIncrement := flowIncrement);
    var r := c.(flow := ComputedFlow(f));
    assert forall i :: 0 <= i < |r.flow.flowList| ==> flowMin <= r.flow.flowList[i] <= flowMax by {
      if flowMin <= flowMax {
        IncrementFlowsSpan(flowMin, flowMax, flowIncrement);
        assert forall i :: 0 < i < |r.flow.flowList| ==> r.flow.flowList[0] < r.flow.flowList[i];
      }
    }
    assert flowMin <= flowMax ==>
      r.flow.flowList != [] && r.flow.flowList[0] == flowMin && Flows.StrictlyIncreasing(r.flow.flowList) by {
      if flowMin <= flowMax {
        IncrementFlowsSpan(flowMin, flowMax, flowIncrement);
      }
    }
    r
  }

  /** What the validator asks of a tailwater of the type set. */
  predicate TailwaterAccepted(c: RunnerCrossing) {
    && (c.twType == 1 ==> c.twBottomWidth > 0.0 && c.twChannelSlope > 0.0 && c.twManningN > 0.0 && c.twInvertElevation > 0.0)
    && (c.twType == 5 ==> |c.twRatingCurve| > 0)
    && (c.twType == 6 ==> c.twConstantElevation >= c.twInvertElevation)
  }

  /** `set_tw_rectangular`: type 1 with its channel. */
  function WithTwRectangular(c: RunnerCrossing, bottomWidth: real, channelSlope: real, manningN: real,
                             invertElevation: real): (r: RunnerCrossing)
    ensures r.culverts == c.culverts && r.twType == 1
    ensures TailwaterAccepted(r) <==> bottomWidth > 0.0 && channelSlope > 0.0 && manningN > 0.0 && invertElevation > 0.0
  {
    c.(twType := 1, twBottomWidth := bottomWidth, twChannelSlope := channelSlope, twManningN := manningN,
       twInvertElevation := invertElevation)
  }

  /** `set_tw_trapezoidal`: type 2, which the validator does not check. */
  function WithTwTrapezoidal(c: RunnerCrossing, bottomWidth: real, sideslope: real, channelSlope: real,
                             manningN: real, invertElevation: real): (r: RunnerCrossing)
    ensures r.culverts == c.culverts && r.twType == 2 && TailwaterAccepted(r)
  {
    c.(twType := 2, twBottomWidth := bottomWidth, twSideslope := sideslope, twChannelSlope := channelSlope,
       twManningN := manningN, twInvertElevation := invertElevation)
  }

  /** `set_tw_triangular`: type 3, which the validator does not check either. */
  function WithTwTriangular(c: RunnerCrossing, sideslope: real, channelSlope: real, manningN: real,
                            invertElevation: real): (r: RunnerCrossing)
    ensures r.culverts == c.culverts && r.twType == 3 && TailwaterAccepted(r)
  {
    c.(twType := 3, twSideslope := sideslope, twChannelSlope := channelSlope, twManningN := manningN,
       twInvertElevation := invertElevation)
  }

  /** `set_tw_constant`: type 6, accepted exactly when the constant is not below the invert. */
  function WithTwConstant(c: RunnerCrossing, invertElevation: real, constantElevation: real): (r: RunnerCrossing)
    ensures r.culverts == c.culverts && r.twType == 6
    ensures TailwaterAccepted(r) <==> constantElevation >= invertElevation
  {
    c.(twType := 6, twConstantElevation := constantElevation, twInvertElevation := invertElevation)
  }

  /** `set_tw_rating_curve`: type 5, accepted exactly when there is a row. */
  function WithTwRatingCurve(c: RunnerCrossing, invertElevation: real, ratingCurve: seq<seq<real>>): (r: RunnerCrossing)
    ensures r.culverts == c.culverts && r.twType == 5
    ensures TailwaterAccepted(r) <==> |ratingCurve| > 0
  {
    c.(twType := 5, twInvertElevation := invertElevation, twRatingCurve := ratingCurve)
  }

  /** What the validator asks of the roadway. */
  predicate RoadwayAccepted(c: RunnerCrossing) {
    c.roadwayWidth > 0.0 && |c.roadwayStations| >= 2 && |c.roadwayStations| == |c.roadwayElevations|
  }

  function WithRoadwayWidth(c: RunnerCrossing, width: real): (r: RunnerCrossing)
    ensures r.culverts == c.culverts
    ensures RoadwayAccepted(r) <==> width > 0.0 && |c.roadwayStations| >= 2 && |c.roadwayStations| == |c.roadwayElevations|
  {
    c.(roadwayWidth := width)
  }

  function WithRoadwaySurface(c: RunnerCrossing, surface: string): (r: RunnerCrossing)
    ensures r.culverts == c.culverts && (RoadwayAccepted(r) <==> RoadwayAccepted(c))
  {
    c.(roadwaySurface := surface)
  }

  /** `set_roadway_stations_and_elevations`: shape 2 with copies of both lists. */
  function WithStationsAndElevations(c: RunnerCrossing, stations: seq<real>, elevations: seq<real>): (r: RunnerCrossing)
    ensures r.culverts == c.culverts && r.roadwayShape == 2
    ensures RoadwayAccepted(r) <==> c.roadwayWidth > 0.0 && |stations| >= 2 && |stations| == |elevations|
  {
    c.(roadwayShape := 2, roadwayStations := stations, roadwayElevations := elevations)
  }

  /** `set_constant_roadway`: shape 1, two points from station 0 to the length at one elevation,
      so only the width can fail the roadway check. */
  function WithConstantRoadway(c: RunnerCrossing, length: real, elevation: real): (r: RunnerCrossing)
    ensures r.culverts == c.culverts && r.roadwayShape == 1
    ensures |r.roadwayStations| == |r.roadwayElevations| == 2
    ensures r.roadwayStations[0] == 0.0 && r.roadwayElevations[0] == r.roadwayElevations[1] == elevation
    ensures RoadwayAccepted(r) <==> c.roadwayWidth > 0.0
  {
    c.(roadwayShape := 1, roadwayStations := [0.0, length], roadwayElevations := [elevation, elevation])
  }

  /** What the validator asks of a barrel. */
  predicate BarrelAccepted(b: RunnerBarrel) {
    b.span > 0.0 && (b.shape == BoxShape ==> b.rise > 0.0) && b.numberOfBarrels > 0
  }

  function BarrelNamed(b: RunnerBarrel, name: string): RunnerBarrel {
    b.(name := name)
  }

  function WithShape(b: RunnerBarrel, shape: string): (r: RunnerBarrel)
    ensures shape != BoxShape ==> (BarrelAccepted(r) <==> b.span > 0.0 && b.numberOfBarrels > 0)
  {
    b.(shape := shape)
  }

  /** `set_culvert_barrel_span_and_rise`: the rise is kept when none is given. */
  function WithSpanAndRise(b: RunnerBarrel, span: real, rise: Option<real>): (r: RunnerBarrel)
    ensures r.span == span && r.rise == (if rise.Some? then rise.value else b.rise)
    ensures rise.None? ==> r == b.(span := span)
  {
    var b1 := b.(span := span);
    if rise.Some? then b1.(rise := rise.value) else b1
  }

  function WithMaterial(b: RunnerBarrel, material: string): RunnerBarrel {
    b.(material := material)
  }

  function WithSiteData(b: RunnerBarrel, inletStation: real, inletElevation: real, outletStation: real,
                        outletElevation: real): RunnerBarrel
  {
    b.(inletInvertStation := inletStation, inletInvertElevation := inletElevation,
       outletInvertStation := outletStation, outletInvertElevation := outletElevation)
  }

  function WithNumberOfBarrels(b: RunnerBarrel, count: int): (r: RunnerBarrel)
    ensures BarrelAccepted(r) ==> count > 0
  {
    b.(numberOfBarrels := count)
  }

  // ---------------------------------------------------------------------------------------
  // validate_crossings_data
  // ---------------------------------------------------------------------------------------

  const NoBottomWidth: string := "Enter a tailwater bottom width.\n"
  const NoChannelSlope: string := "Enter a tailwater channel slope.\n"
  const NoManningN: string := "Enter a tailwater channel Manning's n value.\n"
  const NoInvert: string := "Enter a tailwater invert elevation.\n"
  const NoRatingCurve: string := "Enter a tailwater Rating curve.\n"
  const ConstantBelowInvert: string :=
    "Tailwater constant elevation must be greater than tailwater invert elevation.\n"
  const NoRoadwayWidth: string := "Roadway width must be greater than zero.\n"
  const TooFewStations: string := "Roadway stations & elevations must have at least two values.\n"
  const StationsMismatch: string := "Roadway stations and elevations must have the same number of values.\n"
  const NoCulverts: string := "Crossing must have at least one culvert barrel.\n"
  const NoSpan: string := "span of the culvert must be specified.\n"
  const NoRise: string := "rise of the box culvert must be specified.\n"
  const NoBarrels: string := "Number of barrels must be greater than zero.\n"
  const NoFileName: string := "HY-8 file must be specified.\n"

  /** The lead-in of every report about a crossing. */
  function CrossingStr(c: RunnerCrossing, index: nat): string {
    "Crossing: " + c.name + " with index: " + NatToString(index) + " "
  }

  /** The lead-in of every report about a barrel. */
  function BarrelStr(crossingStr: string, b: RunnerBarrel): string {
    crossingStr + "Culvert barrel: " + b.name + "\t"
  }

  /** The tailwater checks of the type set, in the order they are reported. */
  function TailwaterProblems(c: RunnerCrossing): seq<string> {
    if c.twType == 1 then
      (if c.twBottomWidth <= 0.0 then [NoBottomWidth] else [])
      + (if c.twChannelSlope <= 0.0 then [NoChannelSlope] else [])
      + (if c.twManningN <= 0.0 then [NoManningN] else [])
      + (if c.twInvertElevation <= 0.0 then [NoInvert] else [])
    else if c.twType == 5 then (if |c.twRatingCurve| == 0 then [NoRatingCurve] else [])
    else if c.twType == 6 then (if c.twConstantElevation < c.twInvertElevation then [ConstantBelowInvert] else [])
    else []
  }

  /** The roadway checks and the barrel count check, in the order they are reported. */
  function RoadwayProblems(c: RunnerCrossing): seq<string> {
    (if c.roadwayWidth <= 0.0 then [NoRoadwayWidth] else [])
    + (if |c.roadwayStations| < 2 then [TooFewStations] else [])
    + (if |c.roadwayStations| != |c.roadwayElevations| then [StationsMismatch] else [])
    + (if |c.culverts| == 0 then [NoCulverts] else [])
  }

  /** Everything reported behind the crossing's own lead-in, in order. */
  function CrossingProblems(c: RunnerCrossing): seq<string> {
    FlowProblems(c.flow) + TailwaterProblems(c) + RoadwayProblems(c)
  }

  /** The barrel checks, in the order they are reported. */
  function BarrelProblems(b: RunnerBarrel): seq<string> {
    (if b.span <= 0.0 then [NoSpan] else [])
    + (if b.shape == BoxShape && b.rise <= 0.0 then [NoRise] else [])
    + (if b.numberOfBarrels <= 0 then [NoBarrels] else [])
  }

  function BarrelText(crossingStr: string): RunnerBarrel -> string {
    b => Reported(BarrelStr(crossingStr, b), BarrelProblems(b))
  }

  /** The text one pass of the crossing loop adds to `messages`. */
  function CrossingText(c: RunnerCrossing, index: nat): string {
    var lead := CrossingStr(c, index);
    Reported(lead, CrossingProblems(c)) + EachBlock(c.culverts, BarrelText(lead))
  }

  /** The text the whole crossing loop adds. */
  function CrossingsText(crossings: seq<RunnerCrossing>): string {
    EachIndexed(crossings, CrossingText, |crossings|)
  }

  /** A crossing the validator accepts. */
  predicate CrossingAccepted(c: RunnerCrossing) {
    && FlowDataValid(c.flow) && TailwaterAccepted(c) && RoadwayAccepted(c) && |c.culverts| > 0
    && forall i :: 0 <= i < |c.culverts| ==> BarrelAccepted(c.culverts[i])
  }

  /** Every problem is some text, and there is none exactly when the part is accepted. */
  lemma ProblemsMeanRejection(c: RunnerCrossing)
    ensures CrossingProblems(c) == [] <==> FlowDataValid(c.flow) && TailwaterAccepted(c) && RoadwayAccepted(c) && |c.culverts| > 0
    ensures forall i :: 0 <= i < |CrossingProblems(c)| ==> CrossingProblems(c)[i] != []
    ensures forall b :: BarrelProblems(b) == [] <==> BarrelAccepted(b)
    ensures forall b :: forall i :: 0 <= i < |BarrelProblems(b)| ==> BarrelProblems(b)[i] != []
  {
    FlowProblemsEmpty(c.flow);
    var f, t, r := FlowProblems(c.flow), TailwaterProblems(c), RoadwayProblems(c);
    assert CrossingProblems(c) == f + t + r;
    forall i | 0 <= i < |f + t + r|
      ensures (f + t + r)[i] != []
    {
      if i < |f| {
        assert (f + t + r)[i] == f[i];
      } else if i < |f| + |t| {
        assert (f + t + r)[i] == t[i - |f|];
      } else {
        assert (f + t + r)[i] == r[i - |f| - |t|];
      }
    }
  }

  /** A crossing adds no text exactly when it is accepted. */
  lemma CrossingTextEmpty(c: RunnerCrossing, index: nat)
    ensures CrossingText(c, index) == "" <==> CrossingAccepted(c)
  {
    var lead := CrossingStr(c, index);
    ProblemsMeanRejection(c);
    ReportedEmpty(lead, CrossingProblems(c));
    EachBlockEmpty(c.culverts, BarrelText(lead));
    forall b
      ensures BarrelText(lead)(b) == "" <==> BarrelAccepted(b)
    {
      ReportedEmpty(BarrelStr(lead, b), BarrelProblems(b));
    }
  }

  /** The crossing loop adds no text exactly when every crossing it has passed is accepted. */
  lemma CrossingsTextEmpty(crossings: seq<RunnerCrossing>)
    ensures CrossingsText(crossings) == "" <==> forall i :: 0 <= i < |crossings| ==> CrossingAccepted(crossings[i])
  {
    EachIndexedEmpty(crossings, CrossingText, |crossings|);
    forall i | 0 <= i < |crossings|
      ensures CrossingText(crossings[i], i) == "" <==> CrossingAccepted(crossings[i])
    {
      CrossingTextEmpty(crossings[i], i);
    }
  }

  /** A new crossing never passes: its flows are all zero and its barrel has no span. */
  lemma NewCrossingRejected(count: nat, index: nat)
    ensures !CrossingAccepted(NewCrossing(count))
    ensures FlowProblems(NewCrossing(count).flow) == [MinNotBelowDesign, DesignNotBelowMax]
    ensures BarrelProblems(NewCrossing(count).culverts[0]) == [NoSpan]
    ensures CrossingText(NewCrossing(count), index) != ""
  {
    CrossingTextEmpty(NewCrossing(count), index);
  }

  /** The barrel checks of `validate_crossings_data`, behind the barrel's lead-in. */
  method CheckBarrel(b: RunnerBarrel, lead: string) returns (result: bool, messages: string, ghost problems: seq<string>)
    ensures problems == BarrelProblems(b) && messages == Reported(lead, problems)
    ensures result <==> problems == []
    ensures result <==> messages == []
  {
    messages, problems, result := "", [], true;
    if b.span <= 0.0 {
      messages, problems := Report(messages, problems, lead, NoSpan);
      result := false;
    }
    var isBox := b.shape == BoxShape;
    if isBox && b.rise <= 0.0 {
      messages, problems := Report(messages, problems, lead, NoRise);
      result := false;
    }
    if b.numberOfBarrels <= 0 {
      messages, problems := Report(messages, problems, lead, NoBarrels);
      result := false;
    }
  }

  /** The tailwater checks of the type set, behind the crossing's lead-in. */
  method CheckTailwater(c: RunnerCrossing, lead: string) returns (result: bool, messages: string, ghost problems: seq<string>)
    ensures problems == TailwaterProblems(c) && messages == Reported(lead, problems)
    ensures result <==> problems == []
    ensures result <==> messages == []
  {
    messages, problems, result := "", [], true;
    if c.twType == 1 {
      result, messages, problems := CheckChannel(c, lead);
    } else if c.twType == 5 {
      if |c.twRatingCurve| == 0 {
        messages, problems := Report(messages, problems, lead, NoRatingCurve);
        result := false;
      }
    } else if c.twType == 6 {
      if c.twConstantElevation < c.twInvertElevation {
        messages, problems := Report(messages, problems, lead, ConstantBelowInvert);
        result := false;
      }
    }
  }

  /** The checks of a rectangular channel (type 1). */
  method CheckChannel(c: RunnerCrossing, lead: string) returns (result: bool, messages: string, ghost problems: seq<string>)
    requires c.twType == 1
    ensures problems == TailwaterProblems(c) && messages == Reported(lead, problems)
    ensures result <==> problems == []
    ensures result <==> messages == []
  {
    messages, problems, result := "", [], true;
    if c.twBottomWidth <= 0.0 {
      messages, problems := Report(messages, problems, lead, NoBottomWidth);
      result := false;
    }
    if c.twChannelSlope <= 0.0 {
      messages, problems := Report(messages, problems, lead, NoChannelSlope);
      result := false;
    }
    if c.twManningN <= 0.0 {
      messages, problems := Report(messages, problems, lead, NoManningN);
      result := false;
    }
    if c.twInvertElevation <= 0.0 {
      messages, problems := Report(messages, problems, lead, NoInvert);
      result := false;
    }
  }

  /** The roadway checks and the barrel count check, behind the crossing's lead-in. */
  method CheckRoadway(c: RunnerCrossing, lead: string) returns (result: bool, messages: string, ghost problems: seq<string>)
    ensures problems == RoadwayProblems(c) && messages == Reported(lead, problems)
    ensures result <==> problems == []
    ensures result <==> messages == []
  {
    messages, problems, result := "", [], true;
    if c.roadwayWidth <= 0.0 {
      messages, problems := Report(messages, problems, lead, NoRoadwayWidth);
      result := false;
    }
    if |c.roadwayStations| < 2 {
      messages, problems := Report(messages, problems, lead, TooFewStations);
      result := false;
    }
    if |c.roadwayStations| != |c.roadwayElevations| {
      messages, problems := Report(messages, problems, lead, StationsMismatch);
      result := false;
    }
    if |c.culverts| == 0 {
      messages, problems := Report(messages, problems, lead, NoCulverts);
      result := false;
    }
  }

  /** One pass of the crossing loop: the flow, tailwater and roadway checks behind the crossing's
      lead-in, then each barrel's behind its own. */
  method ValidateCrossing(c: RunnerCrossing, index: nat) returns (result: bool, messages: string)
    ensures messages == CrossingText(c, index)
    ensures result <==> CrossingAccepted(c)
    ensures result <==> messages == []
  {
    var lead := CrossingStr(c, index);
    var flowResult, flowMessages := ValidateFlowData(c.flow, lead);
    var twResult, twMessages, twProblems := CheckTailwater(c, lead);
    var roadResult, roadMessages, roadProblems := CheckRoadway(c, lead);
    messages := flowMessages + twMessages + roadMessages;
    result := flowResult && twResult && roadResult;
    ReportedConcat(lead, FlowProblems(c.flow), twProblems);
    ReportedConcat(lead, FlowProblems(c.flow) + twProblems, roadProblems);
    AppendEmptyIff(flowMessages, twMessages);
    AppendEmptyIff(flowMessages + twMessages, roadMessages);
    ghost var head := messages;
    var i := 0;
    while i < |c.culverts|
      invariant 0 <= i <= |c.culverts|
      invariant messages == head + EachBlock(c.culverts[..i], BarrelText(lead))
      invariant result <==> messages == []
    {
      var barrelResult, barrelMessages, barrelProblems := CheckBarrel(c.culverts[i], BarrelStr(lead, c.culverts[i]));
      EachBlockStep(c.culverts, i, BarrelText(lead));
      SeqAppendAssoc(head, EachBlock(c.culverts[..i], BarrelText(lead)), barrelMessages);
      AppendEmptyIff(messages, barrelMessages);
      messages := messages + barrelMessages;
      result := result && barrelResult;
      i := i + 1;
    }
    assert c.culverts[..|c.culverts|] == c.culverts;
    CrossingTextEmpty(c, index);
  }

  /** The crossing loop of `validate_crossings_data`. */
  method ValidateCrossings(crossings: seq<RunnerCrossing>) returns (result: bool, messages: string)
    ensures messages == CrossingsText(crossings)
    ensures result <==> forall i :: 0 <= i < |crossings| ==> CrossingAccepted(crossings[i])
  {
    result, messages := CrossingPasses(crossings);
    CrossingsTextEmpty(crossings);
  }

  /** The passes of the crossing loop, which report exactly when something fails. */
  method CrossingPasses(crossings: seq<RunnerCrossing>) returns (result: bool, messages: string)
    ensures messages == CrossingsText(crossings)
    ensures result <==> messages == []
  {
    messages, result := "", true;
    var i := 0;
    while i < |crossings|
      invariant 0 <= i <= |crossings|
      invariant messages == EachIndexed(crossings, CrossingText, i)
      invariant result <==> messages == []
    {
      var crossingResult, crossingMessages := ValidateCrossing(crossings[i], i);
      EachIndexedStep(crossings, CrossingText, i);
      AppendEmptyIff(messages, crossingMessages);
      messages := messages + crossingMessages;
      result := result && crossingResult;
      i := i + 1;
    }
  }

  // ---------------------------------------------------------------------------------------
  // The executable and the file
  // ---------------------------------------------------------------------------------------

  /** What the file system answers: the paths that exist, and the existing files that cannot be
      opened for writing. */
  datatype Disk = Disk(existing: set<string>, locked: set<string>)

  /** `os.path.join(directory, name)` on POSIX, for a relative `name`. */
  function JoinPath(directory: string, name: string): (r: string)
    ensures EndsWith(r, name)
  {
    var r := if directory == "" || EndsWith(directory, "/") then directory + name else directory + "/" + name;
    assert r[|r| - |name|..] == name;
    r
  }

  /** The executable check's report, if any. */
  function ExeText(exePath: string, disk: Disk): string {
    var exe := JoinPath(exePath, BasenameExe);
    if exe in disk.existing then "" else "HY-8 executable does not exist: " + exe + "\n"
  }

  /** The file check: fine, a report, or a locked file, which ends validation on the spot. */
  datatype FileVerdict = FileFine | FileReport(text: string) | FileLocked(text: string)

  function CheckFile(hy8File: string, disk: Disk, overwrite: bool): (v: FileVerdict)
    ensures v.FileLocked? ==> overwrite && hy8File in disk.locked
    ensures v.FileFine? <==> hy8File != "" && (hy8File in disk.existing ==> overwrite && hy8File !in disk.locked)
  {
    if hy8File == "" then FileReport(NoFileName)
    else if hy8File in disk.existing then
      if overwrite then
        if hy8File in disk.locked then FileLocked("File '" + hy8File + "' is locked.") else FileFine
      else FileReport("HY-8 file already exists: " + hy8File + "\n")
    else FileFine
  }

  /** The whole text `validate_crossings_data` returns. */
  function ValidationText(crossings: seq<RunnerCrossing>, exePath: string, hy8File: string, disk: Disk,
                          overwrite: bool): string
  {
    var v := CheckFile(hy8File, disk, overwrite);
    CrossingsText(crossings) + ExeText(exePath, disk) + (if v.FileFine? then "" else v.text)
  }

  /** The verdict `validate_crossings_data` returns. */
  predicate ValidationPasses(crossings: seq<RunnerCrossing>, exePath: string, hy8File: string, disk: Disk,
                             overwrite: bool)
  {
    && (forall i :: 0 <= i < |crossings| ==> CrossingAccepted(crossings[i]))
    && JoinPath(exePath, BasenameExe) in disk.existing
    && CheckFile(hy8File, disk, overwrite).FileFine?
  }

  /** The validator passes exactly when it has nothing to say. */
  lemma PassesIffSilent(crossings: seq<RunnerCrossing>, exePath: string, hy8File: string, disk: Disk, overwrite: bool)
    ensures ValidationPasses(crossings, exePath, hy8File, disk, overwrite)
      <==> ValidationText(crossings, exePath, hy8File, disk, overwrite) == ""
  {
    CrossingsTextEmpty(crossings);
    var v := CheckFile(hy8File, disk, overwrite);
    assert !v.FileFine? ==> v.text != "";
  }

  /** The runner as first made never passes. */
  lemma NewRunnerRejected(count: nat, exePath: string, hy8File: string, disk: Disk, overwrite: bool)
    ensures !ValidationPasses([NewCrossing(count)], exePath, hy8File, disk, overwrite)
  {
    NewCrossingRejected(count, 0);
    assert [NewCrossing(count)][0] == NewCrossing(count);
  }

  /** The runner's problems and its verdict. */
  method FinishValidation(crossingsResult: bool, crossingsText: string, exePath: string, hy8File: string,
                          disk: Disk, overwrite: bool) returns (result: bool, messages: string)
    ensures messages == crossingsText + ExeText(exePath, disk)
      + (var v := CheckFile(hy8File, disk, overwrite); if v.FileFine? then "" else v.text)
    ensures result <==> (crossingsResult && JoinPath(exePath, BasenameExe) in disk.existing
                         && CheckFile(hy8File, disk, overwrite).FileFine?)
  {
    result := crossingsResult;
    var hy8Exe := JoinPath(exePath, BasenameExe);
    var exeMessage := "";
    if hy8Exe !in disk.existing {
      exeMessage := "HY-8 executable does not exist: " + hy8Exe + "\n";
      result := false;
    }
    var fileMessage := "";
    if hy8File == "" {
      fileMessage := NoFileName;
      result := false;
    } else if hy8File in disk.existing {
      if overwrite {
        if hy8File in disk.locked {
          fileMessage := "File '" + hy8File + "' is locked.";
          return false, crossingsText + exeMessage + fileMessage;
        }
      } else {
        fileMessage := "HY-8 file already exists: " + hy8File + "\n";
        result := false;
      }
    }
    messages := crossingsText + exeMessage + fileMessage;
  }

  // ---------------------------------------------------------------------------------------
  // The runner
  // ---------------------------------------------------------------------------------------

  /** The attributes `Hy8Runner` keeps on the class itself, shared by every runner. */
  class RunnerClass {
    var exePath: string
    var nameCounter: int

    constructor()
      ensures exePath == "" && nameCounter == 0
    {
      exePath, nameCounter := "", 0;
    }
  }

  class Hy8Runner {
    const shared: RunnerClass
    var crossings: seq<RunnerCrossing>
    var hy8File: string
    /** Set by `set_hy8_exe_path`, which stores the path on the runner, shadowing the class's. */
    var ownExePath: Option<string>
    var projectTitle: string
    var designerName: string
    var projectNotes: string

    predicate Valid()
      reads this
    {
      NeverEmpty(crossings)
    }

    /** Everything but the crossings. */
    function Settings(): (string, Option<string>, string, string, string)
      reads this
    {
      (hy8File, ownExePath, projectTitle, designerName, projectNotes)
    }

    /** `Hy8Runner(hy8_exe_path, hy8_file)`: one new crossing, the class's counter advanced, and
        the class's executable path replaced by a non-empty one. */
    constructor(shared: RunnerClass, hy8ExePath: string, hy8File: string)
      modifies shared
      ensures Valid()
      ensures this.shared == shared && crossings == [NewCrossing(0)] && this.hy8File == hy8File
      ensures ownExePath.None? && projectTitle == "" && designerName == "" && projectNotes == ""
      ensures shared.nameCounter == old(shared.nameCounter) + 1
      ensures shared.exePath == if hy8ExePath != "" then hy8ExePath else old(shared.exePath)
    {
      shared.nameCounter := shared.nameCounter + 1;
      this.shared := shared;
      crossings := [NewCrossing(0)];
      this.hy8File := hy8File;
      ownExePath := None;
      if hy8ExePath != "" {
        shared.exePath := hy8ExePath;
      }
      projectTitle, designerName, projectNotes := "", "", "";
    }

    /** `self.hy8_exe_path`: the runner's own path once set, the class's until then. */
    function ExePath(): string
      reads this, shared
    {
      if ownExePath.Some? then ownExePath.value else shared.exePath
    }

    method SetHy8ExePath(hy8ExePath: string)
      modifies this
      ensures ExePath() == hy8ExePath && crossings == old(crossings)
      ensures hy8File == old(hy8File) && projectTitle == old(projectTitle)
      ensures designerName == old(designerName) && projectNotes == old(projectNotes)
    {
      ownExePath := Some(hy8ExePath);
    }

    method SetHy8File(hy8File: string)
      modifies this
      ensures this.hy8File == WithHy8Extension(hy8File)
      ensures crossings == old(crossings) && ownExePath == old(ownExePath)
      ensures projectTitle == old(projectTitle) && designerName == old(designerName) && projectNotes == old(projectNotes)
    {
      var name := hy8File;
      if !EndsWith(Lower(name), Hy8Extension) {
        name := name + Hy8Extension;
      }
      this.hy8File := name;
    }

    method AddCrossing() returns (index: int)
      requires Valid()
      modifies this
      ensures Valid() && crossings == AddedCrossing(old(crossings)) && Settings() == old(Settings())
      ensures index == |crossings| - 1
    {
      AddCrossingKeeps(crossings);
      crossings := crossings + [NewCrossing(|crossings|)];
      index := |crossings| - 1;
    }

    /** `delete_crossing(index)`; `raised` when the index is before the front, and then nothing
        has changed. */
    method DeleteCrossing(index: Option<int>) returns (raised: bool)
      requires Valid()
      modifies this
      ensures Valid() && Settings() == old(Settings())
      ensures raised <==> DeletedCrossing(old(crossings), index).None?
      ensures crossings == Outcome(old(crossings), DeletedCrossing(old(crossings), index))
    {
      DeleteCrossingKeeps(crossings, index);
      var i := if index.None? || index.value >= |crossings| then |crossings| - 1 else index.value;
      var k := PyIndex(i, |crossings|);
      if k.None? {
        return true;
      }
      raised := false;
      crossings := crossings[..k.value] + crossings[k.value + 1..];
      if |crossings| == 0 {
        crossings := [NewCrossing(0)];
      }
    }

    /** `add_culvert_barrel(index_crossing)`. */
    method AddCulvertBarrel(indexCrossing: Option<int>) returns (index: int, raised: bool)
      requires Valid()
      modifies this
      ensures Valid() && Settings() == old(Settings())
      ensures var r := AddedBarrel(old(crossings), indexCrossing);
        (raised <==> r.None?)
        && (r.Some? ==> index == r.value.0 && crossings == r.value.1)
        && (r.None? ==> crossings == old(crossings))
    {
      AddBarrelKeeps(crossings, indexCrossing);
      index, raised := -1, false;
      var i := if indexCrossing.None? then |crossings| - 1 else indexCrossing.value;
      if i >= |crossings| {
        return;
      }
      var k := PyIndex(i, |crossings|);
      if k.None? {
        raised := true;
        return;
      }
      var c := crossings[k.value];
      crossings := crossings[k.value := c.(culverts := c.culverts + [NewBarrel(|c.culverts|)])];
      index := |crossings[k.value].culverts| - 1;
    }

    /** `delete_culvert_barrel(index_crossing, index_culvert)`. */
    method DeleteCulvertBarrel(indexCrossing: Option<int>, indexCulvert: Option<int>) returns (raised: bool)
      requires Valid()
      modifies this
      ensures Valid() && Settings() == old(Settings())
      ensures raised <==> DeletedBarrel(old(crossings), indexCrossing, indexCulvert).None?
      ensures crossings == Outcome(old(crossings), DeletedBarrel(old(crossings), indexCrossing, indexCulvert))
    {
      DeleteBarrelKeeps(crossings, indexCrossing, indexCulvert);
      raised := false;
      var i := if indexCrossing.None? then |crossings| - 1 else indexCrossing.value;
      if i >= |crossings| {
        return;
      }
      var k := PyIndex(i, |crossings|);
      if k.None? {
        return true;
      }
      var culverts := crossings[k.value].culverts;
      var j := if indexCulvert.None? then |culverts| - 1 else indexCulvert.value;
      if j >= |culverts| {
        return;
      }
      var m := PyIndex(j, |culverts|);
      if m.None? {
        return true;
      }
      culverts := culverts[..m.value] + culverts[m.value + 1..];
      if |culverts| == 0 {
        culverts := [NewBarrel(0)];
      }
      crossings := crossings[k.value := crossings[k.value].(culverts := culverts)];
    }

    /** Every crossing setter: the target crossing edited, or nothing changed when the index
        raises. */
    method Edit(index: Option<int>, edit: RunnerCrossing -> RunnerCrossing) returns (raised: bool)
      requires Valid()
      requires forall c :: edit(c).culverts == c.culverts
      modifies this
      ensures Valid() && Settings() == old(Settings())
      ensures raised <==> Edited(old(crossings), index, edit).None?
      ensures raised <==> IndexRaises(old(crossings), index)
      ensures crossings == Outcome(old(crossings), Edited(old(crossings), index, edit))
    {
      EditedKeeps(crossings, index, edit);
      var k := Target(index, |crossings|);
      if k.None? {
        return true;
      }
      raised := false;
      crossings := crossings[k.value := edit(crossings[k.value])];
    }

    /** Every barrel setter: the target barrel edited, or nothing changed when an index raises. */
    method EditBarrel(indexCrossing: Option<int>, indexCulvert: Option<int>, edit: RunnerBarrel -> RunnerBarrel)
      returns (raised: bool)
      requires Valid()
      modifies this
      ensures Valid() && Settings() == old(Settings())
      ensures raised <==> EditedBarrel(old(crossings), indexCrossing, indexCulvert, edit).None?
      ensures raised <==> BarrelIndexRaises(old(crossings), indexCrossing, indexCulvert)
      ensures crossings == Outcome(old(crossings), EditedBarrel(old(crossings), indexCrossing, indexCulvert, edit))
    {
      EditedBarrelKeeps(crossings, indexCrossing, indexCulvert, edit);
      var k := Target(indexCrossing, |crossings|);
      if k.None? {
        return true;
      }
      var culverts := crossings[k.value].culverts;
      var m := Target(indexCulvert, |culverts|);
      if m.None? {
        return true;
      }
      raised := false;
      crossings := crossings[k.value := crossings[k.value].(culverts := culverts[m.value := edit(culverts[m.value])])];
    }

    method SetCulvertCrossingName(name: string, index: Option<int>) returns (raised: bool)
      requires Valid()
      modifies this
      ensures Valid() && Settings() == old(Settings())
      ensures raised <==> IndexRaises(old(crossings), index)
      ensures crossings == Outcome(old(crossings), Edited(old(crossings), index, c => Named(c, name)))
    {
      raised := Edit(index, c => Named(c, name));
    }

    method SetDischargeMinDesignMaxFlow(flowMin: real, flowDesign: real, flowMax: real, index: Option<int>)
      returns (raised: bool)
      requires Valid()
      modifies this
      ensures Valid() && Settings() == old(Settings())
      ensures raised <==> IndexRaises(old(crossings), index)
      ensures crossings == Outcome(old(crossings),
        Edited(old(crossings), index, c => WithMinDesignMax(c, flowMin, flowDesign, flowMax)))
    {
      raised := Edit(index, c => WithMinDesignMax(c, flowMin, flowDesign, flowMax));
    }

    method SetDischargeUserListFlow(flowList: seq<real>, index: Option<int>) returns (raised: bool)
      requires Valid()
      modifies this
      ensures Valid() && Settings() == old(Settings())
      ensures raised <==> IndexRaises(old(crossings), index)
      ensures crossings == Outcome(old(crossings), Edited(old(crossings), index, c => WithUserList(c, flowList)))
    {
      raised := Edit(index, c => WithUserList(c, flowList));
    }

    /** `set_discharge_min_max_inc_flow`, which runs `compute_list` and so returns only for a
        positive increment or an empty range. */
    method SetDischargeMinMaxIncFlow(flowMin: real, flowMax: real, flowIncrement: real, index: Option<int>)
      returns (raised: bool)
      requires Valid()
      requires flowIncrement > 0.0 || flowMin > flowMax
      modifies this
      ensures Valid() && Settings() == old(Settings())
      ensures raised <==> IndexRaises(old(crossings), index)
      ensures crossings == Outcome(old(crossings),
        Edited(old(crossings), index, c => WithMinMaxIncrement(c, flowMin, flowMax, flowIncrement)))
    {
      raised := Edit(index, c => WithMinMaxIncrement(c, flowMin, flowMax, flowIncrement));
    }

    method SetTwRectangular(bottomWidth: real, channelSlope: real, manningN: real, invertElevation: real,
                            index: Option<int>) returns (raised: bool)
      requires Valid()
      modifies this
      ensures Valid() && Settings() == old(Settings())
      ensures raised <==> IndexRaises(old(crossings), index)
      ensures crossings == Outcome(old(crossings),
        Edited(old(crossings), index, c => WithTwRectangular(c, bottomWidth, channelSlope, manningN, invertElevation)))
    {
      raised := Edit(index, c => WithTwRectangular(c, bottomWidth, channelSlope, manningN, invertElevation));
    }

    method SetTwTrapezoidal(bottomWidth: real, sideslope: real, channelSlope: real, manningN: real,
                            invertElevation: real, index: Option<int>) returns (raised: bool)
      requires Valid()
      modifies this
      ensures Valid() && Settings() == old(Settings())
      ensures raised <==> IndexRaises(old(crossings), index)
      ensures crossings == Outcome(old(crossings), Edited(old(crossings), index,
        c => WithTwTrapezoidal(c, bottomWidth, sideslope, channelSlope, manningN, invertElevation)))
    {
      raised := Edit(index, c => WithTwTrapezoidal(c, bottomWidth, sideslope, channelSlope, manningN, invertElevation));
    }

    method SetTwTriangular(sideslope: real, channelSlope: real, manningN: real, invertElevation: real,
                           index: Option<int>) returns (raised: bool)
      requires Valid()
      modifies this
      ensures Valid() && Settings() == old(Settings())
      ensures raised <==> IndexRaises(old(crossings), index)
      ensures crossings == Outcome(old(crossings),
        Edited(old(crossings), index, c => WithTwTriangular(c, sideslope, channelSlope, manningN, invertElevation)))
    {
      raised := Edit(index, c => WithTwTriangular(c, sideslope, channelSlope, manningN, invertElevation));
    }

    method SetTwConstant(invertElevation: real, constantElevation: real, index: Option<int>) returns (raised: bool)
      requires Valid()
      modifies this
      ensures Valid() && Settings() == old(Settings())
      ensures raised <==> IndexRaises(old(crossings), index)
      ensures crossings == Outcome(old(crossings),
        Edited(old(crossings), index, c => WithTwConstant(c, invertElevation, constantElevation)))
    {
      raised := Edit(index, c => WithTwConstant(c, invertElevation, constantElevation));
    }

    method SetTwRatingCurve(invertElevation: real, ratingCurve: seq<seq<real>>, index: Option<int>)
      returns (raised: bool)
      requires Valid()
      modifies this
      ensures Valid() && Settings() == old(Settings())
      ensures raised <==> IndexRaises(old(crossings), index)
      ensures crossings == Outcome(old(crossings),
        Edited(old(crossings), index, c => WithTwRatingCurve(c, invertElevation, ratingCurve)))
    {
      raised := Edit(index, c => WithTwRatingCurve(c, invertElevation, ratingCurve));
    }

    method SetRoadwayWidth(width: real, index: Option<int>) returns (raised: bool)
      requires Valid()
      modifies this
      ensures Valid() && Settings() == old(Settings())
      ensures raised <==> IndexRaises(old(crossings), index)
      ensures crossings == Outcome(old(crossings), Edited(old(crossings), index, c => WithRoadwayWidth(c, width)))
    {
      raised := Edit(index, c => WithRoadwayWidth(c, width));
    }

    method SetRoadwaySurface(surface: string, index: Option<int>) returns (raised: bool)
      requires Valid()
      modifies this
      ensures Valid() && Settings() == old(Settings())
      ensures raised <==> IndexRaises(old(crossings), index)
      ensures crossings == Outcome(old(crossings), Edited(old(crossings), index, c => WithRoadwaySurface(c, surface)))
    {
      raised := Edit(index, c => WithRoadwaySurface(c, surface));
    }

    method SetRoadwayStationsAndElevations(stations: seq<real>, elevations: seq<real>, index: Option<int>)
      returns (raised: bool)
      requires Valid()
      modifies this
      ensures Valid() && Settings() == old(Settings())
      ensures raised <==> IndexRaises(old(crossings), index)
      ensures crossings == Outcome(old(crossings),
        Edited(old(crossings), index, c => WithStationsAndElevations(c, stations, elevations)))
    {
      raised := Edit(index, c => WithStationsAndElevations(c, stations, elevations));
    }

    method SetConstantRoadway(length: real, elevation: real, index: Option<int>) returns (raised: bool)
      requires Valid()
      modifies this
      ensures Valid() && Settings() == old(Settings())
      ensures raised <==> IndexRaises(old(crossings), index)
      ensures crossings == Outcome(old(crossings),
        Edited(old(crossings), index, c => WithConstantRoadway(c, length, elevation)))
    {
      raised := Edit(index, c => WithConstantRoadway(c, length, elevation));
    }

    method SetCulvertBarrelName(name: string, indexCrossing: Option<int>, indexCulvert: Option<int>)
      returns (raised: bool)
      requires Valid()
      modifies this
      ensures Valid() && Settings() == old(Settings())
      ensures raised <==> BarrelIndexRaises(old(crossings), indexCrossing, indexCulvert)
      ensures crossings == Outcome(old(crossings),
        EditedBarrel(old(crossings), indexCrossing, indexCulvert, b => BarrelNamed(b, name)))
    {
      raised := EditBarrel(indexCrossing, indexCulvert, b => BarrelNamed(b, name));
    }

    method SetCulvertBarrelShape(shape: string, indexCrossing: Option<int>, indexCulvert: Option<int>)
      returns (raised: bool)
      requires Valid()
      modifies this
      ensures Valid() && Settings() == old(Settings())
      ensures raised <==> BarrelIndexRaises(old(crossings), indexCrossing, indexCulvert)
      ensures crossings == Outcome(old(crossings),
        EditedBarrel(old(crossings), indexCrossing, indexCulvert, b => WithShape(b, shape)))
    {
      raised := EditBarrel(indexCrossing, indexCulvert, b => WithShape(b, shape));
    }

    method SetCulvertBarrelSpanAndRise(span: real, rise: Option<real>, indexCrossing: Option<int>,
                                       indexCulvert: Option<int>) returns (raised: bool)
      requires Valid()
      modifies this
      ensures Valid() && Settings() == old(Settings())
      ensures raised <==> BarrelIndexRaises(old(crossings), indexCrossing, indexCulvert)
      ensures crossings == Outcome(old(crossings),
        EditedBarrel(old(crossings), indexCrossing, indexCulvert, b => WithSpanAndRise(b, span, rise)))
    {
      raised := EditBarrel(indexCrossing, indexCulvert, b => WithSpanAndRise(b, span, rise));
    }

    method SetCulvertBarrelMaterial(material: string, indexCrossing: Option<int>, indexCulvert: Option<int>)
      returns (raised: bool)
      requires Valid()
      modifies this
      ensures Valid() && Settings() == old(Settings())
      ensures raised <==> BarrelIndexRaises(old(crossings), indexCrossing, indexCulvert)
      ensures crossings == Outcome(old(crossings),
        EditedBarrel(old(crossings), indexCrossing, indexCulvert, b => WithMaterial(b, material)))
    {
      raised := EditBarrel(indexCrossing, indexCulvert, b => WithMaterial(b, material));
    }

    method SetCulvertBarrelSiteData(inletStation: real, inletElevation: real, outletStation: real,
                                    outletElevation: real, indexCrossing: Option<int>, indexCulvert: Option<int>)
      returns (raised: bool)
      requires Valid()
      modifies this
      ensures Valid() && Settings() == old(Settings())
      ensures raised <==> BarrelIndexRaises(old(crossings), indexCrossing, indexCulvert)
      ensures crossings == Outcome(old(crossings), EditedBarrel(old(crossings), indexCrossing, indexCulvert,
        b => WithSiteData(b, inletStation, inletElevation, outletStation, outletElevation)))
    {
      raised := EditBarrel(indexCrossing, indexCulvert,
                           b => WithSiteData(b, inletStation, inletElevation, outletStation, outletElevation));
    }

    method SetCulvertBarrelNumberOfBarrels(count: int, indexCrossing: Option<int>, indexCulvert: Option<int>)
      returns (raised: bool)
      requires Valid()
      modifies this
      ensures Valid() && Settings() == old(Settings())
      ensures raised <==> BarrelIndexRaises(old(crossings), indexCrossing, indexCulvert)
      ensures crossings == Outcome(old(crossings),
        EditedBarrel(old(crossings), indexCrossing, indexCulvert, b => WithNumberOfBarrels(b, count)))
    {
      raised := EditBarrel(indexCrossing, indexCulvert, b => WithNumberOfBarrels(b, count));
    }

    /** `validate_crossings_data(overwrite)`, with the file system's answers given. */
    method ValidateCrossingsData(disk: Disk, overwrite: bool) returns (result: bool, messages: string)
      ensures messages == ValidationText(crossings, ExePath(), hy8File, disk, overwrite)
      ensures result <==> ValidationPasses(crossings, ExePath(), hy8File, disk, overwrite)
    {
      var crossingsResult, crossingsText := ValidateCrossings(crossings);
      result, messages := FinishValidation(crossingsResult, crossingsText, ExePath(), hy8File, disk, overwrite);
    }
  }
}
