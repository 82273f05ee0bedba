/** The reference writer's crossing (`tests/hy8runner/hy8_runner_crossing.py`): the flow, the
    tailwater and roadway as plain fields, the barrels, and the card sequence it writes. */
module RunnerCrossings {
  import opened Wrappers
  import opened Text
  import opened RunnerOutput
  import opened RunnerFlows
  import opened RunnerCulverts
  import Tailwaters
  import CardWriter

  const PavedSurface: string := "paved"
  const GravelSurface: string := "gravel"
  const UserDefinedSurface: string := "user-defined"

  /** The tailwater stage is written this many times. */
  const StageCount: nat := 6

  datatype RunnerCrossing = RunnerCrossing(
    name: string,
    notes: string,
    flow: RunnerFlow,
    twType: int,
    twBottomWidth: real,
    twSideslope: real,
    twChannelSlope: real,
    twManningN: real,
    twConstantElevation: real,
    twInvertElevation: real,
    twRatingCurve: seq<seq<real>>,
    roadwayShape: int,
    roadwayWidth: real,
    roadwayStations: seq<real>,
    roadwayElevations: seq<real>,
    roadwaySurface: string,
    culverts: seq<RunnerBarrel>,
    uuid: Option<string>)

  /** `Hy8RunnerCulvertCrossing(count)`: a rectangular tailwater channel, a paved roadway and one
      new barrel. */
  function NewCrossing(count: nat): RunnerCrossing {
    RunnerCrossing("Crossing " + NatToString(count + 1), "", NewFlow, 1, 0.0, 1.0, 0.0, 0.0, 0.0, 0.0, [],
                   1, 0.0, [], [], PavedSurface, [NewBarrel(0)], None)
  }

  /** `surface_index`: gravel 2, user-defined 3, any other text 1. */
  function SurfaceIndex(surface: string): (index: int)
    ensures index == 2 <==> surface == GravelSurface
    ensures index == 3 <==> surface == UserDefinedSurface
    ensures index == 1 <==> surface != GravelSurface && surface != UserDefinedSurface
  {
    if surface == GravelSurface then 2 else if surface == UserDefinedSurface then 3 else 1
  }

  /** `discharge_method`: 0 for Min/Design/Max, 1 for any other method. */
  function DischargeMethodCode(f: RunnerFlow): (code: int)
    ensures code == 0 <==> f.flowMethod == MinDesignMaxMethod
    ensures code == 0 || code == 1
  {
    if f.flowMethod != MinDesignMaxMethod then 1 else 0
  }

  /** A new crossing writes a Min/Design/Max flow, a rectangular tailwater, a paved surface and
      a single barrel. */
  lemma NewCrossingCodes(count: nat)
    ensures var c := NewCrossing(count);
      DischargeMethodCode(c.flow) == 0 && c.twType == 1 && SurfaceIndex(c.roadwaySurface) == 1
      && |c.culverts| == 1 && ShapeCode(c.culverts[0]) == 1 && c.uuid.None?
  {
  }

  // ---------------------------------------------------------------------------------------
  // The write calls, section by section
  // ---------------------------------------------------------------------------------------

  function OpeningWrites(c: RunnerCrossing): seq<string> {
    [Line("STARTCROSSING", "   \"" + c.name + "\""), Line("STARTCROSSNOTES", "    \"" + c.notes + "\"")]
  }

  function FlowLine(repr: real -> string): real -> string {
    x => Line("DISCHARGEXYUSER_Y", " " + repr(x))
  }

  /** The discharge cards of the flow as it is after `compute_list`. */
  function DischargeWrites(f: RunnerFlow, repr: real -> string): seq<string> {
    [Line("DISCHARGERANGE", " " + repr(f.flowMin) + " " + repr(f.flowDesign) + " " + repr(f.flowMax)),
     Line("DISCHARGEMETHOD", " " + IntToString(DischargeMethodCode(f))),
     Line("DISCHARGEXYUSER", " " + NatToString(|f.flowList|))]
    + EachLine(f.flowList, FlowLine(repr))
  }

  /** `tw_list`: the constant elevation, six times. */
  function StageList(c: RunnerCrossing): seq<real> {
    seq(StageCount, _ => c.twConstantElevation)
  }

  /** The velocity, shear and Froude number written beside each stage: all zero. */
  function ZeroColumns(repr: real -> string): string {
    " " + repr(0.0) + " " + repr(0.0) + " " + repr(0.0)
  }

  function StageLine(repr: real -> string): real -> string {
    tw => Line("", "              " + repr(tw) + ZeroColumns(repr))
  }

  function TailwaterWrites(c: RunnerCrossing, repr: real -> string): seq<string> {
    var stages := StageList(c);
    [Line("TAILWATERTYPE", " " + IntToString(c.twType)),
     Line("CHANNELGEOMETRY", " " + repr(c.twBottomWidth) + " " + repr(c.twSideslope) + " " + repr(c.twChannelSlope)
                             + " " + repr(c.twManningN) + " " + repr(c.twInvertElevation)),
     Line("NUMRATINGCURVE", " " + NatToString(|stages|)),
     Line("TWRATINGCURVE", " " + repr(stages[0]) + ZeroColumns(repr))]
    + EachLine(stages, StageLine(repr))
  }

  /** Every row of the rating curve has the flow, elevation and velocity the writer indexes. */
  predicate RowsComplete(curve: seq<seq<real>>) {
    forall i :: 0 <= i < |curve| ==> |curve[i]| >= 3
  }

  function RowWrites(row: seq<real>, repr: real -> string): seq<string>
    requires |row| >= 3
  {
    [Line("\tFLOW", " " + repr(row[0])), Line("\tELEVATION", " " + repr(row[1])), Line("\tVELOCITY", " " + repr(row[2]))]
  }

  /** The three lines of each of the first `n` rows, one row after another. */
  function RowsWrites(curve: seq<seq<real>>, n: nat, repr: real -> string): (r: seq<string>)
    requires RowsComplete(curve) && n <= |curve|
    ensures |r| == 3 * n
  {
    if n == 0 then [] else RowsWrites(curve, n - 1, repr) + RowWrites(curve[n - 1], repr)
  }

  /** Row `i`'s flow opens its three lines. */
  lemma {:induction false} RowsWritesFlow(curve: seq<seq<real>>, n: nat, repr: real -> string, i: nat)
    requires RowsComplete(curve) && i < n <= |curve|
    ensures RowsWrites(curve, n, repr)[3 * i] == Line("\tFLOW", " " + repr(curve[i][0]))
  {
    if i < n - 1 {
      RowsWritesFlow(curve, n - 1, repr, i);
    }
  }

  /** The rating curve block, written only for a non-empty curve. */
  function RatingWrites(curve: seq<seq<real>>, repr: real -> string): seq<string>
    requires RowsComplete(curve)
  {
    if |curve| > 0 then
      [Line("RATINGCURVE", ""), Line("NUMPOINTS", " " + NatToString(|curve|))]
      + RowsWrites(curve, |curve|, repr) + [Line("END RATINGCURVE", "")]
    else []
  }

  /** The card of the `index`-th roadway point: ROADWAYSECDATA for the first, ROADWAYPOINT after. */
  function PointCard(index: nat): string {
    if index == 0 then "ROADWAYSECDATA" else "ROADWAYPOINT"
  }

  function PointLine(index: nat, station: real, elevation: real, repr: real -> string): string {
    Line(PointCard(index), " " + repr(station) + " " + repr(elevation))
  }

  /** The first `n` points of the loop over `zip(stations, elevations)`. */
  function PointWrites(stations: seq<real>, elevations: seq<real>, n: nat, repr: real -> string): (r: seq<string>)
    requires n <= |stations| && n <= |elevations|
    ensures |r| == n
    ensures forall i :: 0 <= i < n ==> r[i] == PointLine(i, stations[i], elevations[i], repr)
  {
    if n == 0 then [] else PointWrites(stations, elevations, n - 1, repr) + [PointLine(n - 1, stations[n - 1], elevations[n - 1], repr)]
  }

  function Min(a: nat, b: nat): nat {
    if a <= b then a else b
  }

  function RoadwayWrites(c: RunnerCrossing, repr: real -> string): seq<string> {
    [Line("ROADWAYSHAPE", " " + IntToString(c.roadwayShape)),
     Line("ROADWIDTH", " " + repr(c.roadwayWidth)),
     Line("SURFACE", " " + IntToString(SurfaceIndex(c.roadwaySurface))),
     Line("NUMSTATIONS", " " + NatToString(|c.roadwayStations|))]
    + PointWrites(c.roadwayStations, c.roadwayElevations, Min(|c.roadwayStations|, |c.roadwayElevations|), repr)
  }

  function CulvertBlock(repr: real -> string): RunnerBarrel -> seq<string> {
    b => CulvertWrites(b, repr)
  }

  /** The writes of the barrels, one barrel after another. */
  function CulvertsWrites(culverts: seq<RunnerBarrel>, repr: real -> string): seq<string> {
    EachBlock(culverts, CulvertBlock(repr))
  }

  /** Each barrel contributes its eleven writes, barrel `i`'s between those of the barrels before
      it and those of the barrels after it. */
  lemma CulvertsWritesLayout(culverts: seq<RunnerBarrel>, i: nat, repr: real -> string)
    requires i < |culverts|
    ensures |CulvertsWrites(culverts, repr)| == 11 * |culverts|
    ensures CulvertsWrites(culverts, repr)
      == CulvertsWrites(culverts[..i], repr) + CulvertWrites(culverts[i], repr) + CulvertsWrites(culverts[i + 1..], repr)
  {
    EachBlockLength(culverts, CulvertBlock(repr), 11);
    EachBlockSplit(culverts, CulvertBlock(repr), i);
  }

  /** The barrels as they are after each one is written. */
  function WrittenCulverts(culverts: seq<RunnerBarrel>): (r: seq<RunnerBarrel>)
    ensures |r| == |culverts|
    decreases |culverts|
  {
    if culverts == [] then [] else WrittenCulverts(culverts[..|culverts| - 1]) + [Written(culverts[|culverts| - 1])]
  }

  lemma WrittenCulvertsStep(culverts: seq<RunnerBarrel>, i: nat)
    requires i < |culverts|
    ensures WrittenCulverts(culverts[..i + 1]) == WrittenCulverts(culverts[..i]) + [Written(culverts[i])]
  {
    assert culverts[..i + 1][..i] == culverts[..i];
  }

  /** Every barrel is stamped, in place and in order. */
  lemma {:induction false} WrittenCulvertsStamps(culverts: seq<RunnerBarrel>)
    ensures |WrittenCulverts(culverts)| == |culverts|
    ensures forall i :: 0 <= i < |culverts| ==> WrittenCulverts(culverts)[i] == Written(culverts[i])
    decreases |culverts|
  {
    if culverts != [] {
      var n := |culverts| - 1;
      WrittenCulvertsStamps(culverts[..n]);
      assert forall i :: 0 <= i < n ==> culverts[..n][i] == culverts[i];
    }
  }

  function ClosingWrites(c: RunnerCrossing): seq<string> {
    (if c.uuid.Some? then [Line("CROSSGUID", "            " + c.uuid.value)] else []) + [Line("ENDCROSSING", "")]
  }

  /** The flow after `compute_list`. */
  function ComputedFlow(f: RunnerFlow): RunnerFlow
    requires ComputeListHalts(f)
  {
    f.(flowList := ComputedList(f))
  }

  /** What `write_crossing_to_file` can write: `compute_list` returns and every rating row is
      complete. */
  predicate Writable(c: RunnerCrossing) {
    ComputeListHalts(c.flow) && RowsComplete(c.twRatingCurve)
  }

  /** Every `write` call of `write_crossing_to_file`, in order. */
  function CrossingWrites(c: RunnerCrossing, repr: real -> string): seq<string>
    requires Writable(c)
  {
    OpeningWrites(c) + DischargeWrites(ComputedFlow(c.flow), repr) + TailwaterWrites(c, repr)
    + RatingWrites(c.twRatingCurve, repr) + RoadwayWrites(c, repr)
    + ([Line("NUMCULVERTS", "  " + NatToString(|c.culverts|))] + CulvertsWrites(c.culverts, repr))
    + ClosingWrites(c)
  }

  /** The crossing after `write_crossing_to_file`: the flow list computed and each barrel stamped. */
  function WrittenCrossing(c: RunnerCrossing): RunnerCrossing
    requires Writable(c)
  {
    c.(flow := ComputedFlow(c.flow), culverts := WrittenCulverts(c.culverts))
  }

  // ---------------------------------------------------------------------------------------
  // What the writes promise
  // ---------------------------------------------------------------------------------------

  /** The flow count written is the number of flow lines that follow, one per computed flow. */
  lemma DischargeFlowsCounted(f: RunnerFlow, repr: real -> string)
    requires ComputeListHalts(f)
    ensures var w := DischargeWrites(ComputedFlow(f), repr);
      var flows := ComputedList(f);
      |w| == 3 + |flows|
      && w[2] == Line("DISCHARGEXYUSER", " " + NatToString(|flows|))
      && forall i :: 0 <= i < |flows| ==> w[3 + i] == Line("DISCHARGEXYUSER_Y", " " + repr(flows[i]))
  {
  }

  /** The tailwater section announces six stages and then writes seven stage lines, the
      TWRATINGCURVE line and six continuation lines, every one at the constant elevation; the
      package's writer writes exactly as many stage lines as it announces. */
  lemma {:induction false} TailwaterStages(c: RunnerCrossing, repr: real -> string, t: Tailwaters.TailwaterValue)
    requires t.twType.Constant? && t.ratingCurveEntries == StageCount
    ensures var w := TailwaterWrites(c, repr);
      |w| == 4 + StageCount
      && w[2] == Line("NUMRATINGCURVE", " " + NatToString(StageCount))
      && w[3] == Line("TWRATINGCURVE", " " + repr(c.twConstantElevation) + ZeroColumns(repr))
      && (forall i :: 4 <= i < |w| ==> w[i] == Line("", "              " + repr(c.twConstantElevation) + ZeroColumns(repr)))
    ensures |CardWriter.TailwaterCards(t).cards| == 3 + StageCount
  {
    CardWriter.TailwaterCardsSpec(t);
  }

  /** The rating curve block: nothing for an empty curve; otherwise its head, the count, three
      lines per row with the row's flow first, and its end. */
  lemma RatingBlock(curve: seq<seq<real>>, repr: real -> string)
    requires RowsComplete(curve)
    ensures var w := RatingWrites(curve, repr);
      (w == [] <==> curve == [])
      && (curve != [] ==>
            |w| == 3 + 3 * |curve|
            && w[0] == Line("RATINGCURVE", "") && w[1] == Line("NUMPOINTS", " " + NatToString(|curve|))
            && w[|w| - 1] == Line("END RATINGCURVE", "")
            && forall i :: 0 <= i < |curve| ==> w[2 + 3 * i] == Line("\tFLOW", " " + repr(curve[i][0])))
  {
    if curve != [] {
      var w := RatingWrites(curve, repr);
      var rows := RowsWrites(curve, |curve|, repr);
      forall i | 0 <= i < |curve|
        ensures w[2 + 3 * i] == Line("\tFLOW", " " + repr(curve[i][0]))
      {
        RowsWritesFlow(curve, |curve|, repr, i);
        assert w[2 + 3 * i] == rows[3 * i];
      }
    }
  }

  /** The first roadway point goes on ROADWAYSECDATA and every later one on ROADWAYPOINT; the
      station count written matches the points written exactly when there are no more stations
      than elevations. */
  lemma RoadwayPoints(c: RunnerCrossing, repr: real -> string)
    ensures var w := RoadwayWrites(c, repr);
      var n := Min(|c.roadwayStations|, |c.roadwayElevations|);
      |w| == 4 + n
      && (n > 0 ==> w[4] == Line("ROADWAYSECDATA", " " + repr(c.roadwayStations[0]) + " " + repr(c.roadwayElevations[0])))
      && (forall i :: 5 <= i < |w| ==> StartsWith(w[i], "ROADWAYPOINT"))
      && (|c.roadwayStations| == n <==> |c.roadwayStations| <= |c.roadwayElevations|)
  {
    var w := RoadwayWrites(c, repr);
    forall i | 5 <= i < |w|
      ensures StartsWith(w[i], "ROADWAYPOINT")
    {
      var k := i - 4;
      assert w[i] == PointLine(k, c.roadwayStations[k], c.roadwayElevations[k], repr);
      LineShape(PointCard(k), " " + repr(c.roadwayStations[k]) + " " + repr(c.roadwayElevations[k]));
    }
  }

  /** CROSSGUID is written exactly when the crossing has an identifier, and ENDCROSSING closes. */
  lemma GuidWritten(c: RunnerCrossing)
    ensures var w := ClosingWrites(c);
      (c.uuid.Some? <==> |w| == 2)
      && (c.uuid.Some? ==> w[0] == Line("CROSSGUID", "            " + c.uuid.value))
      && w[|w| - 1] == Line("ENDCROSSING", "")
  {
  }

  /** Writing a barrel again writes the same lines. */
  lemma {:induction false} CulvertsWriteTwice(culverts: seq<RunnerBarrel>, repr: real -> string)
    ensures CulvertsWrites(WrittenCulverts(culverts), repr) == CulvertsWrites(culverts, repr)
    decreases |culverts|
  {
    if culverts != [] {
      var n := |culverts| - 1;
      var w := WrittenCulverts(culverts);
      assert w == WrittenCulverts(culverts[..n]) + [Written(culverts[n])];
      assert w[..n] == WrittenCulverts(culverts[..n]) && w[n] == Written(culverts[n]);
      CulvertsWriteTwice(culverts[..n], repr);
      WriteTwice(culverts[n], repr);
    }
  }

  /** Writing a crossing a second time writes the same lines: the flow list is recomputed to
      itself and every barrel is already stamped. */
  lemma WriteTwiceSame(c: RunnerCrossing, repr: real -> string)
    requires Writable(c)
    ensures Writable(WrittenCrossing(c))
    ensures CrossingWrites(WrittenCrossing(c), repr) == CrossingWrites(c, repr)
  {
    var f := ComputedFlow(c.flow);
    assert ComputedList(f) == ComputedList(c.flow);
    CulvertsWriteTwice(c.culverts, repr);
  }

  // ---------------------------------------------------------------------------------------
  // write_crossing_to_file
  // ---------------------------------------------------------------------------------------

  /** The discharge section: `compute_list`, then the range, the method, the count and the flows. */
  method WriteDischarge(f: RunnerFlow, file: seq<string>, repr: real -> string) returns (g: RunnerFlow, out: seq<string>)
    requires ComputeListHalts(f)
    ensures g == ComputedFlow(f)
    ensures out == file + DischargeWrites(g, repr)
  {
    g := ComputeList(f);
    var dischargeMethod := 0;
    if g.flowMethod != MinDesignMaxMethod {
      dischargeMethod := 1;
    }
    out := file + [Line("DISCHARGERANGE", " " + repr(g.flowMin) + " " + repr(g.flowDesign) + " " + repr(g.flowMax)),
                   Line("DISCHARGEMETHOD", " " + IntToString(dischargeMethod)),
                   Line("DISCHARGEXYUSER", " " + NatToString(|g.flowList|))];
    var head := out;
    out := WriteEach(g.flowList, FlowLine(repr), out);
    assert out == head + EachLine(g.flowList, FlowLine(repr));
  }

  /** The tailwater section: the type, the channel, then the constant stage six times. */
  method WriteTailwater(c: RunnerCrossing, file: seq<string>, repr: real -> string) returns (out: seq<string>)
    ensures out == file + TailwaterWrites(c, repr)
  {
    var twList := seq(StageCount, _ => c.twConstantElevation);
    out := file + [Line("TAILWATERTYPE", " " + IntToString(c.twType)),
                   Line("CHANNELGEOMETRY", " " + repr(c.twBottomWidth) + " " + repr(c.twSideslope) + " "
                                           + repr(c.twChannelSlope) + " " + repr(c.twManningN) + " "
                                           + repr(c.twInvertElevation)),
                   Line("NUMRATINGCURVE", " " + NatToString(|twList|)),
                   Line("TWRATINGCURVE", " " + repr(twList[0]) + ZeroColumns(repr))];
    out := WriteEach(twList, StageLine(repr), out);
  }

  /** The rating curve section, for a non-empty curve: three lines per row. */
  method WriteRatingCurve(curve: seq<seq<real>>, file: seq<string>, repr: real -> string) returns (out: seq<string>)
    requires RowsComplete(curve)
    ensures out == file + RatingWrites(curve, repr)
  {
    out := file;
    var size := |curve|;
    if size > 0 {
      out := out + [Line("RATINGCURVE", ""), Line("NUMPOINTS", " " + NatToString(size))];
      var head := out;
      var index := 0;
      while index < size
        invariant 0 <= index <= size
        invariant out == head + RowsWrites(curve, index, repr)
      {
        SeqAppendAssoc(head, RowsWrites(curve, index, repr), RowWrites(curve[index], repr));
        out := out + [Line("\tFLOW", " " + repr(curve[index][0]))];
        out := out + [Line("\tELEVATION", " " + repr(curve[index][1]))];
        out := out + [Line("\tVELOCITY", " " + repr(curve[index][2]))];
        index := index + 1;
      }
      out := out + [Line("END RATINGCURVE", "")];
    }
  }

  /** The roadway section: shape, width, surface index and station count, then the points. */
  method WriteRoadway(c: RunnerCrossing, file: seq<string>, repr: real -> string) returns (out: seq<string>)
    ensures out == file + RoadwayWrites(c, repr)
  {
    var surfaceIndex := 1;
    if c.roadwaySurface == GravelSurface {
      surfaceIndex := 2;
    } else if c.roadwaySurface == UserDefinedSurface {
      surfaceIndex := 3;
    }
    var header := [Line("ROADWAYSHAPE", " " + IntToString(c.roadwayShape)),
                   Line("ROADWIDTH", " " + repr(c.roadwayWidth)),
                   Line("SURFACE", " " + IntToString(surfaceIndex)),
                   Line("NUMSTATIONS", " " + NatToString(|c.roadwayStations|))];
    out := WritePoints(c.roadwayStations, c.roadwayElevations, file + header, repr);
    SeqAppendAssoc(file, header, PointWrites(c.roadwayStations, c.roadwayElevations,
                                             Min(|c.roadwayStations|, |c.roadwayElevations|), repr));
  }

  /** The points, paired as `zip` pairs them (the shorter list decides), the first on
      ROADWAYSECDATA and the rest on ROADWAYPOINT. */
  method WritePoints(stations: seq<real>, elevations: seq<real>, file: seq<string>, repr: real -> string)
    returns (out: seq<string>)
    ensures out == file + PointWrites(stations, elevations, Min(|stations|, |elevations|), repr)
  {
    out := file;
    var cardName := "ROADWAYSECDATA";
    var i := 0;
    while i < Min(|stations|, |elevations|)
      invariant 0 <= i <= Min(|stations|, |elevations|)
      invariant cardName == PointCard(i)
      invariant out == file + PointWrites(stations, elevations, i, repr)
    {
      SeqAppendAssoc(file, PointWrites(stations, elevations, i, repr), [PointLine(i, stations[i], elevations[i], repr)]);
      out := out + [Line(cardName, " " + repr(stations[i]) + " " + repr(elevations[i]))];
      cardName := "ROADWAYPOINT";
      i := i + 1;
    }
  }

  /** `for culvert in self.culverts: culvert.write_culvert_to_file(hy8_file)` */
  method WriteCulverts(culverts: seq<RunnerBarrel>, file: seq<string>, repr: real -> string)
    returns (written: seq<RunnerBarrel>, out: seq<string>)
    ensures written == WrittenCulverts(culverts)
    ensures out == file + CulvertsWrites(culverts, repr)
  {
    out := file;
    written := [];
    var i := 0;
    while i < |culverts|
      invariant 0 <= i <= |culverts|
      invariant written == WrittenCulverts(culverts[..i])
      invariant out == file + CulvertsWrites(culverts[..i], repr)
    {
      EachBlockStep(culverts, i, CulvertBlock(repr));
      WrittenCulvertsStep(culverts, i);
      SeqAppendAssoc(file, CulvertsWrites(culverts[..i], repr), CulvertWrites(culverts[i], repr));
      var stamped, result, messages;
      stamped, result, messages, out := WriteCulvertToFile(culverts[i], out, repr);
      written := written + [stamped];
      i := i + 1;
    }
    assert culverts[..|culverts|] == culverts;
  }

  /** `write_crossing_to_file(hy8_file)`: the crossing's lines in order, the crossing left with
      its flow list computed and its barrels stamped, and always `(True, "")`. */
  method WriteCrossingToFile(c: RunnerCrossing, file: seq<string>, repr: real -> string)
    returns (written: RunnerCrossing, result: bool, messages: string, out: seq<string>)
    requires Writable(c)
    ensures written == WrittenCrossing(c)
    ensures out == file + CrossingWrites(c, repr)
    ensures result && messages == ""
  {
    messages, result := "", true;
    ghost var sofar := OpeningWrites(c);
    out := file + [Line("STARTCROSSING", "   \"" + c.name + "\""), Line("STARTCROSSNOTES", "    \"" + c.notes + "\"")];
    var flow;
    flow, out := WriteDischarge(c.flow, out, repr);
    SeqAppendAssoc(file, sofar, DischargeWrites(flow, repr));
    sofar := sofar + DischargeWrites(flow, repr);
    out := WriteTailwater(c, out, repr);
    SeqAppendAssoc(file, sofar, TailwaterWrites(c, repr));
    sofar := sofar + TailwaterWrites(c, repr);
    out := WriteRatingCurve(c.twRatingCurve, out, repr);
    SeqAppendAssoc(file, sofar, RatingWrites(c.twRatingCurve, repr));
    sofar := sofar + RatingWrites(c.twRatingCurve, repr);
    out := WriteRoadway(c, out, repr);
    SeqAppendAssoc(file, sofar, RoadwayWrites(c, repr));
    sofar := sofar + RoadwayWrites(c, repr);
    out := out + [Line("NUMCULVERTS", "  " + NatToString(|c.culverts|))];
    var culverts;
    culverts, out := WriteCulverts(c.culverts, out, repr);
    ghost var barrels := [Line("NUMCULVERTS", "  " + NatToString(|c.culverts|))] + CulvertsWrites(c.culverts, repr);
    SeqAppendAssoc(file + sofar, [Line("NUMCULVERTS", "  " + NatToString(|c.culverts|))], CulvertsWrites(c.culverts, repr));
    SeqAppendAssoc(file, sofar, barrels);
    sofar := sofar + barrels;
    if c.uuid.Some? {
      out := out + [Line("CROSSGUID", "            " + c.uuid.value)];
    }
    out := out + [Line("ENDCROSSING", "")];
    SeqAppendAssoc(file, sofar, ClosingWrites(c));
    written := c.(flow := flow, culverts := culverts);
  }
}
