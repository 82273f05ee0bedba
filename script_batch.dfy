/** The spreadsheet batch driver (`scripts/batch_hy8_compare.py`): one crossing per scenario row
    around the reported discharge, the summary of a process stream, and the record written back
    for each scenario. */
module BatchCompare {
  import opened Wrappers
  import opened Text
  import opened Numbers
  import opened Enums
  import opened ScriptShared
  import Flows
  import Tailwaters
  import Roadways
  import Barrels
  import Crossings

  /** One spreadsheet row. The reported velocity and headwater may be missing (NaN); the
      geometry columns are real numbers. */
  datatype Scenario = Scenario(
    index: int,
    internalName: string,
    chanId: string,
    q: real,
    vReported: Num,
    usHeadwaterReported: Num,
    dsHeadwater: real,
    length: real,
    manningsN: real,
    usInvert: real,
    dsInvert: real,
    heightM: real,
    barrels: int,
    roadwayCrest: real)

  // ---------------------------------------------------------------------------------------
  // Crossing names
  // ---------------------------------------------------------------------------------------

  /** `crossing_name`: `S`, the index padded to five digits, and the channel id made safe
      (`CHAN` when the id is empty). */
  function CrossingName(s: Scenario): string {
    "S" + Padded(s.index, 5) + "_" + ReplaceRuns(if s.chanId == "" then "CHAN" else s.chanId)
  }

  /** Rows with different (non-negative) indices get different crossing names, whatever their
      channel ids, so one batch project never holds two crossings of the same name. */
  lemma CrossingNamesDistinct(a: Scenario, b: Scenario)
    requires a.index >= 0 && b.index >= 0 && a.index != b.index
    ensures CrossingName(a) != CrossingName(b)
  {
    PaddedValue(a.index, 5);
    PaddedValue(b.index, 5);
    var ca := ReplaceRuns(if a.chanId == "" then "CHAN" else a.chanId);
    var cb := ReplaceRuns(if b.chanId == "" then "CHAN" else b.chanId);
    NumberedNamesDistinct(Padded(a.index, 5), Padded(b.index, 5), ca, cb);
  }

  /** `S<digits>_<tail>` names with digit strings of different values differ: the first
      underscore ends the digits. */
  lemma NumberedNamesDistinct(pa: string, pb: string, ta: string, tb: string)
    requires AllDigits(pa) && AllDigits(pb) && DigitsValue(pa) != DigitsValue(pb)
    ensures "S" + pa + "_" + ta != "S" + pb + "_" + tb
  {
    var na, nb := "S" + pa + "_" + ta, "S" + pb + "_" + tb;
    assert na[1..1 + |pa|] == pa && na[1 + |pa|] == '_';
    assert nb[1..1 + |pb|] == pb && nb[1 + |pb|] == '_';
  }

  // ---------------------------------------------------------------------------------------
  // Crossings
  // ---------------------------------------------------------------------------------------

  /** `build_flow_range(q)`: the design flow is `q` raised to at least 0.01, with a minimum and
      a maximum around it, nudged apart when they would meet. */
  function FlowRange(q: real): (r: (real, real, real))
    ensures 0.0 < r.0 < r.1 < r.2
    ensures r.1 == Max(0.01, q)
  {
    var design := Max(0.01, q);
    var minimum := Max(0.005, design * 0.9);
    var maximum := Max(design + 0.01, design * 1.1);
    var design' := if minimum >= design then minimum + 0.01 else design;
    var maximum' := if design' >= maximum then design' + 0.01 else maximum;
    (minimum, design', maximum')
  }

  /** Neither adjustment ever fires: the minimum is nine tenths of the design flow and the
      maximum the larger of a hundredth above it and a tenth above it. */
  lemma FlowRangeUnadjusted(q: real)
    ensures var r := FlowRange(q);
      r.0 == 0.9 * r.1 && r.2 == Max(r.1 + 0.01, 1.1 * r.1) && r.0 >= 0.009
  {
  }

  /** A larger discharge never gives a smaller range. */
  lemma FlowRangeMonotone(q: real, q': real)
    requires q <= q'
    ensures FlowRange(q).0 <= FlowRange(q').0
    ensures FlowRange(q).1 <= FlowRange(q').1
    ensures FlowRange(q).2 <= FlowRange(q').2
  {
  }

  /** The constant tailwater: the downstream headwater, lifted to a hundredth above the
      downstream invert when it does not clear it. */
  function TailwaterConstant(s: Scenario): (t: real)
    ensures t > s.dsInvert && t >= s.dsHeadwater
  {
    if s.dsHeadwater <= s.dsInvert then s.dsInvert + 0.01 else s.dsHeadwater
  }

  function Diameter(s: Scenario): (d: real)
    ensures d >= 0.1
  {
    Max(0.1, s.heightM)
  }

  function RoadwayWidth(s: Scenario): (w: real)
    ensures w >= 5.0 && w >= 6.0 * Diameter(s)
  {
    Max(5.0, Diameter(s) * 6.0)
  }

  function ScenarioFlow(s: Scenario): Flows.FlowValue {
    var r := FlowRange(s.q);
    Flows.DefaultFlow.(flowMethod := MinDesignMax, minimum := r.0, design := r.1, maximum := r.2)
  }

  function ScenarioTailwater(s: Scenario): Tailwaters.TailwaterValue {
    var t := TailwaterConstant(s);
    Tailwaters.DefaultTailwater.(constantElevation := t, invertElevation := Min(Min(s.dsInvert, s.usInvert), t - 0.01))
  }

  function ScenarioRoadway(s: Scenario): Roadways.RoadwayValue {
    var w, c := RoadwayWidth(s), s.roadwayCrest;
    Roadways.DefaultRoadway.(width := w, stations := [-w / 2.0, 0.0, w / 2.0], elevations := [c, c, c], surface := Paved)
  }

  function ScenarioBarrel(s: Scenario): Barrels.BarrelValue {
    var d := Diameter(s);
    var n := if s.manningsN > 0.0 then Some(s.manningsN) else None;
    Barrels.DefaultBarrel("Barrel 1").(
      shape := Circle, material := Concrete, span := d, rise := d, numberOfBarrels := s.barrels,
      inletInvertElevation := s.usInvert, outletInvertElevation := s.dsInvert,
      inletInvertStation := 0.0, outletInvertStation := if s.length > 0.0 then s.length else d,
      manningNTop := n, manningNBottom := n)
  }

  /** The crossing `build_crossing(scenario)` returns. */
  function ScenarioCrossing(s: Scenario): Crossings.CrossingValue {
    Crossings.DefaultCrossing(CrossingName(s)).(
      flow := ScenarioFlow(s), tailwater := ScenarioTailwater(s), roadway := ScenarioRoadway(s),
      culverts := [ScenarioBarrel(s)])
  }

  /** `build_crossing(scenario)`: a fresh crossing whose fields are assigned one by one. */
  method BuildCrossing(s: Scenario) returns (crossing: Crossings.CulvertCrossing)
    ensures fresh(crossing)
    ensures crossing.Value() == ScenarioCrossing(s)
  {
    crossing := new Crossings.CulvertCrossing(CrossingName(s));
    var range := FlowRange(s.q);
    var flow := Flows.DefaultFlow.(flowMethod := MinDesignMax);
    flow := flow.(minimum := range.0, design := range.1, maximum := range.2);
    crossing.flow := flow;
    var tailwaterConstant := s.dsHeadwater;
    if tailwaterConstant <= s.dsInvert {
      tailwaterConstant := s.dsInvert + 0.01;
    }
    crossing.tailwater := crossing.tailwater.(constantElevation := tailwaterConstant);
    var invertElevation := Min(Min(s.dsInvert, s.usInvert), tailwaterConstant - 0.01);
    crossing.tailwater := crossing.tailwater.(invertElevation := invertElevation);

    var diameter := Max(0.1, s.heightM);
    var roadwayWidth := Max(5.0, diameter * 6.0);
    var crest := s.roadwayCrest;
    crossing.roadway := crossing.roadway.(width := roadwayWidth);
    crossing.roadway := crossing.roadway.(stations := [-roadwayWidth / 2.0, 0.0, roadwayWidth / 2.0]);
    crossing.roadway := crossing.roadway.(elevations := [crest, crest, crest]);
    crossing.roadway := crossing.roadway.(surface := Paved);

    var barrel := Barrels.DefaultBarrel("Barrel 1");
    barrel := barrel.(shape := Circle, material := Concrete, span := diameter, rise := diameter);
    barrel := barrel.(numberOfBarrels := s.barrels);
    barrel := barrel.(inletInvertElevation := s.usInvert, outletInvertElevation := s.dsInvert);
    barrel := barrel.(inletInvertStation := 0.0);
    barrel := barrel.(outletInvertStation := if s.length > 0.0 then s.length else diameter);
    if s.manningsN > 0.0 {
      barrel := barrel.(manningNTop := Some(s.manningsN), manningNBottom := Some(s.manningsN));
    }
    crossing.culverts := crossing.culverts + [barrel];
  }

  /** The built crossing always has a valid flow range, a valid tailwater (its invert at least a
      hundredth below the constant elevation) and a valid three-point level roadway; it passes
      validation exactly when the row has a barrel and the tailwater stays below the crest. */
  lemma ScenarioCrossingValid(s: Scenario)
    ensures var c := ScenarioCrossing(s);
      Flows.FlowValid(c.flow) && Tailwaters.TailwaterValid(c.tailwater)
      && c.tailwater.invertElevation <= c.tailwater.constantElevation - 0.01
      && Roadways.RoadwayValid(c.roadway)
      && (Crossings.CrossingValid(c) <==> s.barrels >= 1 && TailwaterConstant(s) < s.roadwayCrest)
  {
    var c := ScenarioCrossing(s);
    var e := c.roadway.elevations;
    assert Roadways.MinOf(e) == s.roadwayCrest by {
      assert Roadways.MinOf(e) in e;
    }
    var b := ScenarioBarrel(s);
    assert c.culverts == [b];
    assert Barrels.BarrelValid(b) <==> s.barrels >= 1;
    assert Crossings.AllBarrelsValid([b]) <==> Barrels.BarrelValid(b) by {
      assert [b][0] == b;
    }
  }

  /** The barrel spans the whole row length (the diameter when no length is given), from the
      upstream invert to the downstream one, with the row's roughness only when it is positive. */
  lemma ScenarioBarrelShape(s: Scenario)
    ensures var b := ScenarioCrossing(s).culverts;
      |b| == 1 && b[0].span == b[0].rise == Diameter(s) && b[0].numberOfBarrels == s.barrels
      && b[0].outletInvertStation > 0.0 && (s.length > 0.0 ==> b[0].outletInvertStation == s.length)
      && b[0].inletInvertElevation == s.usInvert && b[0].outletInvertElevation == s.dsInvert
      && (b[0].manningNTop.Some? <==> s.manningsN > 0.0)
  {
  }

  // ---------------------------------------------------------------------------------------
  // Process streams
  // ---------------------------------------------------------------------------------------

  /** `[line.strip() for line in lines if line.strip()]` */
  function KeptLines(lines: seq<string>): (r: seq<string>)
    ensures |r| <= |lines|
    ensures forall i :: 0 <= i < |r| ==> r[i] != []
    decreases |lines|
  {
    if lines == [] then []
    else (if Strip(lines[0]) != [] then [Strip(lines[0])] else []) + KeptLines(lines[1..])
  }

  /** Only blank lines are dropped. */
  lemma {:induction false} KeptLinesAll(lines: seq<string>)
    requires forall i :: 0 <= i < |lines| ==> Strip(lines[i]) != []
    ensures |KeptLines(lines)| == |lines|
    decreases |lines|
  {
    if lines != [] {
      KeptLinesAll(lines[1..]);
    }
  }

  function StreamLines(stream: string): seq<string> {
    KeptLines(SplitLines(stream))
  }

  function OmittedNote(n: int): string {
    "... (" + IntToString(n) + " omitted) ..."
  }

  /** `lines[-limit:]` for any integer `limit`: the last `limit` items for a positive one, every
      item for zero, and all but the first `-limit` for a negative one. */
  function PyTail<T>(xs: seq<T>, limit: int): (r: seq<T>)
    ensures limit > 0 ==> r == xs[(if limit <= |xs| then |xs| - limit else 0)..]
    ensures limit == 0 ==> r == xs
  {
    var start := -limit;
    var i := if start < 0 then (if |xs| + start >= 0 then |xs| + start else 0) else (if start <= |xs| then start else |xs|);
    xs[i..]
  }

  /** The lines of `summarize_process_stream(stream, limit)` as written: the omitted count is
      taken over all the lines of the stream, blank ones included. */
  function SummaryLinesAsWritten(stream: string, limit: int): seq<string> {
    var lines := StreamLines(stream);
    if |lines| > limit then [OmittedNote(|SplitLines(stream)| - limit)] + PyTail(lines, limit) else lines
  }

  /** `summarize_process_stream(stream, limit)` as written. */
  function SummaryAsWritten(stream: string, limit: int): string {
    if StreamLines(stream) == [] then "" else Join("\n", SummaryLinesAsWritten(stream, limit))
  }

  /** As written, a positive limit still bounds the summary: the note and then the last
      `limit` non-blank lines; a summary is empty exactly when no line is non-blank. */
  lemma SummaryAsWrittenShape(stream: string, limit: int)
    requires limit > 0
    ensures var lines, r := StreamLines(stream), SummaryLinesAsWritten(stream, limit);
      (|lines| <= limit ==> r == lines)
      && (|lines| > limit ==> |r| == limit + 1 && r[1..] == lines[|lines| - limit..])
    ensures SummaryAsWritten(stream, limit) == "" <==> StreamLines(stream) == []
  {
    var r := SummaryLinesAsWritten(stream, limit);
    if StreamLines(stream) != [] {
      assert r[0] != [];
      JoinNonEmpty(r);
    }
  }

  /** The lines of the corrected summary: the last `limit` non-blank lines, behind a note
      counting the non-blank lines left out. */
  function SummaryLines(stream: string, limit: nat): (r: seq<string>) {
    var lines := StreamLines(stream);
    if |lines| > limit then [OmittedNote(|lines| - limit)] + lines[|lines| - limit..] else lines
  }

  function Summary(stream: string, limit: nat): string {
    Join("\n", SummaryLines(stream, limit))
  }

  lemma {:induction false} JoinNonEmpty(parts: seq<string>)
    requires parts != [] && parts[0] != []
    ensures Join("\n", parts) != []
  {
    if |parts| > 1 {
      assert |Join("\n", parts)| >= |parts[0]|;
    }
  }

  /** The corrected summary is empty exactly when the stream has no non-blank line; it holds at
      most `limit` lines behind the note, which are the last lines kept, and the note's count and
      the lines shown add up to the non-blank lines of the stream. */
  lemma SummarySpec(stream: string, limit: nat)
    ensures Summary(stream, limit) == "" <==> StreamLines(stream) == []
    ensures var lines, r := StreamLines(stream), SummaryLines(stream, limit);
      |lines| <= limit ==> r == lines
    ensures var lines, r := StreamLines(stream), SummaryLines(stream, limit);
      |lines| > limit ==>
        |r| == limit + 1 && r[0] == OmittedNote(|lines| - limit)
        && (|lines| - limit) + |r[1..]| == |lines| && r[1..] == lines[|lines| - limit..]
  {
    var r := SummaryLines(stream, limit);
    if r != [] {
      assert r[0] != [] by {
        if |StreamLines(stream)| > limit {
          assert r[0] == OmittedNote(|StreamLines(stream)| - limit);
        }
      }
      JoinNonEmpty(r);
    }
  }

  /** When no line is blank and the limit is positive, the summary as written and the corrected
      one agree. */
  lemma SummaryAgreesWithoutBlankLines(stream: string, limit: nat)
    requires limit > 0
    requires forall i :: 0 <= i < |SplitLines(stream)| ==> Strip(SplitLines(stream)[i]) != []
    ensures SummaryAsWritten(stream, limit) == Summary(stream, limit)
  {
    KeptLinesAll(SplitLines(stream));
    var lines := StreamLines(stream);
    assert |lines| == |SplitLines(stream)|;
    assert SummaryLinesAsWritten(stream, limit) == SummaryLines(stream, limit) by {
      if |lines| > limit {
        assert PyTail(lines, limit) == lines[|lines| - limit..];
      }
    }
    if lines == [] {
      assert SummaryLines(stream, limit) == [];
    }
  }

  /** `a`, a blank line, `b` and `c`. */
  const BlankLineStream: string := "a" + "\n" + ("" + "\n" + ("b" + "\n" + "c"))

  /** The example stream splits into four lines, the second blank, and keeps three. */
  lemma BlankLineStreamLines()
    ensures SplitLines(BlankLineStream) == ["a", "", "b", "c"]
    ensures StreamLines(BlankLineStream) == ["a", "b", "c"]
  {
    assert SplitLines("c") == ["c"];
    SplitLinesCons("b", "c");
    SplitLinesCons("", "b" + "\n" + "c");
    SplitLinesCons("a", "" + "\n" + ("b" + "\n" + "c"));
    KeptExample(["a", "", "b", "c"]);
  }

  lemma KeptExample(lines: seq<string>)
    requires lines == ["a", "", "b", "c"]
    ensures KeptLines(lines) == ["a", "b", "c"]
  {
    assert Strip("a") == "a" && Strip("b") == "b" && Strip("c") == "c" && Strip("") == "";
    assert lines[1..] == ["", "b", "c"] && lines[1..][1..] == ["b", "c"] && lines[1..][1..][1..] == ["c"];
    assert KeptLines(["c"]) == ["c"];
    assert KeptLines(["b", "c"]) == ["b", "c"];
    assert KeptLines(["", "b", "c"]) == ["b", "c"];
  }

  /** A blank line inflates the count as written: of `a`, a blank line, `b` and `c` with a limit
      of two, only `a` is left out, but the note as written counts two. */
  lemma BlankLineCountedAsOmitted()
    ensures SummaryLinesAsWritten(BlankLineStream, 2) == [OmittedNote(2), "b", "c"]
    ensures SummaryLines(BlankLineStream, 2) == [OmittedNote(1), "b", "c"]
  {
    BlankLineStreamLines();
    assert ["a", "b", "c"][1..] == ["b", "c"];
  }

  // ---------------------------------------------------------------------------------------
  // Records
  // ---------------------------------------------------------------------------------------

  /** The row written back for one scenario. */
  datatype Record = Record(
    index: int,
    internalName: string,
    chanId: string,
    qInput: real,
    qUsed: Num,
    vReported: Num,
    vCalc: Num,
    vDiff: Num,
    usHReported: Num,
    usHCalc: Num,
    usHDiff: Num,
    dsH: real,
    length: real,
    nOrCd: real,
    usInvert: real,
    dsInvert: real,
    heightM: real,
    barrels: int,
    roadwayCrest: real,
    roadwayDischargeMax: real,
    overtopping: bool,
    flowType: string,
    status: string,
    message: string,
    workdir: string)

  /** A computed value less the reported one, NaN unless both are numbers. */
  function Difference(computed: Num, reported: Num): (r: Num)
    ensures r.NaN? <==> computed.NaN? || reported.NaN?
    ensures r.Val? ==> reported.v + r.v == computed.v
  {
    if !reported.NaN? && !computed.NaN? then Val(computed.v - reported.v) else NaN
  }

  /** `build_record(scenario, ...)` */
  function BuildRecord(s: Scenario, status: string, message: string, workdir: string, flowUsed: Num,
                       velocityCalc: Num, headwaterCalc: Num, roadwayMax: real, overtopping: bool,
                       flowType: string): Record
  {
    Record(s.index, s.internalName, s.chanId, s.q, flowUsed, s.vReported, velocityCalc,
           Difference(velocityCalc, s.vReported), s.usHeadwaterReported, headwaterCalc,
           Difference(headwaterCalc, s.usHeadwaterReported), s.dsHeadwater, s.length, s.manningsN,
           s.usInvert, s.dsInvert, s.heightM, s.barrels, s.roadwayCrest, roadwayMax, overtopping,
           flowType, status, message, workdir)
  }

  /** The record of a batch that failed: every computed value left at its default. */
  function ErrorRecord(s: Scenario, message: string, workdir: string): Record {
    BuildRecord(s, "error", message, workdir, NaN, NaN, NaN, 0.0, false, "")
  }

  /** The scenario columns of a record. */
  function ScenarioOf(r: Record): Scenario {
    Scenario(r.index, r.internalName, r.chanId, r.qInput, r.vReported, r.usHReported, r.dsH,
             r.length, r.nOrCd, r.usInvert, r.dsInvert, r.heightM, r.barrels, r.roadwayCrest)
  }

  /** A record carries its scenario back unchanged, and its differences are the computed values
      less the reported ones. */
  lemma RecordKeepsScenario(s: Scenario, status: string, message: string, workdir: string, flowUsed: Num,
                            velocityCalc: Num, headwaterCalc: Num, roadwayMax: real, overtopping: bool,
                            flowType: string)
    ensures var r := BuildRecord(s, status, message, workdir, flowUsed, velocityCalc, headwaterCalc,
                                 roadwayMax, overtopping, flowType);
      ScenarioOf(r) == s && r.vDiff == Difference(velocityCalc, s.vReported)
      && r.usHDiff == Difference(headwaterCalc, s.usHeadwaterReported)
  {
  }

  /** An error record reports no flow, no velocity and no headwater, so both differences are
      NaN whatever was reported. */
  lemma ErrorRecordNaN(s: Scenario, message: string, workdir: string)
    ensures var r := ErrorRecord(s, message, workdir);
      r.status == "error" && r.qUsed.NaN? && r.vDiff.NaN? && r.usHDiff.NaN? && ScenarioOf(r) == s
  {
  }
}
