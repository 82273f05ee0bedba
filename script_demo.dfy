/** The CSV demo driver (`scripts/csv_culvert_demo.py`): picking a row of the culvert list,
    building a one-barrel crossing from it, bisecting over headwater until HY-8 reports the target
    flow, and the headwater metrics it prints. HY-8 itself is the parameter `run`: the result it
    reports for a headwater elevation, or the error it raises. */
module CsvDemo {
  import opened Wrappers
  import opened Text
  import opened Numbers
  import opened Enums
  import opened References
  import opened Results
  import opened PyValues
  import Flows
  import Tailwaters
  import Roadways
  import Barrels
  import Crossings
  import Projects
  import Hydraulics

  /** One row of the culvert list, column name to cell text. */
  type Row = map<string, string>

  /** The geometry shared by every row (`CrossingInputs`). */
  datatype CrossingInputs = CrossingInputs(
    inletInvert: real,
    outletInvert: real,
    length: real,
    roadwayElevation: real,
    roadwayWidth: real,
    tailwaterElevation: real)

  /** The script's hard-coded inputs. */
  const DefaultInputs: CrossingInputs := CrossingInputs(0.15, 0.0, 30.0, 20.0, 10.0, 0.0)

  /** The error a `row[key]` lookup raises for a missing column. */
  function MissingColumn(key: string): string {
    "KeyError: '" + key + "'"
  }

  /** The error `float(text)` raises for a cell that is not a number. */
  function NotANumber(text: string): string {
    "could not convert string to float: '" + text + "'"
  }

  // ---------------------------------------------------------------------------------------
  // select_row
  // ---------------------------------------------------------------------------------------

  /** The row's crossing, stripped, is the name asked for. */
  predicate NamedRow(row: Row, name: string) {
    "Crossing" in row && Strip(row["Crossing"]) == name
  }

  /** The row's "Adopted Flow" is a positive number. */
  predicate PositiveFlowRow(row: Row) {
    "Adopted Flow" in row && ParseFloat(row["Adopted Flow"]).Some? && ParseFloat(row["Adopted Flow"]).value > 0.0
  }

  function NameNotFound(name: string): string {
    "Crossing '" + name + "' not found in CSV."
  }

  const NoPositiveFlow: string := "No rows with a positive adopted flow were found."

  /** The index of the first row that `stop` holds of, as a `for` loop that breaks there. */
  function FirstIndex(rows: seq<Row>, stop: Row -> bool): (r: Option<nat>)
    ensures r.Some? ==> r.value < |rows| && stop(rows[r.value])
                        && forall j :: 0 <= j < r.value ==> !stop(rows[j])
    ensures r.None? <==> forall i :: 0 <= i < |rows| ==> !stop(rows[i])
    decreases |rows|
  {
    if rows == [] then None
    else if stop(rows[0]) then Some(0)
    else
      var r := FirstIndex(rows[1..], stop);
      assert forall j :: 1 <= j < |rows| ==> rows[j] == rows[1..][j - 1];
      if r.Some? then Some(r.value + 1) else None
  }

  /** The first loop of `select_row`: the first row whose stripped crossing is the name; a row
      without a crossing column raises on the way. */
  function FindNamed(rows: seq<Row>, name: string): (r: Result<Row>)
    ensures r.Ok? ==> exists i :: 0 <= i < |rows| && rows[i] == r.value && NamedRow(rows[i], name)
                                  && forall j :: 0 <= j < i ==> !NamedRow(rows[j], name)
    ensures (forall i :: 0 <= i < |rows| ==> "Crossing" in rows[i]) ==>
      (r.Err? <==> forall i :: 0 <= i < |rows| ==> !NamedRow(rows[i], name))
      && (r.Err? ==> r.msg == NameNotFound(name))
  {
    match FirstIndex(rows, row => "Crossing" !in row || NamedRow(row, name))
    case None => Err(NameNotFound(name))
    case Some(i) => if "Crossing" !in rows[i] then Err(MissingColumn("Crossing")) else Ok(rows[i])
  }

  /** The second loop of `select_row`: the first row with a positive adopted flow; rows whose
      flow is missing or not a number are passed over. */
  function FirstPositive(rows: seq<Row>): (r: Result<Row>)
    ensures r.Ok? ==> exists i :: 0 <= i < |rows| && rows[i] == r.value && PositiveFlowRow(rows[i])
                                  && forall j :: 0 <= j < i ==> !PositiveFlowRow(rows[j])
    ensures r.Err? <==> forall i :: 0 <= i < |rows| ==> !PositiveFlowRow(rows[i])
    ensures r.Err? ==> r.msg == NoPositiveFlow
  {
    match FirstIndex(rows, PositiveFlowRow)
    case None => Err(NoPositiveFlow)
    case Some(i) => Ok(rows[i])
  }

  /** `select_row(rows, name)`: by name when one is given (an empty name counts as none),
      otherwise by positive flow. */
  function SelectRow(rows: seq<Row>, name: Option<string>): Result<Row> {
    if name.Some? && name.value != "" then FindNamed(rows, name.value) else FirstPositive(rows)
  }

  // ---------------------------------------------------------------------------------------
  // build_crossing
  // ---------------------------------------------------------------------------------------

  function NonPositiveFlow(name: string, flow: real, repr: real -> string): string {
    "Crossing '" + name + "' has a non-positive flow (" + repr(flow) + ")."
  }

  function ValidationFailed(name: string, errors: seq<string>): string {
    "Validation errors for '" + name + "': " + Join("; ", errors)
  }

  /** The barrel of the demo crossing: circular corrugated steel, straight thin-edge projecting
      inlet, Manning's n 0.024 top and bottom. */
  function DemoBarrel(name: string, inputs: CrossingInputs, barrels: int, diameter: real): Barrels.BarrelValue {
    Barrels.DefaultBarrel(name + " Barrel").(
      span := diameter, rise := diameter, shape := Circle, material := CorrugatedSteel,
      numberOfBarrels := barrels,
      inletInvertStation := 0.0, inletInvertElevation := inputs.inletInvert,
      outletInvertStation := inputs.length, outletInvertElevation := inputs.outletInvert,
      inletType := Straight, inletEdgeType := ThinEdgeProjecting,
      manningNTop := Some(0.024), manningNBottom := Some(0.024))
  }

  /** The crossing `build_crossing` assembles: one user-defined flow, a constant tailwater at its
      own invert, a level two-point roadway and the one barrel. */
  function DemoCrossing(name: string, inputs: CrossingInputs, flow: real, barrels: int, diameter: real)
    : Crossings.CrossingValue
  {
    var w, e := inputs.roadwayWidth, inputs.roadwayElevation;
    Crossings.DefaultCrossing(name).(
      flow := Flows.DefaultFlow.(userValues := [flow]),
      tailwater := Tailwaters.WithConstant(Tailwaters.DefaultTailwater, inputs.tailwaterElevation, Some(inputs.tailwaterElevation)),
      roadway := Roadways.DefaultRoadway.(width := w, stations := [0.0, w], elevations := [e, e]),
      culverts := [DemoBarrel(name, inputs, barrels, diameter)])
  }

  /** The demo crossing validates exactly when the roadway has a width, the barrel has a
      diameter and a count, and the tailwater stays below the roadway. */
  lemma DemoCrossingValid(name: string, inputs: CrossingInputs, flow: real, barrels: int, diameter: real)
    ensures Crossings.CrossingValid(DemoCrossing(name, inputs, flow, barrels, diameter)) <==>
      inputs.roadwayWidth > 0.0 && diameter > 0.0 && barrels >= 1
      && inputs.tailwaterElevation < inputs.roadwayElevation
  {
    var c := DemoCrossing(name, inputs, flow, barrels, diameter);
    var b := DemoBarrel(name, inputs, barrels, diameter);
    var e := inputs.roadwayElevation;
    assert Roadways.MinOf([e, e]) == e by {
      assert Roadways.MinOf([e, e]) in [e, e];
    }
    assert Crossings.AllBarrelsValid([b]) <==> Barrels.BarrelValid(b) by {
      assert [b][0] == b;
    }
    assert Flows.FlowValid(c.flow) by {
      assert Flows.StrictlyIncreasing([flow]);
    }
  }

  /** The end of `build_crossing` once the cells are read: the crossing is validated and, when
      nothing is reported, returned in a project titled after it. */
  function Finish(name: string, inputs: CrossingInputs, flow: real, barrels: int, diameter: real, repr: real -> string)
    : (r: Result<(Projects.ProjectValue, Crossings.CrossingValue, real)>)
    ensures r.Ok? <==> Crossings.CrossingValid(DemoCrossing(name, inputs, flow, barrels, diameter))
  {
    var crossing := DemoCrossing(name, inputs, flow, barrels, diameter);
    var errors := Crossings.Validate(crossing, "", repr);
    if errors != [] then Err(ValidationFailed(name, errors))
    else
      var project := Projects.DefaultProject.(title := "CSV demo - " + name, crossings := [crossing]);
      Ok((project, crossing, diameter))
  }

  /** What `build_crossing(row, inputs, flow)` returns or raises, in the order it checks: the
      crossing column, the flow, the barrel count and diameter cells, then validation. A
      non-positive flow is refused before any other cell is read. */
  function BuildSpec(row: Row, inputs: CrossingInputs, flow: real, repr: real -> string)
    : (r: Result<(Projects.ProjectValue, Crossings.CrossingValue, real)>)
    ensures "Crossing" in row && flow <= 0.0 ==> r == Err(NonPositiveFlow(Strip(row["Crossing"]), flow, repr))
  {
    if "Crossing" !in row then Err(MissingColumn("Crossing"))
    else
      var name := Strip(row["Crossing"]);
      if flow <= 0.0 then Err(NonPositiveFlow(name, flow, repr))
      else if "Barrels" !in row then Err(MissingColumn("Barrels"))
      else
        var count := ParseFloat(row["Barrels"]);
        if count.None? then Err(NotANumber(row["Barrels"]))
        else if "Diameter (m)" !in row then Err(MissingColumn("Diameter (m)"))
        else
          var diameter := ParseFloat(row["Diameter (m)"]);
          if diameter.None? then Err(NotANumber(row["Diameter (m)"]))
          else Finish(name, inputs, flow, Truncate(count.value), diameter.value, repr)
  }

  /** A crossing that is returned is valid, carries the one flow asked for, and its one barrel
      has the row's positive diameter and at least one barrel; it is the only crossing of a
      project titled after it. */
  lemma BuildSpecValid(row: Row, inputs: CrossingInputs, flow: real, repr: real -> string)
    requires BuildSpec(row, inputs, flow, repr).Ok?
    ensures var (project, c, diameter) := BuildSpec(row, inputs, flow, repr).value;
      && flow > 0.0
      && Crossings.CrossingValid(c)
      && c.flow.userValues == [flow]
      && |c.culverts| == 1 && c.culverts[0].span == c.culverts[0].rise == diameter > 0.0
      && c.culverts[0].numberOfBarrels >= 1
      && project.crossings == [c] && project.title == "CSV demo - " + c.name
  {
    var name := Strip(row["Crossing"]);
    var barrels := Truncate(ParseFloat(row["Barrels"]).value);
    var diameter := ParseFloat(row["Diameter (m)"]).value;
    assert BuildSpec(row, inputs, flow, repr) == Finish(name, inputs, flow, barrels, diameter, repr);
    DemoCrossingValid(name, inputs, flow, barrels, diameter);
  }

  /** The fields `build_crossing` assigns on a fresh crossing, one by one. */
  method AssembleCrossing(name: string, inputs: CrossingInputs, flow: real, barrels: int, diameter: real)
    returns (crossing: Crossings.CulvertCrossing)
    ensures fresh(crossing)
    ensures crossing.Value() == DemoCrossing(name, inputs, flow, barrels, diameter)
  {
    crossing := new Crossings.CulvertCrossing(name);
    crossing.flow := Flows.DefaultFlow.(userValues := [flow]);
    crossing.tailwater := Tailwaters.WithConstant(crossing.tailwater, inputs.tailwaterElevation, Some(inputs.tailwaterElevation));
    crossing.roadway := crossing.roadway.(width := inputs.roadwayWidth);
    crossing.roadway := crossing.roadway.(stations := [0.0, inputs.roadwayWidth]);
    crossing.roadway := crossing.roadway.(elevations := [inputs.roadwayElevation, inputs.roadwayElevation]);

    var barrel := Barrels.DefaultBarrel(name + " Barrel");
    barrel := barrel.(span := diameter, rise := diameter, shape := Circle, material := CorrugatedSteel);
    barrel := barrel.(numberOfBarrels := barrels);
    barrel := barrel.(inletInvertStation := 0.0, inletInvertElevation := inputs.inletInvert);
    barrel := barrel.(outletInvertStation := inputs.length, outletInvertElevation := inputs.outletInvert);
    barrel := barrel.(inletType := Straight, inletEdgeType := ThinEdgeProjecting);
    barrel := barrel.(manningNTop := Some(0.024));
    barrel := barrel.(manningNBottom := Some(0.024));
    crossing.culverts := [];
    crossing.culverts := crossing.culverts + [barrel];
  }

  /** `build_crossing(row, inputs, flow)`: a fresh project holding a fresh crossing whose fields
      are assigned one by one. */
  method BuildCrossing(row: Row, inputs: CrossingInputs, flow: real, repr: real -> string)
    returns (r: Result<(Projects.Hy8Project, Crossings.CulvertCrossing, real)>)
    ensures r.Err? <==> BuildSpec(row, inputs, flow, repr).Err?
    ensures r.Err? ==> r.msg == BuildSpec(row, inputs, flow, repr).msg
    ensures r.Ok? ==>
      var (project, crossing, diameter) := r.value;
      var (p, c, d) := BuildSpec(row, inputs, flow, repr).value;
      fresh(project) && fresh(crossing) && project.Value() == p && crossing.Value() == c && diameter == d
  {
    if "Crossing" !in row {
      return Err(MissingColumn("Crossing"));
    }
    var name := Strip(row["Crossing"]);
    if flow <= 0.0 {
      return Err(NonPositiveFlow(name, flow, repr));
    }
    if "Barrels" !in row {
      return Err(MissingColumn("Barrels"));
    }
    var count := ParseFloat(row["Barrels"]);
    if count.None? {
      return Err(NotANumber(row["Barrels"]));
    }
    var barrels := Truncate(count.value);
    if "Diameter (m)" !in row {
      return Err(MissingColumn("Diameter (m)"));
    }
    var parsed := ParseFloat(row["Diameter (m)"]);
    if parsed.None? {
      return Err(NotANumber(row["Diameter (m)"]));
    }
    var diameter := parsed.value;

    r := FinishCrossing(name, inputs, flow, barrels, diameter, repr);
  }

  /** The end of `build_crossing`: a fresh project holding a fresh crossing, validated. */
  method FinishCrossing(name: string, inputs: CrossingInputs, flow: real, barrels: int, diameter: real, repr: real -> string)
    returns (r: Result<(Projects.Hy8Project, Crossings.CulvertCrossing, real)>)
    ensures var f := Finish(name, inputs, flow, barrels, diameter, repr);
      && (r.Err? <==> f.Err?)
      && (r.Err? ==> r.msg == f.msg)
      && (r.Ok? ==> fresh(r.value.0) && fresh(r.value.1) && r.value.2 == diameter
                    && r.value.0.Value() == f.value.0 && r.value.1.Value() == f.value.1)
  {
    var project := new Projects.Hy8Project();
    project.title := "CSV demo - " + name;
    var crossing := AssembleCrossing(name, inputs, flow, barrels, diameter);
    var value := crossing.Value();
    project.crossings := project.crossings + [value];
    var errors := Crossings.Validate(value, "", repr);
    if errors != [] {
      return Err(ValidationFailed(name, errors));
    }
    return Ok((project, crossing, diameter));
  }

  // ---------------------------------------------------------------------------------------
  // solve_headwater_with_q_from_hw
  // ---------------------------------------------------------------------------------------

  const BoundsError: string := "Upper headwater bound must exceed the inlet invert."

  function CapacityError(flow: real, maxFlow: real, upper: real): string {
    "Target flow " + Fixed(flow, 4) + " m^3/s exceeds the capacity before overtopping (max flow "
    + Fixed(maxFlow, 4) + " m^3/s at HW " + Fixed(upper, 3) + " m)."
  }

  /** `flow <= computed + tolerance`, false when HY-8 reported no number. */
  predicate Reaches(flow: real, computed: Num, tolerance: real) {
    computed.Val? && flow <= computed.v + tolerance
  }

  /** `computed + tolerance < flow`, false when HY-8 reported no number. */
  predicate FallsShort(flow: real, computed: Num, tolerance: real) {
    computed.Val? && computed.v + tolerance < flow
  }

  /** HY-8 as the demo calls it: `crossing.q_from_hw` at a headwater elevation, which returns a
      result or raises (a NaN target, no bracket, a bad geometry) with its message. */
  type Oracle = real -> Result<Hydraulics.HydraulicsResult>

  /** The state of the bisection loop: the interval, the last result, the oracle calls made in
      the loop, whether it broke off on a close enough result, and the message of a run that
      raised, which ends the loop. */
  datatype Search = Search(hwMin: real, hwMax: real, best: Hydraulics.HydraulicsResult, calls: nat, done: bool,
                           failure: Option<string>) {
    function Width(): real { hwMax - hwMin }
    function Mid(): real { 0.5 * (hwMin + hwMax) }
    predicate Stopped() { done || failure.Some? }
  }

  /** `abs(result.computed_flow - flow) <= tolerance`, false for a NaN flow. */
  predicate CloseEnough(computed: Num, flow: real, tolerance: real) {
    computed.Val? && Abs(computed.v - flow) <= tolerance
  }

  /** `delta < 0` for `delta = computed - flow`, false for a NaN flow. */
  predicate FallsBelow(computed: Num, flow: real) {
    computed.Val? && computed.v - flow < 0.0
  }

  /** One pass of the loop: run at the midpoint; a run that raises ends the loop with its
      message and leaves the interval as it was. Otherwise keep that result, and stop when it is
      close enough; otherwise move the lower end up when the flow falls short and the upper end
      down otherwise (a NaN flow included). Either way the interval is halved and stays ordered. */
  function Step(run: Oracle, flow: real, tolerance: real, s: Search): (r: Search)
    requires s.hwMin <= s.hwMax && !s.Stopped()
    ensures r.calls == s.calls + 1
    ensures run(s.Mid()).Err? ==> r.failure == Some(run(s.Mid()).msg) && !r.done
                                  && r.hwMin == s.hwMin && r.hwMax == s.hwMax && r.best == s.best
    ensures run(s.Mid()).Ok? ==> r.failure.None? && r.best == run(s.Mid()).value
    ensures run(s.Mid()).Ok? ==> (r.done <==> CloseEnough(run(s.Mid()).value.computedFlow, flow, tolerance))
    ensures !r.Stopped() ==> s.hwMin <= r.hwMin <= r.hwMax <= s.hwMax && 2.0 * r.Width() == s.Width()
    ensures !r.Stopped() && FallsBelow(run(s.Mid()).value.computedFlow, flow) ==> r.hwMin == s.Mid() && r.hwMax == s.hwMax
    ensures !r.Stopped() && !FallsBelow(run(s.Mid()).value.computedFlow, flow) ==> r.hwMin == s.hwMin && r.hwMax == s.Mid()
    ensures r.done ==> r.hwMin == s.hwMin && r.hwMax == s.hwMax
  {
    var mid := s.Mid();
    var out := run(mid);
    if out.Err? then s.(calls := s.calls + 1, failure := Some(out.msg))
    else
      var result := out.value;
      if CloseEnough(result.computedFlow, flow, tolerance) then s.(best := result, calls := s.calls + 1, done := true)
      else if FallsBelow(result.computedFlow, flow) then
        Search(mid, s.hwMax, result, s.calls + 1, false, None)
      else Search(s.hwMin, mid, result, s.calls + 1, false, None)
  }

  /** `for _ in range(n)` over the loop body, leaving at a `break` or a raised error. */
  function Passes(run: Oracle, flow: real, tolerance: real, s: Search, n: int): Search
    requires s.hwMin <= s.hwMax
    decreases n
  {
    if n <= 0 || s.Stopped() then s else Passes(run, flow, tolerance, Step(run, flow, tolerance, s), n - 1)
  }

  /** What the loop hands back: the message of the run that raised, else the last result. */
  function Outcome(s: Search): Result<Hydraulics.HydraulicsResult> {
    if s.failure.Some? then Err(s.failure.value) else Ok(s.best)
  }

  /** `w` doubled `k` times: the width of an interval before `k` halvings, given the width
      after them. */
  function DoubledTimes(w: real, k: nat): (r: real)
    ensures w >= 0.0 ==> r >= w
  {
    if k == 0 then w else 2.0 * DoubledTimes(w, k - 1)
  }

  /** The loop makes at most `n` oracle calls and runs all `n` unless it breaks off on a close
      enough result or on a run that raised, whose message is that of the run at the final
      interval's midpoint; the interval only shrinks, stays ordered and is halved by every pass
      that does not stop the loop. */
  lemma PassesSpec(run: Oracle, flow: real, tolerance: real, s: Search, n: int)
    requires s.hwMin <= s.hwMax && !s.Stopped()
    ensures var r := Passes(run, flow, tolerance, s, n);
      && s.calls <= r.calls <= s.calls + MaxInt(0, n)
      && (!r.Stopped() ==> r.calls == s.calls + MaxInt(0, n))
      && (r.done ==> r.failure.None? && CloseEnough(r.best.computedFlow, flow, tolerance) && r.calls > s.calls)
      && (r.failure.Some? ==> !r.done && run(r.Mid()) == Err(r.failure.value) && r.calls > s.calls)
      && s.hwMin <= r.hwMin <= r.hwMax <= s.hwMax
      && var halvings := r.calls - s.calls - (if r.Stopped() then 1 else 0);
        halvings >= 0 && DoubledTimes(r.Width(), halvings) == s.Width()
  {
    PassesCalls(run, flow, tolerance, s, n);
    PassesNarrow(run, flow, tolerance, s, n);
  }

  /** The oracle calls of the loop: one per pass, and a loop that breaks off did so on a close
      enough result or on the run at its interval's midpoint raising. */
  lemma {:induction false} PassesCalls(run: Oracle, flow: real, tolerance: real, s: Search, n: int)
    requires s.hwMin <= s.hwMax && !s.Stopped()
    ensures var r := Passes(run, flow, tolerance, s, n);
      && s.calls <= r.calls <= s.calls + MaxInt(0, n)
      && (!r.Stopped() ==> r.calls == s.calls + MaxInt(0, n))
      && (r.done ==> r.failure.None? && CloseEnough(r.best.computedFlow, flow, tolerance) && r.calls > s.calls)
      && (r.failure.Some? ==> !r.done && run(r.Mid()) == Err(r.failure.value) && r.calls > s.calls)
    decreases n
  {
    if n > 0 {
      var t := Step(run, flow, tolerance, s);
      if !t.Stopped() {
        PassesCalls(run, flow, tolerance, t, n - 1);
      } else {
        assert Passes(run, flow, tolerance, s, n) == t;
        assert t.failure.Some? ==> t.Mid() == s.Mid();
      }
    }
  }

  /** The interval of the loop: it stays inside the starting one and is halved by every pass
      that does not stop the loop. */
  lemma {:induction false} PassesNarrow(run: Oracle, flow: real, tolerance: real, s: Search, n: int)
    requires s.hwMin <= s.hwMax && !s.Stopped()
    ensures var r := Passes(run, flow, tolerance, s, n);
      && s.hwMin <= r.hwMin <= r.hwMax <= s.hwMax
      && var halvings := r.calls - s.calls - (if r.Stopped() then 1 else 0);
        halvings >= 0 && DoubledTimes(r.Width(), halvings) == s.Width()
    decreases n
  {
    if n > 0 {
      var t := Step(run, flow, tolerance, s);
      if !t.Stopped() {
        PassesNarrow(run, flow, tolerance, t, n - 1);
        PassesCalls(run, flow, tolerance, t, n - 1);
        var r := Passes(run, flow, tolerance, t, n - 1);
        assert Passes(run, flow, tolerance, s, n) == r;
        var h := r.calls - t.calls - (if r.Stopped() then 1 else 0);
        assert r.calls - s.calls - (if r.Stopped() then 1 else 0) == h + 1;
        assert DoubledTimes(r.Width(), h + 1) == 2.0 * t.Width();
      } else {
        assert Passes(run, flow, tolerance, s, n) == t && t.calls - s.calls - 1 == 0;
      }
    } else {
      assert Passes(run, flow, tolerance, s, n) == s;
    }
  }

  /** `solve_headwater_with_q_from_hw`: what it returns or raises, a raising HY-8 run included. */
  function Solve(run: Oracle, flow: real, lower: real, upper: real, iterations: int, tolerance: real)
    : Result<Hydraulics.HydraulicsResult>
  {
    if !(upper > lower) then Err(BoundsError)
    else
      var low := run(lower);
      if low.Err? then Err(low.msg)
      else if Reaches(flow, low.value.computedFlow, tolerance) then Ok(low.value)
      else
        var high := run(upper);
        if high.Err? then Err(high.msg)
        else if FallsShort(flow, high.value.computedFlow, tolerance) then
          Err(CapacityError(flow, high.value.computedFlow.v, upper))
        else Outcome(Passes(run, flow, tolerance, Search(lower, upper, high.value, 0, false, None), iterations))
  }

  /** The bisection refuses bounds that are not increasing; it passes on the error of the lower
      bound's run, then returns that run when it already reaches the flow; it passes on the error
      of the upper bound's run, then refuses a flow that run cannot carry; otherwise it passes on
      the error of the first midpoint run that raises, or returns the upper bound's result when no
      pass runs, or the result of the last pass, which is close enough to the flow unless all
      passes ran. */
  lemma SolveSpec(run: Oracle, flow: real, lower: real, upper: real, iterations: int, tolerance: real)
    ensures var r := Solve(run, flow, lower, upper, iterations, tolerance);
      && (upper <= lower ==> r == Err(BoundsError))
      && (upper > lower && run(lower).Err? ==> r == run(lower))
      && (upper > lower && run(lower).Ok? && Reaches(flow, run(lower).value.computedFlow, tolerance) ==> r == run(lower))
      && (upper > lower && run(lower).Ok? && !Reaches(flow, run(lower).value.computedFlow, tolerance) ==>
            && (run(upper).Err? ==> r == run(upper))
            && (run(upper).Ok? && FallsShort(flow, run(upper).value.computedFlow, tolerance) ==>
                  r == Err(CapacityError(flow, run(upper).value.computedFlow.v, upper))))
      && (upper > lower && run(lower).Ok? && !Reaches(flow, run(lower).value.computedFlow, tolerance)
          && run(upper).Ok? && !FallsShort(flow, run(upper).value.computedFlow, tolerance) ==>
            var final := Passes(run, flow, tolerance, Search(lower, upper, run(upper).value, 0, false, None), iterations);
            && final.calls <= MaxInt(0, iterations)
            && lower <= final.hwMin <= final.hwMax <= upper
            && (r.Err? <==> final.failure.Some?)
            && (r.Err? ==> r == run(final.Mid()) && lower <= final.Mid() <= upper)
            && (r.Ok? ==> r == Ok(final.best))
            && (iterations <= 0 ==> r == run(upper))
            && (r.Ok? ==> CloseEnough(final.best.computedFlow, flow, tolerance) || final.calls == MaxInt(0, iterations)))
  {
    if upper > lower && run(lower).Ok? && run(upper).Ok? {
      PassesSpec(run, flow, tolerance, Search(lower, upper, run(upper).value, 0, false, None), iterations);
    }
  }

  /** The bisection loop itself. */
  method Bisect(run: Oracle, flow: real, lower: real, upper: real,
                high: Hydraulics.HydraulicsResult, iterations: int, tolerance: real)
    returns (r: Result<Hydraulics.HydraulicsResult>)
    requires lower <= upper
    ensures r == Outcome(Passes(run, flow, tolerance, Search(lower, upper, high, 0, false, None), iterations))
  {
    var best := high;
    var hwMin, hwMax := lower, upper;
    var k := 0;
    while k < iterations
      invariant 0 <= k && hwMin <= hwMax
      invariant Passes(run, flow, tolerance, Search(lower, upper, high, 0, false, None), iterations)
             == Passes(run, flow, tolerance, Search(hwMin, hwMax, best, k, false, None), iterations - k)
      decreases iterations - k
    {
      var midHw := 0.5 * (hwMin + hwMax);
      var out := run(midHw);
      if out.Err? {
        return Err(out.msg);
      }
      var result := out.value;
      best := result;
      var delta := result.computedFlow;
      if CloseEnough(delta, flow, tolerance) {
        return Ok(best);
      }
      if FallsBelow(delta, flow) {
        hwMin := midHw;
      } else {
        hwMax := midHw;
      }
      k := k + 1;
    }
    return Ok(best);
  }

  /** `solve_headwater_with_q_from_hw(...)`. */
  method SolveHeadwater(run: Oracle, flow: real, lower: real, upper: real,
                        iterations: int, tolerance: real)
    returns (r: Result<Hydraulics.HydraulicsResult>)
    ensures r == Solve(run, flow, lower, upper, iterations, tolerance)
  {
    if !(upper > lower) {
      return Err(BoundsError);
    }
    var low := run(lower);
    if low.Err? {
      return Err(low.msg);
    }
    if Reaches(flow, low.value.computedFlow, tolerance) {
      return Ok(low.value);
    }
    var high := run(upper);
    if high.Err? {
      return Err(high.msg);
    }
    if FallsShort(flow, high.value.computedFlow, tolerance) {
      return Err(CapacityError(flow, high.value.computedFlow.v, upper));
    }
    r := Bisect(run, flow, lower, upper, high.value, iterations, tolerance);
  }

  // ---------------------------------------------------------------------------------------
  // compute_metrics
  // ---------------------------------------------------------------------------------------

  /** `compute_metrics`: the headwater level, its height above the inlet invert in diameters, and
      the outlet velocity. The ratio is NaN for a zero diameter or a NaN level, and the velocity is
      NaN when there is no row. */
  function ComputeMetrics(result: Hydraulics.HydraulicsResult, diameter: real, inletInvert: real)
    : (m: (Num, Num, Num))
    ensures m.0 == result.computedHeadwater
    ensures m.1.Val? <==> diameter != 0.0 && result.computedHeadwater.Val?
    ensures m.1.Val? ==> m.1.v * diameter == result.computedHeadwater.v - inletInvert
    ensures result.row.None? ==> m.2 == NaN
    ensures result.row.Some? ==> m.2 == result.row.value.velocity
  {
    var level := result.computedHeadwater;
    var ratio := if diameter != 0.0 && level.Val? then Val((level.v - inletInvert) / diameter) else NaN;
    var velocity := if result.row.Some? then result.row.value.velocity else NaN;
    (level, ratio, velocity)
  }
}
