/** The hydraulic helpers: one HY-8 run per requested flow, and the inverse search that brackets a
    target headwater by seeding, bisecting and interpolating over the flows HY-8 was asked about.
    HY-8 itself (writing the project, running the program, scanning its reports) is the parameter
    `evaluate`: the rows of the result table it gives for a project, or the error it raised. */
module Hydraulics {
  import opened Wrappers
  import opened Text
  import opened Numbers
  import opened Enums
  import opened References
  import opened Results
  import Flows
  import Barrels
  import Crossings
  import Projects

  // ---------------------------------------------------------------------------------------
  // Results of the helpers
  // ---------------------------------------------------------------------------------------

  /** `HydraulicsResult` (the workspace path is not modelled). */
  datatype HydraulicsResult = HydraulicsResult(
    crossingName: string,
    requestedFlow: Option<real>,
    requestedHeadwater: Option<real>,
    computedFlow: Num,
    computedHeadwater: Num,
    row: Option<ResultRow>)

  /** One HY-8 run of the search: the flow asked for and the row selected for it. */
  datatype Sample = Sample(flow: real, row: ResultRow) {
    function Headwater(): Num { row.headwaterElevation }
  }

  const NoValidRows: string := "HY-8 output did not include any valid flow rows."
  const NaNTarget: string := "Target headwater cannot be NaN."
  const NoBracket: string := "Unable to bracket the requested headwater."
  const NonPositiveDiameter: string := "Characteristic diameter must be greater than zero."
  const MixedShapes: string := "All barrels must share the same shape for headwater ratio calculations."
  const NegativeRatio: string := "Headwater-to-diameter ratio must be non-negative."

  /** The search's defaults: `max_runs` and `tolerance`. */
  const MaxRuns: int := 12
  const Tolerance: real := 0.0001

  // ---------------------------------------------------------------------------------------
  // Row selection
  // ---------------------------------------------------------------------------------------

  /** The row `_select_row_by_flow` picks: the first non-NaN row nearest to the flow. */
  function SelectedRow(rows: seq<ResultRow>, q: real): (r: Result<ResultRow>)
    ensures r.Err? <==> forall j :: 0 <= j < |rows| ==> rows[j].flow.NaN?
    ensures r.Err? ==> r.msg == NoValidRows
    ensures r.Ok? ==> r.value.flow.Val?
    ensures r.Ok? ==> exists i: nat :: FirstNearest(RowFlows(rows), q, i) && r.value == rows[i]
  {
    var i := NearestIndex(RowFlows(rows), Val(q));
    if i.None? then Err(NoValidRows) else Ok(rows[i.value])
  }

  /** `_select_row_by_flow(results, flow)` */
  method SelectRowByFlow(rows: seq<ResultRow>, q: real) returns (r: Result<ResultRow>)
    ensures r == SelectedRow(rows, q)
  {
    var flows := RowFlows(rows);
    var index: Option<nat> := None;
    var bestDelta: Option<real> := None;
    for k := 0 to |rows|
      invariant index == NearestIndex(flows[..k], Val(q))
      invariant index.Some? ==> index.value < k && flows[index.value].Val?
      invariant index.Some? ==> bestDelta == Some(Dist(flows[index.value].v, q))
      invariant index.None? ==> bestDelta.None?
    {
      NearestStep(flows, Val(q), k);
      if rows[k].flow.NaN? {
        continue;
      }
      var delta := Dist(rows[k].flow.v, q);
      if bestDelta.None? || delta < bestDelta.value {
        bestDelta := Some(delta);
        index := Some(k);
      }
    }
    assert flows[..|rows|] == flows;
    if index.None? {
      r := Err(NoValidRows);
    } else {
      r := Ok(rows[index.value]);
    }
  }

  // ---------------------------------------------------------------------------------------
  // Geometry of the crossing
  // ---------------------------------------------------------------------------------------

  /** A barrel's characteristic size: the span of a circle, the rise of a box. */
  function ShapeDiameter(b: Barrels.BarrelValue): real {
    if b.shape.Circle? then b.span else b.rise
  }

  predicate SameShape(culverts: seq<Barrels.BarrelValue>, shape: CulvertShape) {
    forall i :: 0 <= i < |culverts| ==> culverts[i].shape == shape
  }

  /** `_characteristic_diameter`: the first barrel's size, after checking that there is a barrel,
      that the size is positive and that every barrel has the first one's shape, in that order. */
  function CharacteristicDiameter(c: Crossings.CrossingValue): (r: Result<real>)
    ensures r.Ok? <==> c.culverts != [] && ShapeDiameter(c.culverts[0]) > 0.0 && SameShape(c.culverts, c.culverts[0].shape)
    ensures r.Ok? ==> r.value == ShapeDiameter(c.culverts[0]) && r.value > 0.0
    ensures c.culverts == [] ==> r == Err(Crossings.NoCulverts)
    ensures c.culverts != [] && ShapeDiameter(c.culverts[0]) <= 0.0 ==> r == Err(NonPositiveDiameter)
    ensures c.culverts != [] && ShapeDiameter(c.culverts[0]) > 0.0 && !SameShape(c.culverts, c.culverts[0].shape) ==>
      r == Err(MixedShapes)
  {
    if c.culverts == [] then Err(Crossings.NoCulverts)
    else
      var shape := c.culverts[0].shape;
      var d := ShapeDiameter(c.culverts[0]);
      if d <= 0.0 then Err(NonPositiveDiameter)
      else if exists i :: 1 <= i < |c.culverts| && c.culverts[i].shape != shape then Err(MixedShapes)
      else Ok(d)
  }

  /** A barrel block's count, a non-positive count standing for one barrel. */
  function BarrelsIn(b: Barrels.BarrelValue): int {
    if b.numberOfBarrels > 0 then b.numberOfBarrels else 1
  }

  /** The counts of the blocks added up. */
  function BarrelSum(culverts: seq<Barrels.BarrelValue>): (r: int)
    ensures r >= |culverts|
    ensures (forall i :: 0 <= i < |culverts| ==> culverts[i].numberOfBarrels <= 1) ==> r == |culverts|
    decreases |culverts|
  {
    if culverts == [] then 0
    else
      var n := |culverts| - 1;
      BarrelSum(culverts[..n]) + BarrelsIn(culverts[n])
  }

  /** What `_total_barrels` returns. */
  function BarrelCount(c: Crossings.CrossingValue): int {
    var s := BarrelSum(c.culverts);
    if s > 0 then s else 1
  }

  /** At least one barrel, and at least one per barrel block. */
  lemma BarrelCountBounds(c: Crossings.CrossingValue)
    ensures BarrelCount(c) >= 1 && BarrelCount(c) >= |c.culverts|
    ensures c.culverts != [] ==> BarrelCount(c) == BarrelSum(c.culverts)
  {
  }

  /** `_total_barrels(crossing)` */
  method TotalBarrels(c: Crossings.CrossingValue) returns (total: int)
    ensures total == BarrelCount(c)
  {
    total := 0;
    for i := 0 to |c.culverts|
      invariant total == BarrelSum(c.culverts[..i])
    {
      assert c.culverts[..i + 1][..i] == c.culverts[..i];
      var count := if c.culverts[i].numberOfBarrels > 0 then c.culverts[i].numberOfBarrels else 1;
      total := total + count;
    }
    assert c.culverts[..|c.culverts|] == c.culverts;
    if total <= 0 {
      total := 1;
    }
  }

  /** The full-bore flow estimate: `pi * d**2 / 4` per barrel. */
  function FullBoreFlow(pi: real, d: real, barrels: int): (r: real)
    ensures pi > 0.0 && d > 0.0 && barrels >= 1 ==> r > 0.0
  {
    var area := pi * d * d / 4.0;
    if pi > 0.0 && d > 0.0 && barrels >= 1 then
      PositiveTimes(pi, d);
      PositiveTimes(pi * d, d);
      PositiveTimes(area, barrels as real);
      area * (barrels as real)
    else area * (barrels as real)
  }

  lemma PositiveTimes(x: real, y: real)
    requires x > 0.0 && y > 0.0
    ensures x * y > 0.0
  {
  }

  /** `_simple_flow_estimate`: the barrels' full-bore area, `pi` standing for `math.pi`. The
      diameter's errors pass through; the estimate itself is always positive. */
  method SimpleFlowEstimate(pi: real, c: Crossings.CrossingValue) returns (r: Result<real>)
    requires pi > 0.0
    ensures CharacteristicDiameter(c).Err? ==> r == Err(CharacteristicDiameter(c).msg)
    ensures CharacteristicDiameter(c).Ok? ==> r == Ok(FullBoreFlow(pi, CharacteristicDiameter(c).value, BarrelCount(c)))
    ensures r.Ok? ==> r.value > 0.0
  {
    var diameter := CharacteristicDiameter(c);
    if diameter.Err? {
      return Err(diameter.msg);
    }
    var barrels := TotalBarrels(c);
    BarrelCountBounds(c);
    r := Ok(FullBoreFlow(pi, diameter.value, barrels));
  }

  /** The target of `crossing_q_for_hwd`: the first barrel's inlet invert plus the ratio times the
      characteristic diameter. A negative ratio is refused before the diameter is looked at; a NaN
      ratio passes both checks and gives a NaN target. */
  function HwdTarget(c: Crossings.CrossingValue, ratio: Num): (r: Result<Num>)
    ensures ratio.Val? && ratio.v < 0.0 ==> r == Err(NegativeRatio)
    ensures !(ratio.Val? && ratio.v < 0.0) && CharacteristicDiameter(c).Err? ==> r == Err(CharacteristicDiameter(c).msg)
    ensures r.Ok? ==> CharacteristicDiameter(c).Ok? && (r.value.NaN? <==> ratio.NaN?)
  {
    if ratio.Val? && ratio.v < 0.0 then Err(NegativeRatio)
    else
      var d := CharacteristicDiameter(c);
      if d.Err? then Err(d.msg)
      else if ratio.NaN? then Ok(NaN)
      else Ok(Val(c.culverts[0].inletInvertElevation + ratio.v * d.value))
  }

  /** The target is exactly `ratio` diameters above the inlet invert: reading the headwater back
      as a ratio gives the ratio asked for. */
  lemma HwdTargetRatio(c: Crossings.CrossingValue, x: real)
    requires HwdTarget(c, Val(x)).Ok?
    ensures var t := HwdTarget(c, Val(x)).value;
      var d := CharacteristicDiameter(c).value;
      && t.Val?
      && (t.v - c.culverts[0].inletInvertElevation) / d == x
      && t.v >= c.culverts[0].inletInvertElevation
  {
    var d := CharacteristicDiameter(c).value;
    var inlet := c.culverts[0].inletInvertElevation;
    assert HwdTarget(c, Val(x)).value == Val(inlet + x * d);
    assert (inlet + x * d - inlet) / d == x * d / d;
    assert x * d >= 0.0;
  }

  // ---------------------------------------------------------------------------------------
  // The scenario project
  // ---------------------------------------------------------------------------------------

  /** `_clone_project_with_crossing`: a project holding only the copied crossing, with the given
      project's header fields, or else titled after the crossing with the given units (SI when
      none) and exit-loss option (0 when none). */
  function CloneProjectWithCrossing(crossing: Crossings.CrossingValue, project: Option<Projects.ProjectValue>,
                                    units: Option<UnitSystem>, exitLoss: Option<int>): (r: (Projects.ProjectValue, Crossings.CrossingValue))
    ensures r.1 == crossing && r.0.crossings == [crossing]
  {
    var snapshot :=
      if project.Some? then
        Projects.ProjectValue(project.value.title, project.value.designer, project.value.notes,
                              project.value.units, project.value.exitLossOption, [])
      else
        Projects.ProjectValue(crossing.name, "", "", if units.Some? then units.value else SI,
                              if exitLoss.Some? then exitLoss.value else 0, []);
    (snapshot.(crossings := snapshot.crossings + [crossing]), crossing)
  }

  /** `FlowDefinition(method=USER_DEFINED, user_values=[q])` */
  function SingleFlow(q: real): Flows.FlowValue {
    Flows.DefaultFlow.(userValues := [q])
  }

  /** The scenario project after its crossing's flow is set to the single flow `q`. */
  function Scenario(snapshot: Projects.ProjectValue, crossing: Crossings.CrossingValue, q: real): Projects.ProjectValue {
    snapshot.(crossings := [crossing.(flow := SingleFlow(q))])
  }

  /** Every run sees one crossing, the caller's crossing with only its flow replaced, whose flow
      sequence is the single flow asked for; the header comes from the caller's project when there
      is one. */
  lemma ScenarioRunsOneFlow(crossing: Crossings.CrossingValue, project: Option<Projects.ProjectValue>,
                            units: Option<UnitSystem>, exitLoss: Option<int>, q: real)
    ensures var clone := CloneProjectWithCrossing(crossing, project, units, exitLoss);
      var p := Scenario(clone.0, clone.1, q);
      && |p.crossings| == 1
      && p.crossings[0].(flow := crossing.flow) == crossing
      && Flows.Sequence(p.crossings[0].flow) == Ok([q])
      && (project.Some? ==> p.(crossings := project.value.crossings) == project.value)
      && (project.None? ==> p.title == crossing.name && p.units == (if units.Some? then units.value else SI))
  {
  }

  /** One run: HY-8 on the scenario with flow `q`, then the row nearest to `q`. */
  function RunSpec(evaluate: Projects.ProjectValue -> Result<seq<ResultRow>>, snapshot: Projects.ProjectValue,
                   crossing: Crossings.CrossingValue, q: real): Result<ResultRow> {
    var rows := evaluate(Scenario(snapshot, crossing, q));
    if rows.Err? then Err(rows.msg) else SelectedRow(rows.value, q)
  }

  /** `_write_and_run` followed by `_select_row_by_flow`. */
  method RunAt(evaluate: Projects.ProjectValue -> Result<seq<ResultRow>>, snapshot: Projects.ProjectValue,
               crossing: Crossings.CrossingValue, q: real) returns (r: Result<ResultRow>)
    ensures r == RunSpec(evaluate, snapshot, crossing, q)
    ensures r.Ok? ==> r.value.flow.Val?
  {
    var rows := evaluate(Scenario(snapshot, crossing, q));
    if rows.Err? {
      return Err(rows.msg);
    }
    r := SelectRowByFlow(rows.value, q);
  }

  /** `crossing_hw_from_q`: one run at `q`; the result reports the selected row's flow and
      headwater. */
  method HwFromQ(evaluate: Projects.ProjectValue -> Result<seq<ResultRow>>, crossing: Crossings.CrossingValue, q: real,
                 project: Option<Projects.ProjectValue>, units: Option<UnitSystem>, exitLoss: Option<int>)
    returns (r: Result<HydraulicsResult>)
    ensures var clone := CloneProjectWithCrossing(crossing, project, units, exitLoss);
      var run := RunSpec(evaluate, clone.0, clone.1, q);
      && (r.Err? <==> run.Err?)
      && (r.Err? ==> r.msg == run.msg)
      && (r.Ok? ==> r.value == HydraulicsResult(crossing.name, Some(q), None, run.value.flow,
                                                run.value.headwaterElevation, Some(run.value)))
  {
    var clone := CloneProjectWithCrossing(crossing, project, units, exitLoss);
    var row := RunAt(evaluate, clone.0, clone.1, q);
    if row.Err? {
      return Err(row.msg);
    }
    r := Ok(HydraulicsResult(clone.1.name, Some(q), None, row.value.flow, row.value.headwaterElevation, Some(row.value)));
  }

  // ---------------------------------------------------------------------------------------
  // Seeds
  // ---------------------------------------------------------------------------------------

  /** `max(0.0, x)` */
  function Clamp(x: real): real {
    if x > 0.0 then x else 0.0
  }

  /** The seed flows before de-duplication: around the hint when it is positive, otherwise
      zero, half the estimate and the estimate. */
  function SeedBase(simpleFlow: real, qHint: Option<real>): seq<real> {
    if qHint.Some? && qHint.value != 0.0 && qHint.value > 0.0 then
      var h := qHint.value;
      [0.0, Clamp(0.9 * h), Clamp(h), Clamp(1.1 * h), Clamp(simpleFlow)]
    else
      var half := if simpleFlow > 0.0 then simpleFlow / 2.0 else 0.0;
      [0.0, Clamp(half), Clamp(simpleFlow)]
  }

  /** The rounding keys of a list of flows. */
  function KeySet(xs: seq<real>): set<int> {
    set i | 0 <= i < |xs| :: Round6Key(xs[i])
  }

  /** The loop of `initial_candidates`: a flow is kept unless an earlier kept flow has its key. */
  function Dedup(xs: seq<real>): seq<real>
    decreases |xs|
  {
    if xs == [] then []
    else
      var n := |xs| - 1;
      var kept := Dedup(xs[..n]);
      if Round6Key(xs[n]) in KeySet(kept) then kept else kept + [xs[n]]
  }

  /** Position `j` holds the first flow of `xs` with its key. */
  predicate FirstWithKey(xs: seq<real>, j: nat) {
    j < |xs| && forall k :: 0 <= k < j ==> Round6Key(xs[k]) != Round6Key(xs[j])
  }

  /** The reference selection: the first flow of each key, in the order of the list. */
  function FirstOccurrences(xs: seq<real>, n: nat): seq<real>
    requires n <= |xs|
  {
    if n == 0 then [] else FirstOccurrences(xs, n - 1) + (if FirstWithKey(xs, n - 1) then [xs[n - 1]] else [])
  }

  lemma KeySetStep(xs: seq<real>, n: nat)
    requires n < |xs|
    ensures KeySet(xs[..n + 1]) == KeySet(xs[..n]) + {Round6Key(xs[n])}
  {
    var a, b := xs[..n + 1], xs[..n];
    forall key | key in KeySet(a)
      ensures key in KeySet(b) + {Round6Key(xs[n])}
    {
      var i :| 0 <= i < |a| && Round6Key(a[i]) == key;
      if i < n {
        assert b[i] == a[i];
      }
    }
    forall key | key in KeySet(b) + {Round6Key(xs[n])}
      ensures key in KeySet(a)
    {
      if key in KeySet(b) {
        var i :| 0 <= i < |b| && Round6Key(b[i]) == key;
        assert a[i] == b[i];
      } else {
        assert a[n] == xs[n];
      }
    }
  }

  lemma KeySetAppend(xs: seq<real>, x: real)
    ensures KeySet(xs + [x]) == KeySet(xs) + {Round6Key(x)}
  {
    var ys := xs + [x];
    KeySetStep(ys, |xs|);
    assert ys[..|xs| + 1] == ys && ys[..|xs|] == xs;
  }

  /** De-duplication keeps every key and drops no key. */
  lemma {:induction false} DedupKeys(xs: seq<real>)
    ensures KeySet(Dedup(xs)) == KeySet(xs)
    decreases |xs|
  {
    if xs != [] {
      var n := |xs| - 1;
      DedupKeys(xs[..n]);
      KeySetStep(xs, n);
      assert xs[..n + 1] == xs;
      var kept := Dedup(xs[..n]);
      if Round6Key(xs[n]) !in KeySet(kept) {
        KeySetAppend(kept, xs[n]);
      }
    }
  }

  lemma InKeySet(xs: seq<real>, i: nat)
    requires i < |xs|
    ensures Round6Key(xs[i]) in KeySet(xs)
  {
  }

  /** A key is met before position `n` exactly when an earlier flow has it. */
  lemma KeyBefore(xs: seq<real>, n: nat)
    requires n < |xs|
    ensures Round6Key(xs[n]) in KeySet(xs[..n]) <==> !FirstWithKey(xs, n)
  {
    if Round6Key(xs[n]) in KeySet(xs[..n]) {
      var i :| 0 <= i < n && Round6Key(xs[..n][i]) == Round6Key(xs[n]);
      assert Round6Key(xs[i]) == Round6Key(xs[n]);
    } else {
      forall k | 0 <= k < n
        ensures Round6Key(xs[k]) != Round6Key(xs[n])
      {
        assert xs[..n][k] == xs[k];
      }
    }
  }

  lemma FirstWithKeyPrefix(xs: seq<real>, n: nat, j: nat)
    requires j < n <= |xs|
    ensures FirstWithKey(xs[..n], j) <==> FirstWithKey(xs, j)
  {
  }

  lemma FirstOccurrencesPrefix(xs: seq<real>, n: nat, m: nat)
    requires m <= n <= |xs|
    ensures FirstOccurrences(xs[..n], m) == FirstOccurrences(xs, m)
    decreases m
  {
    if m > 0 {
      FirstOccurrencesPrefix(xs, n, m - 1);
      FirstWithKeyPrefix(xs, n, m - 1);
    }
  }

  /** The scan with a set of keys seen keeps exactly the first flow of each key, in order. */
  lemma {:induction false} DedupIsFirstOccurrences(xs: seq<real>)
    ensures Dedup(xs) == FirstOccurrences(xs, |xs|)
    decreases |xs|
  {
    if xs != [] {
      var n := |xs| - 1;
      DedupIsFirstOccurrences(xs[..n]);
      DedupKeys(xs[..n]);
      KeyBefore(xs, n);
      FirstOccurrencesPrefix(xs, n, n);
    }
  }

  /** Kept flows come from the list. */
  lemma {:induction false} DedupFrom(xs: seq<real>)
    ensures forall x :: x in Dedup(xs) ==> x in xs
    decreases |xs|
  {
    if xs != [] {
      var n := |xs| - 1;
      DedupFrom(xs[..n]);
      assert xs == xs[..n] + [xs[n]];
    }
  }

  /** No two kept flows share a key. */
  lemma {:induction false} DedupDistinct(xs: seq<real>)
    ensures forall i, j :: 0 <= i < j < |Dedup(xs)| ==> Round6Key(Dedup(xs)[i]) != Round6Key(Dedup(xs)[j])
    decreases |xs|
  {
    if xs != [] {
      var n := |xs| - 1;
      DedupDistinct(xs[..n]);
      var kept := Dedup(xs[..n]);
      if Round6Key(xs[n]) !in KeySet(kept) {
        var d := kept + [xs[n]];
        forall i, j | 0 <= i < j < |d|
          ensures Round6Key(d[i]) != Round6Key(d[j])
        {
          if j == |kept| {
            assert d[i] == kept[i] && d[j] == xs[n];
            InKeySet(kept, i);
          } else {
            assert d[i] == kept[i] && d[j] == kept[j];
          }
        }
      }
    }
  }

  /** The first flow is always kept, in first place. */
  lemma {:induction false} DedupFirst(xs: seq<real>)
    requires xs != []
    ensures Dedup(xs) != [] && Dedup(xs)[0] == xs[0]
    decreases |xs|
  {
    var n := |xs| - 1;
    if n > 0 {
      DedupFirst(xs[..n]);
      assert xs[..n][0] == xs[0];
    } else {
      assert xs[..n] == [];
    }
  }

  /** What `initial_candidates` returns. */
  function Seeds(simpleFlow: real, qHint: Option<real>): seq<real> {
    Dedup(SeedBase(simpleFlow, qHint))
  }

  /** The seeds: zero first, none negative, no two with the same key, every key of the base
      list represented, and at most five of them. */
  lemma SeedsProperties(simpleFlow: real, qHint: Option<real>)
    ensures 1 <= |Seeds(simpleFlow, qHint)| <= 5
    ensures Seeds(simpleFlow, qHint)[0] == 0.0
    ensures forall i :: 0 <= i < |Seeds(simpleFlow, qHint)| ==> Seeds(simpleFlow, qHint)[i] >= 0.0
    ensures forall i, j :: 0 <= i < j < |Seeds(simpleFlow, qHint)| ==>
      Round6Key(Seeds(simpleFlow, qHint)[i]) != Round6Key(Seeds(simpleFlow, qHint)[j])
    ensures KeySet(Seeds(simpleFlow, qHint)) == KeySet(SeedBase(simpleFlow, qHint))
  {
    var base := SeedBase(simpleFlow, qHint);
    var seeds := Dedup(base);
    DedupFirst(base);
    DedupFrom(base);
    DedupDistinct(base);
    DedupKeys(base);
    DedupIsFirstOccurrences(base);
    FirstOccurrencesLength(base, |base|);
    forall i | 0 <= i < |seeds|
      ensures seeds[i] >= 0.0
    {
      assert seeds[i] in base;
    }
  }

  lemma {:induction false} FirstOccurrencesLength(xs: seq<real>, n: nat)
    requires n <= |xs|
    ensures |FirstOccurrences(xs, n)| <= n
    decreases n
  {
    if n > 0 {
      FirstOccurrencesLength(xs, n - 1);
    }
  }

  // ---------------------------------------------------------------------------------------
  // The search state
  // ---------------------------------------------------------------------------------------

  /** A sample whose headwater is within the tolerance of the target. */
  predicate Matches(s: Sample, t: real, tol: real) {
    s.Headwater().Val? && Dist(s.Headwater().v, t) <= tol
  }

  /** The first of the first `n` samples that matches, if any. */
  function ExactIndex(samples: seq<Sample>, t: real, tol: real, n: nat): (r: Option<nat>)
    requires n <= |samples|
    ensures r.None? <==> forall j :: 0 <= j < n ==> !Matches(samples[j], t, tol)
    ensures r.Some? ==> r.value < n && Matches(samples[r.value], t, tol)
    ensures r.Some? ==> forall j :: 0 <= j < r.value ==> !Matches(samples[j], t, tol)
  {
    if n == 0 then None
    else
      var p := ExactIndex(samples, t, tol, n - 1);
      if p.Some? then p
      else if Matches(samples[n - 1], t, tol) then Some(n - 1)
      else None
  }

  /** What `exact_match` returns. */
  function ExactOf(samples: seq<Sample>, t: real, tol: real): Option<Sample> {
    var i := ExactIndex(samples, t, tol, |samples|);
    if i.None? then None else Some(samples[i.value])
  }

  /** `exact_match` finds a matching recorded sample, the first one, and finds nothing only when
      no recorded sample matches. */
  lemma ExactOfSpec(samples: seq<Sample>, t: real, tol: real)
    ensures ExactOf(samples, t, tol).None? <==> forall j :: 0 <= j < |samples| ==> !Matches(samples[j], t, tol)
    ensures ExactOf(samples, t, tol).Some? ==>
      exists i :: 0 <= i < |samples| && ExactOf(samples, t, tol) == Some(samples[i]) && Matches(samples[i], t, tol) &&
        forall j :: 0 <= j < i ==> !Matches(samples[j], t, tol)
  {
  }

  /** The sides of the target a sample can lie on: `delta <= 0` and `delta >= 0`. */
  datatype Side = Low | High

  predicate OnSide(s: Sample, t: real, side: Side) {
    s.Headwater().Val? && (if side.Low? then s.Headwater().v - t <= 0.0 else s.Headwater().v - t >= 0.0)
  }

  /** The non-NaN samples on one side of the target, in the order they were recorded. */
  function SideOf(samples: seq<Sample>, t: real, side: Side): (r: seq<Sample>)
    ensures |r| <= |samples|
    ensures forall s :: s in r <==> s in samples && OnSide(s, t, side)
    decreases |samples|
  {
    if samples == [] then []
    else
      var n := |samples| - 1;
      assert samples == samples[..n] + [samples[n]];
      SideOf(samples[..n], t, side) + (if OnSide(samples[n], t, side) then [samples[n]] else [])
  }

  /** Python's `max(xs, key=flow)`: the first sample of largest flow. */
  function MaxFlowUpTo(xs: seq<Sample>, n: nat): (i: nat)
    requires 0 < n <= |xs|
    ensures i < n
    ensures forall j :: 0 <= j < n ==> xs[j].flow <= xs[i].flow
    ensures forall j :: 0 <= j < i ==> xs[j].flow < xs[i].flow
  {
    if n == 1 then 0
    else
      var p := MaxFlowUpTo(xs, n - 1);
      if xs[n - 1].flow > xs[p].flow then n - 1 else p
  }

  /** Python's `min(xs, key=flow)`: the first sample of smallest flow. */
  function MinFlowUpTo(xs: seq<Sample>, n: nat): (i: nat)
    requires 0 < n <= |xs|
    ensures i < n
    ensures forall j :: 0 <= j < n ==> xs[i].flow <= xs[j].flow
    ensures forall j :: 0 <= j < i ==> xs[i].flow < xs[j].flow
  {
    if n == 1 then 0
    else
      var p := MinFlowUpTo(xs, n - 1);
      if xs[n - 1].flow < xs[p].flow then n - 1 else p
  }

  /** The low sample of largest flow. */
  function HighestLow(samples: seq<Sample>, t: real): (r: Sample)
    requires SideOf(samples, t, Low) != []
    ensures r in samples && OnSide(r, t, Low)
  {
    var lows := SideOf(samples, t, Low);
    var i := MaxFlowUpTo(lows, |lows|);
    assert lows[i] in lows;
    lows[i]
  }

  /** The high sample of smallest flow. */
  function LowestHigh(samples: seq<Sample>, t: real): (r: Sample)
    requires SideOf(samples, t, High) != []
    ensures r in samples && OnSide(r, t, High)
  {
    var highs := SideOf(samples, t, High);
    var i := MinFlowUpTo(highs, |highs|);
    assert highs[i] in highs;
    highs[i]
  }

  /** What `bracket` returns. */
  function BracketOf(samples: seq<Sample>, t: real, tol: real): Option<(Sample, Sample)> {
    if SideOf(samples, t, Low) == [] || SideOf(samples, t, High) == [] then None
    else
      var low := HighestLow(samples, t);
      var high := LowestHigh(samples, t);
      if low.flow == high.flow && Dist(low.Headwater().v, t) > tol then None
      else Some((low, high))
  }

  /** The chosen low sample lies at or below the target and has the largest flow of those that
      do; the chosen high sample lies at or above it and has the smallest flow of those that do. */
  lemma ExtremesSpec(samples: seq<Sample>, t: real)
    ensures SideOf(samples, t, Low) != [] ==>
      forall s :: s in samples && OnSide(s, t, Low) ==> s.flow <= HighestLow(samples, t).flow
    ensures SideOf(samples, t, High) != [] ==>
      forall s :: s in samples && OnSide(s, t, High) ==> LowestHigh(samples, t).flow <= s.flow
  {
    var lows, highs := SideOf(samples, t, Low), SideOf(samples, t, High);
    if lows != [] {
      var i := MaxFlowUpTo(lows, |lows|);
      forall s | s in samples && OnSide(s, t, Low)
        ensures s.flow <= lows[i].flow
      {
        var j :| 0 <= j < |lows| && lows[j] == s;
      }
    }
    if highs != [] {
      var i := MinFlowUpTo(highs, |highs|);
      forall s | s in samples && OnSide(s, t, High)
        ensures highs[i].flow <= s.flow
      {
        var j :| 0 <= j < |highs| && highs[j] == s;
      }
    }
  }

  /** A bracket straddles the target: `low.hw <= target <= high.hw`, with both ends recorded and
      extreme on their side. */
  lemma BracketStraddles(samples: seq<Sample>, t: real, tol: real, low: Sample, high: Sample)
    requires BracketOf(samples, t, tol) == Some((low, high))
    ensures low in samples && high in samples
    ensures low.Headwater().Val? && high.Headwater().Val?
    ensures low.Headwater().v <= t <= high.Headwater().v
    ensures forall s :: s in samples && OnSide(s, t, Low) ==> s.flow <= low.flow
    ensures forall s :: s in samples && OnSide(s, t, High) ==> high.flow <= s.flow
  {
    ExtremesSpec(samples, t);
  }

  /** There is no bracket exactly when a side is empty, or when the two ends share a flow and the
      low end misses the tolerance. */
  lemma BracketAbsent(samples: seq<Sample>, t: real, tol: real)
    ensures BracketOf(samples, t, tol).None? <==>
      || (forall s :: s in samples ==> !OnSide(s, t, Low))
      || (forall s :: s in samples ==> !OnSide(s, t, High))
      || (&& SideOf(samples, t, Low) != [] && SideOf(samples, t, High) != []
          && HighestLow(samples, t).flow == LowestHigh(samples, t).flow
          && Dist(HighestLow(samples, t).Headwater().v, t) > tol)
  {
    var lows, highs := SideOf(samples, t, Low), SideOf(samples, t, High);
    if lows != [] {
      assert lows[0] in lows;
    }
    if highs != [] {
      assert highs[0] in highs;
    }
  }

  /** Python's `x or d` for a float. */
  function OrElse(x: real, d: real): real {
    if x != 0.0 then x else d
  }

  /** What `next_guess` returns. */
  function NextGuessOf(samples: seq<Sample>, t: real, simpleFlow: real, qHint: Option<real>, maxRuns: int): Option<real> {
    if |samples| >= maxRuns then None
    else
      var hasLow := SideOf(samples, t, Low) != [];
      var hasHigh := SideOf(samples, t, High) != [];
      if hasLow && hasHigh then Some((HighestLow(samples, t).flow + LowestHigh(samples, t).flow) / 2.0)
      else if hasLow then
        var base := HighestLow(samples, t).flow;
        Some(if base > 0.0 then base * 2.0 else OrElse(simpleFlow, 1.0))
      else if hasHigh then Some(LowestHigh(samples, t).flow / 2.0)
      else Some(OrElse(simpleFlow, if qHint.Some? then OrElse(qHint.value, 1.0) else 1.0))
  }

  /** All recorded flows are non-negative. */
  predicate NonNegative(samples: seq<Sample>) {
    forall i :: 0 <= i < |samples| ==> samples[i].flow >= 0.0
  }

  /** `next_guess` stops at the run budget. With samples on both sides it returns the midpoint of
      the two extremes; with lows only it goes above every low flow; with highs only it goes below
      every positive high flow; with nothing usable it tries the estimate. With a positive
      estimate and non-negative flows so far, the guess is never negative. */
  lemma NextGuessSpec(samples: seq<Sample>, t: real, simpleFlow: real, qHint: Option<real>, maxRuns: int, g: real)
    requires NextGuessOf(samples, t, simpleFlow, qHint, maxRuns) == Some(g)
    ensures |samples| < maxRuns
    ensures SideOf(samples, t, Low) != [] && SideOf(samples, t, High) != [] ==>
      Min(HighestLow(samples, t).flow, LowestHigh(samples, t).flow) <= g <= Max(HighestLow(samples, t).flow, LowestHigh(samples, t).flow)
    ensures SideOf(samples, t, Low) != [] && SideOf(samples, t, High) == [] && HighestLow(samples, t).flow > 0.0 ==>
      forall s :: s in samples && OnSide(s, t, Low) ==> s.flow < g
    ensures SideOf(samples, t, Low) == [] && SideOf(samples, t, High) != [] && LowestHigh(samples, t).flow > 0.0 ==>
      0.0 < g && forall s :: s in samples && OnSide(s, t, High) ==> g < s.flow
    ensures (forall s :: s in samples ==> !OnSide(s, t, Low) && !OnSide(s, t, High)) && simpleFlow != 0.0 ==>
      g == simpleFlow
    ensures simpleFlow > 0.0 && NonNegative(samples) ==> g >= 0.0
  {
    ExtremesSpec(samples, t);
    var lows, highs := SideOf(samples, t, Low), SideOf(samples, t, High);
    if lows != [] {
      assert lows[0] in lows;
      var low := HighestLow(samples, t);
      var i :| 0 <= i < |samples| && samples[i] == low;
    }
    if highs != [] {
      assert highs[0] in highs;
      var high := LowestHigh(samples, t);
      var i :| 0 <= i < |samples| && samples[i] == high;
    }
  }

  /** The interpolated flow of the bracket branch: along the line through the two ends, or their
      midpoint when the ends have the same headwater. */
  function Interpolate(lowFlow: real, lowHw: real, highFlow: real, highHw: real, t: real): real {
    var slope := highHw - lowHw;
    if slope == 0.0 then (lowFlow + highFlow) / 2.0
    else lowFlow + ((t - lowHw) / slope) * (highFlow - lowFlow)
  }

  lemma MulNonNegative(x: real, y: real)
    requires x >= 0.0 && y >= 0.0
    ensures x * y >= 0.0
  {
  }

  lemma ScaledBetween(a: real, b: real, r: real)
    requires 0.0 <= r <= 1.0
    ensures Min(a, b) <= a + r * (b - a) <= Max(a, b)
  {
    if a <= b {
      MulNonNegative(r, b - a);
      MulNonNegative(1.0 - r, b - a);
      assert (b - a) - r * (b - a) == (1.0 - r) * (b - a);
    } else {
      MulNonNegative(r, a - b);
      MulNonNegative(1.0 - r, a - b);
      assert r * (b - a) == -(r * (a - b));
      assert (a - b) - r * (a - b) == (1.0 - r) * (a - b);
    }
  }

  lemma DivCancel(x: real, d: real)
    requires d != 0.0
    ensures (x * d) / d == x && (x / d) * d == x
  {
  }

  /** For a target between the two headwaters the guess lies between the two flows, and when the
      headwaters differ the line through the two ends reaches the target at the guess. */
  lemma InterpolateBetween(lowFlow: real, lowHw: real, highFlow: real, highHw: real, t: real)
    requires lowHw <= t <= highHw
    ensures var g := Interpolate(lowFlow, lowHw, highFlow, highHw, t);
      && Min(lowFlow, highFlow) <= g <= Max(lowFlow, highFlow)
      && (lowHw < highHw && lowFlow != highFlow ==>
            lowHw + (g - lowFlow) / (highFlow - lowFlow) * (highHw - lowHw) == t)
  {
    var slope := highHw - lowHw;
    if slope != 0.0 {
      var r := (t - lowHw) / slope;
      assert 0.0 <= r <= 1.0;
      ScaledBetween(lowFlow, highFlow, r);
      var g := lowFlow + r * (highFlow - lowFlow);
      DivCancel(t - lowHw, slope);
      if lowFlow != highFlow {
        DivCancel(r, highFlow - lowFlow);
        assert g - lowFlow == r * (highFlow - lowFlow);
      }
    }
  }

  /** `_FlowSearch`: the target, the seed estimate, the optional hint, the run budget, the
      tolerance, and the samples recorded so far. */
  class FlowSearch {
    const target: real
    const simpleFlow: real
    const qHint: Option<real>
    const maxRuns: int
    const tolerance: real
    var samples: seq<Sample>

    constructor (target: real, simpleFlow: real, qHint: Option<real>, maxRuns: int, tolerance: real)
      ensures this.target == target && this.simpleFlow == simpleFlow && this.qHint == qHint
      ensures this.maxRuns == maxRuns && this.tolerance == tolerance
      ensures samples == []
    {
      this.target := target;
      this.simpleFlow := simpleFlow;
      this.qHint := qHint;
      this.maxRuns := maxRuns;
      this.tolerance := tolerance;
      samples := [];
    }

    /** `initial_candidates()` */
    method InitialCandidates() returns (candidates: seq<real>)
      ensures candidates == Seeds(simpleFlow, qHint)
    {
      var base := SeedBase(simpleFlow, qHint);
      var seen: set<int> := {};
      candidates := [];
      for i := 0 to |base|
        invariant candidates == Dedup(base[..i])
        invariant seen == KeySet(candidates)
      {
        assert base[..i + 1][..i] == base[..i];
        var key := Round6Key(base[i]);
        if key in seen {
          continue;
        }
        KeySetAppend(candidates, base[i]);
        seen := seen + {key};
        candidates := candidates + [base[i]];
      }
      assert base[..|base|] == base;
    }

    /** `record(flow, row)` */
    method Record(flow: real, row: ResultRow) returns (sample: Sample)
      modifies this
      ensures sample == Sample(flow, row)
      ensures samples == old(samples) + [sample]
    {
      sample := Sample(flow, row);
      samples := samples + [sample];
    }

    /** `exact_match()` */
    method ExactMatch() returns (found: Option<Sample>)
      ensures found == ExactOf(samples, target, tolerance)
    {
      for k := 0 to |samples|
        invariant forall j :: 0 <= j < k ==> !Matches(samples[j], target, tolerance)
      {
        if samples[k].Headwater().NaN? {
          continue;
        }
        if Dist(samples[k].Headwater().v, target) <= tolerance {
          return Some(samples[k]);
        }
      }
      return None;
    }

    /** `bracket()` */
    method Bracket() returns (r: Option<(Sample, Sample)>)
      ensures r == BracketOf(samples, target, tolerance)
    {
      var lows: seq<Sample> := [];
      var highs: seq<Sample> := [];
      for k := 0 to |samples|
        invariant lows == SideOf(samples[..k], target, Low)
        invariant highs == SideOf(samples[..k], target, High)
      {
        assert samples[..k + 1][..k] == samples[..k];
        if samples[k].Headwater().NaN? {
          continue;
        }
        var delta := samples[k].Headwater().v - target;
        if delta <= 0.0 {
          lows := lows + [samples[k]];
        }
        if delta >= 0.0 {
          highs := highs + [samples[k]];
        }
      }
      assert samples[..|samples|] == samples;
      if lows == [] || highs == [] {
        return None;
      }
      var low := lows[MaxFlowUpTo(lows, |lows|)];
      var high := highs[MinFlowUpTo(highs, |highs|)];
      assert low in lows && high in highs;
      if low.flow == high.flow && Dist(low.Headwater().v, target) > tolerance {
        return None;
      }
      r := Some((low, high));
    }

    /** `next_guess()` */
    function NextGuess(): Option<real>
      reads this
    {
      NextGuessOf(samples, target, simpleFlow, qHint, maxRuns)
    }
  }

  // ---------------------------------------------------------------------------------------
  // The search loop of `crossing_q_from_hw`
  // ---------------------------------------------------------------------------------------

  /** A result taken from a recorded sample within the tolerance. */
  predicate Settled(samples: seq<Sample>, t: real, tol: real, final: Sample) {
    final in samples && Matches(final, t, tol)
  }

  /** A result taken from the interpolated guess `g` between the ends of the bracket, neither of
      which was within the tolerance: the reported flow is the selected row's. */
  predicate Interpolated(samples: seq<Sample>, t: real, tol: real, g: real, final: Sample) {
    var b := BracketOf(samples, t, tol);
    && b.Some?
    && !Matches(b.value.0, t, tol) && !Matches(b.value.1, t, tol)
    && b.value.0.Headwater().Val? && b.value.1.Headwater().Val?
    && g == Interpolate(b.value.0.flow, b.value.0.Headwater().v, b.value.1.flow, b.value.1.Headwater().v, t)
    && Min(b.value.0.flow, b.value.1.flow) <= g <= Max(b.value.0.flow, b.value.1.flow)
    && final.row.flow == Val(final.flow)
  }

  /** Every recorded sample holds the row that a run at its flow gives. */
  predicate Recorded(evaluate: Projects.ProjectValue -> Result<seq<ResultRow>>, snapshot: Projects.ProjectValue,
                     crossing: Crossings.CrossingValue, samples: seq<Sample>) {
    forall i :: 0 <= i < |samples| ==> RunSpec(evaluate, snapshot, crossing, samples[i].flow) == Ok(samples[i].row)
  }

  /** How a search may end with a result: a recorded sample within the tolerance, or the row HY-8
      gave for the interpolated guess. */
  predicate Found(evaluate: Projects.ProjectValue -> Result<seq<ResultRow>>, snapshot: Projects.ProjectValue,
                  crossing: Crossings.CrossingValue, samples: seq<Sample>, t: real, tol: real,
                  final: Sample, guess: Option<real>) {
    || Settled(samples, t, tol, final)
    || (&& guess.Some?
        && Interpolated(samples, t, tol, guess.value, final)
        && RunSpec(evaluate, snapshot, crossing, guess.value) == Ok(final.row))
  }

  /** Whichever way a search ends with a result, its row is the one a run gives at a known flow:
      the settled sample's own flow, or the interpolated guess. */
  lemma FoundIsRunRow(evaluate: Projects.ProjectValue -> Result<seq<ResultRow>>, snapshot: Projects.ProjectValue,
                      crossing: Crossings.CrossingValue, samples: seq<Sample>, t: real, tol: real,
                      final: Sample, guess: Option<real>)
    requires Recorded(evaluate, snapshot, crossing, samples)
    requires Found(evaluate, snapshot, crossing, samples, t, tol, final, guess)
    ensures || (Matches(final, t, tol) && RunSpec(evaluate, snapshot, crossing, final.flow) == Ok(final.row))
            || (guess.Some? && RunSpec(evaluate, snapshot, crossing, guess.value) == Ok(final.row)
                && final.row.flow == Val(final.flow))
  {
    if Settled(samples, t, tol, final) {
      var i :| 0 <= i < |samples| && samples[i] == final;
    }
  }

  /** How a search may fail after the target was accepted: a run failed at flow `failed`, or the
      budget was spent without a bracket. */
  predicate Failed(evaluate: Projects.ProjectValue -> Result<seq<ResultRow>>, snapshot: Projects.ProjectValue,
                   crossing: Crossings.CrossingValue, samples: seq<Sample>, t: real, tol: real, maxRuns: int,
                   msg: string, failed: Option<real>) {
    || (failed.Some? && RunSpec(evaluate, snapshot, crossing, failed.value) == Err(msg))
    || (msg == NoBracket && |samples| >= maxRuns && BracketOf(samples, t, tol).None?)
  }

  /** One run of either loop: HY-8 at `q`, the sample recorded unless the run fails, then
      `exact_match`. */
  method RunAndRecord(evaluate: Projects.ProjectValue -> Result<seq<ResultRow>>, snapshot: Projects.ProjectValue,
                      crossing: Crossings.CrossingValue, search: FlowSearch, q: real)
    returns (row: Result<ResultRow>, exact: Option<Sample>)
    requires q >= 0.0
    requires NonNegative(search.samples) && Recorded(evaluate, snapshot, crossing, search.samples)
    modifies search
    ensures NonNegative(search.samples) && Recorded(evaluate, snapshot, crossing, search.samples)
    ensures row == RunSpec(evaluate, snapshot, crossing, q)
    ensures row.Err? ==> search.samples == old(search.samples) && exact.None?
    ensures row.Ok? ==> search.samples == old(search.samples) + [Sample(q, row.value)]
    ensures exact.Some? ==> Settled(search.samples, search.target, search.tolerance, exact.value)
  {
    row := RunAt(evaluate, snapshot, crossing, q);
    if row.Err? {
      return row, None;
    }
    var _ := search.Record(q, row.value);
    exact := search.ExactMatch();
    if exact.Some? {
      ExactOfSpec(search.samples, search.target, search.tolerance);
    }
  }

  /** The seed loop: each seed is run and recorded, stopping at the first exact match. */
  method EvaluateSeeds(evaluate: Projects.ProjectValue -> Result<seq<ResultRow>>, snapshot: Projects.ProjectValue,
                       crossing: Crossings.CrossingValue, search: FlowSearch, seeds: seq<real>)
    returns (r: Result<Option<Sample>>, ghost failed: Option<real>)
    requires NonNegative(search.samples)
    requires Recorded(evaluate, snapshot, crossing, search.samples)
    requires forall i :: 0 <= i < |seeds| ==> seeds[i] >= 0.0
    modifies search
    ensures NonNegative(search.samples) && Recorded(evaluate, snapshot, crossing, search.samples)
    ensures old(|search.samples|) <= |search.samples| <= old(|search.samples|) + |seeds|
    ensures r.Ok? && r.value.Some? ==> Settled(search.samples, search.target, search.tolerance, r.value.value)
    ensures r.Err? ==> failed.Some? && RunSpec(evaluate, snapshot, crossing, failed.value) == Err(r.msg)
    ensures failed.Some? ==> failed.value >= 0.0
  {
    failed := None;
    for i := 0 to |seeds|
      invariant NonNegative(search.samples) && Recorded(evaluate, snapshot, crossing, search.samples)
      invariant old(|search.samples|) <= |search.samples| <= old(|search.samples|) + i
    {
      var row, exact := RunAndRecord(evaluate, snapshot, crossing, search, seeds[i]);
      if row.Err? {
        return Err(row.msg), Some(seeds[i]);
      }
      if exact.Some? {
        return Ok(exact), None;
      }
    }
    return Ok(None), None;
  }

  /** The bracket branch of the loop: an end within the tolerance, or else one run at the
      interpolated guess whose row is returned without a further check. */
  method FinishInBracket(evaluate: Projects.ProjectValue -> Result<seq<ResultRow>>, snapshot: Projects.ProjectValue,
                         crossing: Crossings.CrossingValue, samples: seq<Sample>, t: real, tol: real,
                         low: Sample, high: Sample)
    returns (r: Result<Sample>, ghost guess: Option<real>)
    requires BracketOf(samples, t, tol) == Some((low, high))
    requires NonNegative(samples)
    ensures r.Ok? ==> Found(evaluate, snapshot, crossing, samples, t, tol, r.value, guess)
    ensures guess.Some? ==> guess.value >= 0.0
    ensures r.Err? ==> guess.Some? && RunSpec(evaluate, snapshot, crossing, guess.value) == Err(r.msg)
  {
    BracketStraddles(samples, t, tol, low, high);
    if Dist(low.Headwater().v, t) <= tol {
      return Ok(low), None;
    }
    if Dist(high.Headwater().v, t) <= tol {
      return Ok(high), None;
    }
    var g := Interpolate(low.flow, low.Headwater().v, high.flow, high.Headwater().v, t);
    InterpolateBetween(low.flow, low.Headwater().v, high.flow, high.Headwater().v, t);
    var i :| 0 <= i < |samples| && samples[i] == low;
    var j :| 0 <= j < |samples| && samples[j] == high;
    var row := RunAt(evaluate, snapshot, crossing, g);
    if row.Err? {
      return Err(row.msg), Some(g);
    }
    r, guess := Ok(Sample(row.value.flow.v, row.value)), Some(g);
    assert Interpolated(samples, t, tol, g, r.value);
  }

  /** The `while` loop: interpolate once inside a bracket, otherwise run the next guess, until an
      exact match or until `next_guess` gives up. */
  method Refine(evaluate: Projects.ProjectValue -> Result<seq<ResultRow>>, snapshot: Projects.ProjectValue,
                crossing: Crossings.CrossingValue, search: FlowSearch)
    returns (r: Result<Sample>, ghost guess: Option<real>, ghost failed: Option<real>)
    requires search.simpleFlow > 0.0
    requires NonNegative(search.samples) && Recorded(evaluate, snapshot, crossing, search.samples)
    modifies search
    ensures NonNegative(search.samples) && Recorded(evaluate, snapshot, crossing, search.samples)
    ensures old(|search.samples|) <= |search.samples| <= MaxInt(old(|search.samples|), search.maxRuns)
    ensures r.Ok? ==> Found(evaluate, snapshot, crossing, search.samples, search.target, search.tolerance, r.value, guess)
    ensures r.Err? ==>
      Failed(evaluate, snapshot, crossing, search.samples, search.target, search.tolerance, search.maxRuns, r.msg, failed)
    ensures guess.Some? ==> guess.value >= 0.0
    ensures failed.Some? ==> failed.value >= 0.0
  {
    guess, failed := None, None;
    while true
      invariant NonNegative(search.samples) && Recorded(evaluate, snapshot, crossing, search.samples)
      invariant old(|search.samples|) <= |search.samples| <= MaxInt(old(|search.samples|), search.maxRuns)
      decreases if |search.samples| < search.maxRuns then search.maxRuns - |search.samples| else 0
    {
      var bracket := search.Bracket();
      if bracket.Some? {
        r, guess := FinishInBracket(evaluate, snapshot, crossing, search.samples, search.target, search.tolerance,
                                    bracket.value.0, bracket.value.1);
        failed := guess;
        return;
      }
      var next := search.NextGuess();
      if next.None? {
        return Err(NoBracket), None, None;
      }
      NextGuessSpec(search.samples, search.target, search.simpleFlow, search.qHint, search.maxRuns, next.value);
      var row, exact := RunAndRecord(evaluate, snapshot, crossing, search, next.value);
      if row.Err? {
        return Err(row.msg), None, next;
      }
      if exact.Some? {
        return Ok(exact.value), None, None;
      }
    }
  }

  /** `crossing_q_from_hw`: a NaN target is refused first and the estimate's errors come next.
      A result comes either from a recorded run within the tolerance, or from one interpolated
      run inside a bracket; HY-8 is never asked for a negative flow and at most `MaxRuns` runs
      are recorded. Apart from those first two errors, the search fails only when a run fails or
      when the whole budget is spent without a bracket. */
  method QFromHw(evaluate: Projects.ProjectValue -> Result<seq<ResultRow>>, pi: real, crossing: Crossings.CrossingValue,
                 hw: Num, qHint: Option<real>, project: Option<Projects.ProjectValue>, units: Option<UnitSystem>,
                 exitLoss: Option<int>)
    returns (r: Result<HydraulicsResult>, ghost samples: seq<Sample>, ghost guess: Option<real>, ghost failed: Option<real>)
    requires pi > 0.0
    ensures hw.NaN? ==> r == Err(NaNTarget)
    ensures hw.Val? && CharacteristicDiameter(crossing).Err? ==> r == Err(CharacteristicDiameter(crossing).msg)
    ensures |samples| <= MaxRuns && NonNegative(samples)
    ensures Recorded(evaluate, CloneProjectWithCrossing(crossing, project, units, exitLoss).0, crossing, samples)
    ensures hw.Val? && CharacteristicDiameter(crossing).Ok? && r.Err? ==>
      Failed(evaluate, CloneProjectWithCrossing(crossing, project, units, exitLoss).0, crossing, samples, hw.v, Tolerance,
             MaxRuns, r.msg, failed)
    ensures r.Ok? ==>
      && hw.Val?
      && r.value.crossingName == crossing.name
      && r.value.requestedFlow.None? && r.value.requestedHeadwater == Some(hw.v)
      && r.value.row.Some? && r.value.computedHeadwater == r.value.row.value.headwaterElevation
      && r.value.computedFlow.Val?
      && Found(evaluate, CloneProjectWithCrossing(crossing, project, units, exitLoss).0, crossing, samples, hw.v, Tolerance,
               Sample(r.value.computedFlow.v, r.value.row.value), guess)
    ensures guess.Some? ==> guess.value >= 0.0
    ensures failed.Some? ==> failed.value >= 0.0
  {
    samples, guess, failed := [], None, None;
    if hw.NaN? {
      return Err(NaNTarget), samples, guess, failed;
    }
    var clone := CloneProjectWithCrossing(crossing, project, units, exitLoss);
    var simple := SimpleFlowEstimate(pi, clone.1);
    if simple.Err? {
      return Err(simple.msg), samples, guess, failed;
    }
    var search := new FlowSearch(hw.v, simple.value, qHint, MaxRuns, Tolerance);
    var seeds := search.InitialCandidates();
    SeedsProperties(simple.value, qHint);
    var seeded;
    seeded, failed := EvaluateSeeds(evaluate, clone.0, clone.1, search, seeds);
    samples := search.samples;
    if seeded.Err? {
      return Err(seeded.msg), samples, guess, failed;
    }
    var final: Sample;
    if seeded.value.Some? {
      final := seeded.value.value;
    } else {
      var refined;
      refined, guess, failed := Refine(evaluate, clone.0, clone.1, search);
      samples := search.samples;
      if refined.Err? {
        return Err(refined.msg), samples, guess, failed;
      }
      final := refined.value;
    }
    r := Ok(HydraulicsResult(clone.1.name, None, Some(hw.v), Val(final.flow), final.row.headwaterElevation, Some(final.row)));
  }

  /** `crossing_q_for_hwd`: the ratio's and the diameter's errors first, then the search for the
      target headwater, which the result reports as the headwater requested. */
  method QForHwd(evaluate: Projects.ProjectValue -> Result<seq<ResultRow>>, pi: real, crossing: Crossings.CrossingValue,
                 ratio: Num, qHint: Option<real>, project: Option<Projects.ProjectValue>, units: Option<UnitSystem>,
                 exitLoss: Option<int>)
    returns (r: Result<HydraulicsResult>)
    requires pi > 0.0
    ensures HwdTarget(crossing, ratio).Err? ==> r == Err(HwdTarget(crossing, ratio).msg)
    ensures HwdTarget(crossing, ratio) == Ok(NaN) ==> r == Err(NaNTarget)
    ensures r.Ok? ==>
      && ratio.Val?
      && HwdTarget(crossing, ratio).Ok? && HwdTarget(crossing, ratio).value.Val?
      && r.value.requestedHeadwater == Some(HwdTarget(crossing, ratio).value.v)
      && r.value.crossingName == crossing.name
  {
    var target := HwdTarget(crossing, ratio);
    if target.Err? {
      return Err(target.msg);
    }
    var result, _, _, _ := QFromHw(evaluate, pi, crossing, target.value, qHint, project, units, exitLoss);
    if result.Err? {
      return result;
    }
    r := Ok(result.value.(requestedHeadwater := Some(target.value.v)));
  }

  // ---------------------------------------------------------------------------------------
  // Keys of the project-level results
  // ---------------------------------------------------------------------------------------

  /** The key of the `k`-th use of a name: the name itself, then "name (duplicate #k)". */
  function DuplicateKey(name: string, k: int): string {
    if k <= 1 then name else name + " (duplicate #" + IntToString(k) + ")"
  }

  /** The key the `j`-th crossing gets: by how many times its name has been used up to it. */
  function KeyAt(names: seq<string>, j: nat): string
    requires j < |names|
  {
    DuplicateKey(names[j], multiset(names[..j + 1])[names[j]])
  }

  /** The `counts` dictionary shared by the calls of `_unique_crossing_key`. */
  class NameCounts {
    var counts: map<string, int>

    constructor ()
      ensures counts == map[]
    {
      counts := map[];
    }

    /** `_unique_crossing_key(name, counts)` */
    method UniqueKey(name: string) returns (key: string)
      modifies this
      ensures name !in old(counts) ==> counts == old(counts)[name := 1] && key == name
      ensures name in old(counts) ==>
        counts == old(counts)[name := old(counts)[name] + 1] &&
        key == name + " (duplicate #" + IntToString(old(counts)[name] + 1) + ")"
    {
      if name !in counts {
        counts := counts[name := 1];
        return name;
      }
      counts := counts[name := counts[name] + 1];
      key := name + " (duplicate #" + IntToString(counts[name]) + ")";
    }
  }

  lemma CountStep(names: seq<string>, i: nat)
    requires i < |names|
    ensures multiset(names[..i + 1]) == multiset(names[..i]) + multiset{names[i]}
  {
    assert names[..i + 1] == names[..i] + [names[i]];
  }

  /** The `counts` dictionary after the given names were keyed, one after the other. */
  function CountsOf(used: seq<string>): map<string, int>
    decreases |used|
  {
    if used == [] then map[]
    else
      var counts := CountsOf(used[..|used| - 1]);
      var name := used[|used| - 1];
      counts[name := if name in counts then counts[name] + 1 else 1]
  }

  /** The dictionary holds exactly the names used, each with the number of its uses. */
  lemma {:induction false} CountsOfSpec(used: seq<string>)
    ensures forall n :: n in CountsOf(used) <==> multiset(used)[n] > 0
    ensures forall n :: n in CountsOf(used) ==> CountsOf(used)[n] == multiset(used)[n]
    decreases |used|
  {
    if used != [] {
      var k := |used| - 1;
      CountsOfSpec(used[..k]);
      assert used == used[..k] + [used[k]];
    }
  }

  /** The key `_unique_crossing_key` returns for a name, given the dictionary before the call. */
  function CountedKey(name: string, counts: map<string, int>): string
  {
    if name in counts then name + " (duplicate #" + IntToString(counts[name] + 1) + ")" else name
  }

  /** The key of the `i`-th name, read off the dictionary so far. */
  lemma KeyFromCounts(names: seq<string>, i: nat)
    requires i < |names|
    ensures KeyAt(names, i) == CountedKey(names[i], CountsOf(names[..i]))
  {
    CountsOfSpec(names[..i]);
    CountStep(names, i);
  }

  /** Keying one more name adds it to the dictionary. */
  lemma CountsOfNext(names: seq<string>, i: nat)
    requires i < |names|
    ensures var counts := CountsOf(names[..i]);
      CountsOf(names[..i + 1]) ==
        counts[names[i] := if names[i] in counts then counts[names[i]] + 1 else 1]
  {
    assert names[..i + 1][..i] == names[..i];
  }

  /** One call of `_unique_crossing_key` inside the loop: the `i`-th name's key, and the dictionary
      now counting it too. */
  method NextKey(counter: NameCounts, names: seq<string>, i: nat) returns (key: string)
    requires i < |names| && counter.counts == CountsOf(names[..i])
    modifies counter
    ensures key == KeyAt(names, i) && counter.counts == CountsOf(names[..i + 1])
  {
    KeyFromCounts(names, i);
    CountsOfNext(names, i);
    key := counter.UniqueKey(names[i]);
  }

  /** The keys of the project-level loops: one `counts` dictionary for all crossings, the `j`-th
      crossing keyed by how many times its name has occurred so far. */
  method CrossingKeys(names: seq<string>) returns (keys: seq<string>)
    ensures |keys| == |names|
    ensures forall j :: 0 <= j < |names| ==> keys[j] == KeyAt(names, j)
  {
    var counter := new NameCounts();
    keys := [];
    for i := 0 to |names|
      invariant |keys| == i
      invariant forall j :: 0 <= j < i ==> keys[j] == KeyAt(names, j)
      invariant counter.counts == CountsOf(names[..i])
    {
      var key := NextKey(counter, names, i);
      keys := keys + [key];
    }
  }

  /** The first use of a name keys it by the name itself, a later use by its count. */
  lemma KeyAtUses(names: seq<string>, j: nat)
    requires j < |names|
    ensures (forall k :: 0 <= k < j ==> names[k] != names[j]) ==> KeyAt(names, j) == names[j]
    ensures (exists k :: 0 <= k < j && names[k] == names[j]) ==>
      KeyAt(names, j) == names[j] + " (duplicate #" + IntToString(multiset(names[..j + 1])[names[j]]) + ")"
  {
    CountStep(names, j);
    if exists k :: 0 <= k < j && names[k] == names[j] {
      var k :| 0 <= k < j && names[k] == names[j];
      assert names[..j][k] == names[j];
    } else {
      assert names[j] !in names[..j];
    }
  }

  /** The keys are not always distinct: a crossing already named like a later duplicate's key
      collides with it, and the later result replaces the earlier one in the dictionary. */
  lemma DuplicateKeysCollide()
    ensures var names := ["A (duplicate #2)", "A", "A"];
      KeyAt(names, 0) == KeyAt(names, 2)
  {
    var names := ["A (duplicate #2)", "A", "A"];
    assert names[..1] == ["A (duplicate #2)"];
    assert names[..3] == names;
    assert multiset(names)["A"] == 2;
    assert IntToString(2) == "2";
  }
}
