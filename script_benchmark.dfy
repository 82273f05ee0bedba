/** The benchmark driver (`scripts/hy8_benchmark.py`): synthesising uniform crossings, cutting
    them into batches, and summarising the timings of one batching configuration. Running HY-8,
    the thread pool and the clock are outside the model; the batch records are inputs. */
module Benchmark {
  import opened Wrappers
  import opened Text
  import opened Numbers
  import opened Enums
  import opened ScriptShared
  import Flows
  import Tailwaters
  import Roadways
  import Barrels
  import Crossings

  /** The parameters of one synthetic crossing (`CrossingSpec`). */
  datatype CrossingSpec = CrossingSpec(
    index: int,
    designFlow: real,
    diameter: real,
    length: real,
    slope: real,
    barrels: int,
    dsInvert: real)

  // ---------------------------------------------------------------------------------------
  // CrossingSpec.build
  // ---------------------------------------------------------------------------------------

  function SpecName(spec: CrossingSpec): string {
    "Benchmark_" + Padded(spec.index, 4)
  }

  /** Crossings with different (non-negative) indices get different names. */
  lemma SpecNamesDistinct(a: CrossingSpec, b: CrossingSpec)
    requires a.index >= 0 && b.index >= 0 && a.index != b.index
    ensures SpecName(a) != SpecName(b)
  {
    PaddedValue(a.index, 4);
    PaddedValue(b.index, 4);
    var k := |"Benchmark_"|;
    assert SpecName(a)[k..] == Padded(a.index, 4);
    assert SpecName(b)[k..] == Padded(b.index, 4);
  }

  /** The flow range of a spec: the design flow raised to at least 0.01, the minimum nine
      tenths of it (but at least 0.005) and the maximum eleven tenths. */
  function SpecFlow(spec: CrossingSpec): (f: Flows.FlowValue)
    ensures f.flowMethod == MinDesignMax && f.design >= 0.01
    ensures 0.0 < f.minimum < f.design < f.maximum
    ensures f.userValues == [f.minimum, f.design, f.maximum]
    ensures Flows.FlowValid(f)
  {
    var design := Max(0.01, spec.designFlow);
    var minimum := Max(0.005, design * 0.9);
    var maximum := design * 1.1;
    Flows.DefaultFlow.(flowMethod := MinDesignMax, minimum := minimum, design := design, maximum := maximum,
                       userValues := [minimum, design, maximum])
  }

  function UsInvert(spec: CrossingSpec): real {
    spec.dsInvert + spec.slope * spec.length
  }

  function Crest(spec: CrossingSpec): real {
    UsInvert(spec) + spec.diameter + 1.0
  }

  function RoadwayWidth(spec: CrossingSpec): (w: real)
    ensures w >= 6.0
  {
    Max(6.0, spec.diameter * 6.0)
  }

  /** The crossing `CrossingSpec.build()` returns. */
  function SpecCrossing(spec: CrossingSpec): Crossings.CrossingValue {
    var w, crest := RoadwayWidth(spec), Crest(spec);
    Crossings.DefaultCrossing(SpecName(spec)).(
      flow := SpecFlow(spec),
      tailwater := Tailwaters.DefaultTailwater.(constantElevation := spec.dsInvert + 0.3 * spec.diameter,
                                                invertElevation := spec.dsInvert),
      roadway := Roadways.DefaultRoadway.(width := w, surface := Paved,
                                          stations := [-w / 2.0, 0.0, w / 2.0], elevations := [crest, crest, crest]),
      culverts := [Barrels.DefaultBarrel("Barrel_" + Padded(spec.index, 4)).(
        shape := Circle, material := Concrete, span := spec.diameter, rise := spec.diameter,
        numberOfBarrels := spec.barrels, inletInvertStation := 0.0, outletInvertStation := spec.length,
        inletInvertElevation := UsInvert(spec), outletInvertElevation := spec.dsInvert)])
  }

  /** The built crossing has one concrete circular barrel whose span and rise are the diameter,
      falling from the upstream invert to the downstream one, and a level three-point roadway
      at the crest, symmetric about station zero; its constant tailwater sits three tenths of a
      diameter above the downstream invert. */
  lemma SpecCrossingShape(spec: CrossingSpec)
    ensures var c := SpecCrossing(spec);
      && |c.culverts| == 1
      && c.culverts[0].shape == Circle && c.culverts[0].material == Concrete
      && c.culverts[0].span == c.culverts[0].rise == spec.diameter
      && c.culverts[0].inletInvertElevation - c.culverts[0].outletInvertElevation == spec.slope * spec.length
      && |c.roadway.stations| == 3 && c.roadway.stations[0] == -c.roadway.stations[2] && c.roadway.stations[1] == 0.0
      && c.roadway.elevations == [Crest(spec), Crest(spec), Crest(spec)]
      && c.tailwater.constantElevation - c.tailwater.invertElevation == 0.3 * spec.diameter
  {
  }

  /** The built crossing validates exactly when the diameter is positive, there is a barrel,
      and the tailwater stays below the crest. */
  lemma SpecCrossingValid(spec: CrossingSpec)
    ensures Crossings.CrossingValid(SpecCrossing(spec)) <==>
      spec.diameter > 0.0 && spec.barrels >= 1 && 0.3 * spec.diameter < spec.slope * spec.length + spec.diameter + 1.0
  {
    var c := SpecCrossing(spec);
    var crest := Crest(spec);
    assert Roadways.MinOf([crest, crest, crest]) == crest by {
      assert Roadways.MinOf([crest, crest, crest]) in [crest, crest, crest];
    }
    var b := c.culverts[0];
    assert Crossings.AllBarrelsValid([b]) <==> Barrels.BarrelValid(b) by {
      assert [b][0] == b;
    }
  }

  /** `CrossingSpec.build()`: a fresh crossing whose fields are assigned one by one. */
  method Build(spec: CrossingSpec) returns (crossing: Crossings.CulvertCrossing)
    ensures fresh(crossing)
    ensures crossing.Value() == SpecCrossing(spec)
  {
    var name := "Benchmark_" + Padded(spec.index, 4);
    crossing := new Crossings.CulvertCrossing(name);

    var design := Max(0.01, spec.designFlow);
    var minimum := Max(0.005, design * 0.9);
    var maximum := design * 1.1;
    crossing.flow := crossing.flow.(flowMethod := MinDesignMax);
    crossing.flow := crossing.flow.(minimum := minimum, design := design, maximum := maximum);
    crossing.flow := crossing.flow.(userValues := [minimum, design, maximum]);

    var dsInvert := spec.dsInvert;
    var usInvert := dsInvert + spec.slope * spec.length;
    var tailwater := dsInvert + 0.3 * spec.diameter;
    var crest := usInvert + spec.diameter + 1.0;
    assert crest == Crest(spec);
    crossing.tailwater := crossing.tailwater.(constantElevation := tailwater);
    crossing.tailwater := crossing.tailwater.(invertElevation := dsInvert);

    var width := Max(6.0, spec.diameter * 6.0);
    crossing.roadway := crossing.roadway.(width := width);
    crossing.roadway := crossing.roadway.(surface := Paved);
    crossing.roadway := crossing.roadway.(stations := [-width / 2.0, 0.0, width / 2.0]);
    crossing.roadway := crossing.roadway.(elevations := [crest, crest, crest]);

    var barrel := Barrels.DefaultBarrel("Barrel_" + Padded(spec.index, 4));
    barrel := barrel.(shape := Circle, material := Concrete);
    barrel := barrel.(span := spec.diameter, rise := spec.diameter);
    barrel := barrel.(numberOfBarrels := spec.barrels);
    barrel := barrel.(inletInvertStation := 0.0, outletInvertStation := spec.length);
    barrel := barrel.(inletInvertElevation := usInvert, outletInvertElevation := dsInvert);
    crossing.culverts := crossing.culverts + [barrel];
  }

  // ---------------------------------------------------------------------------------------
  // build_crossing_specs
  // ---------------------------------------------------------------------------------------

  /** The spec of the `idx`-th crossing (counting from zero): numbered from one, with the
      downstream invert stepping by five centimetres from 100 and wrapping every ten. */
  function SpecAt(idx: nat, flow: real, diameter: real, length: real, slope: real, barrels: int): (s: CrossingSpec)
    ensures s.index == idx + 1
    ensures 100.0 <= s.dsInvert <= 100.45
  {
    CrossingSpec(idx + 1, flow, diameter, length, slope, barrels, 100.0 + (idx % 10) as real * 0.05)
  }

  /** `build_crossing_specs(args)`: one spec per crossing asked for (none for a negative count),
      numbered 1 to n; every tenth one starts the invert pattern again. */
  method BuildCrossingSpecs(total: int, flow: real, diameter: real, length: real, slope: real, barrels: int)
    returns (specs: seq<CrossingSpec>)
    ensures |specs| == MaxInt(0, total)
    ensures forall i :: 0 <= i < |specs| ==> specs[i] == SpecAt(i, flow, diameter, length, slope, barrels)
    ensures forall i :: 0 <= i < |specs| ==> specs[i].index == i + 1
    ensures forall i :: 0 <= i < |specs| - 10 ==> specs[i + 10].dsInvert == specs[i].dsInvert
  {
    specs := [];
    var baseInvert := 100.0;
    var idx := 0;
    while idx < total
      invariant 0 <= idx == |specs| <= MaxInt(0, total)
      invariant forall i :: 0 <= i < idx ==> specs[i] == SpecAt(i, flow, diameter, length, slope, barrels)
      decreases total - idx
    {
      var dsInvert := baseInvert + (idx % 10) as real * 0.05;
      specs := specs + [CrossingSpec(idx + 1, flow, diameter, length, slope, barrels, dsInvert)];
      idx := idx + 1;
    }
    forall i | 0 <= i < |specs| - 10
      ensures specs[i + 10].dsInvert == specs[i].dsInvert
    {
      assert (i + 10) % 10 == i % 10;
    }
  }

  // ---------------------------------------------------------------------------------------
  // chunk_specs
  // ---------------------------------------------------------------------------------------

  /** `chunk_specs(specs, batch_size)`: refused for a zero size, no batch for a negative one;
      for a positive size the batches put back together are the specs, and every batch holds
      one to `batch_size` specs. */
  function ChunkSpecs(specs: seq<CrossingSpec>, batchSize: int): (r: Option<seq<seq<CrossingSpec>>>)
    ensures r.None? <==> batchSize == 0
    ensures batchSize < 0 ==> r == Some([])
    ensures batchSize > 0 ==>
      Flatten(r.value) == specs
      && forall i :: 0 <= i < |r.value| ==> 0 < |r.value[i]| <= batchSize
  {
    var r := Chunks(specs, batchSize);
    if batchSize > 0 then
      ChunksJoin(specs, batchSize);
      ChunksSizes(specs, batchSize);
      assert forall i :: 0 <= i < |r.value| ==> r.value[i] != [] by {
        ChunksNonEmpty(specs, batchSize);
      }
      r
    else r
  }

  lemma {:induction false} ChunksNonEmpty<T>(items: seq<T>, size: nat)
    requires size > 0
    ensures forall i :: 0 <= i < |ChunksOf(items, size)| ==> ChunksOf(items, size)[i] != []
    decreases |items|
  {
    if |items| > size {
      ChunksNonEmpty(items[size..], size);
      var rest := ChunksOf(items[size..], size);
      assert ChunksOf(items, size) == [items[..size]] + rest;
    }
  }

  // ---------------------------------------------------------------------------------------
  // summarize_configuration
  // ---------------------------------------------------------------------------------------

  /** Timing and result metadata of one batch (`BatchResult`). */
  datatype BatchResult = BatchResult(
    repeat: int,
    batchSize: int,
    workers: int,
    batchIndex: int,
    crossings: int,
    hy8File: string,
    writeTime: real,
    hy8Time: real,
    parseTime: real,
    totalTime: real,
    returncode: int,
    parsedOk: bool,
    rowsParsed: int,
    message: string)

  /** The row `summarize_configuration` returns for a non-empty list of batches. */
  datatype Summary = Summary(
    repeat: int,
    batchSize: int,
    workers: int,
    batches: int,
    crossings: int,
    wallTime: real,
    timePerCrossing: Num,
    timePerBatch: Num,
    sumBatchTime: real,
    hy8Time: real,
    writeTime: real,
    parseTime: real,
    hy8Failures: int,
    parseFailures: int,
    maxBatchTime: real,
    minBatchTime: real)

  /** `sum(f(r) for r in records)` */
  function SumOf(records: seq<BatchResult>, f: BatchResult -> real): real
    decreases |records|
  {
    if records == [] then 0.0 else SumOf(records[..|records| - 1], f) + f(records[|records| - 1])
  }

  /** `sum(r.crossings for r in records)` */
  function CrossingsOf(records: seq<BatchResult>): int
    decreases |records|
  {
    if records == [] then 0 else CrossingsOf(records[..|records| - 1]) + records[|records| - 1].crossings
  }

  /** `sum(1 for r in records if p(r))` */
  function CountOf(records: seq<BatchResult>, p: BatchResult -> bool): (n: nat)
    ensures n <= |records|
    ensures n == 0 <==> forall i :: 0 <= i < |records| ==> !p(records[i])
    decreases |records|
  {
    if records == [] then 0
    else
      var m := |records| - 1;
      var n := CountOf(records[..m], p) + (if p(records[m]) then 1 else 0);
      assert forall i :: 0 <= i < m ==> records[..m][i] == records[i];
      n
  }

  /** `max(r.total_time for r in records)`: the largest batch time, attained by some batch. */
  function MaxTime(records: seq<BatchResult>): (t: real)
    requires records != []
    ensures forall i :: 0 <= i < |records| ==> records[i].totalTime <= t
    ensures exists i :: 0 <= i < |records| && records[i].totalTime == t
    decreases |records|
  {
    var m := |records| - 1;
    if m == 0 then records[0].totalTime
    else
      var t := Max(MaxTime(records[..m]), records[m].totalTime);
      assert forall i :: 0 <= i < m ==> records[..m][i] == records[i];
      t
  }

  /** `min(r.total_time for r in records)`: the smallest batch time, attained by some batch. */
  function MinTime(records: seq<BatchResult>): (t: real)
    requires records != []
    ensures forall i :: 0 <= i < |records| ==> t <= records[i].totalTime
    ensures exists i :: 0 <= i < |records| && records[i].totalTime == t
    decreases |records|
  {
    var m := |records| - 1;
    if m == 0 then records[0].totalTime
    else
      var t := Min(MinTime(records[..m]), records[m].totalTime);
      assert forall i :: 0 <= i < m ==> records[..m][i] == records[i];
      t
  }

  /** `total / count if count else nan`: the share of a total per unit, undefined for none. */
  function PerUnit(total: real, count: int): (r: Num)
    ensures r.NaN? <==> count == 0
    ensures r.Val? ==> r.v * count as real == total
  {
    if count != 0 then Val(total / count as real) else NaN
  }

  function TotalTime(r: BatchResult): real { r.totalTime }
  function Hy8Time(r: BatchResult): real { r.hy8Time }
  function WriteTime(r: BatchResult): real { r.writeTime }
  function ParseTime(r: BatchResult): real { r.parseTime }
  predicate Hy8Failed(r: BatchResult) { r.returncode != 0 }
  predicate ParseFailed(r: BatchResult) { !r.parsedOk }

  /** `summarize_configuration(records, wall_time)`: nothing (`{}`) for no batches; otherwise the
      first batch's settings, the batch and crossing counts, the times summed over the batches,
      the failure counts, and the extreme batch times. The time per crossing is NaN when the
      batches hold no crossing. */
  function SummarizeConfiguration(records: seq<BatchResult>, wallTime: real): (r: Option<Summary>)
    ensures r.None? <==> records == []
    ensures r.Some? ==>
      && r.value.batches == |records|
      && r.value.repeat == records[0].repeat && r.value.batchSize == records[0].batchSize
      && r.value.workers == records[0].workers
      && r.value.crossings == CrossingsOf(records)
      && r.value.timePerCrossing == PerUnit(wallTime, r.value.crossings)
      && r.value.timePerBatch == PerUnit(wallTime, |records|) && r.value.timePerBatch.Val?
      && 0 <= r.value.hy8Failures <= |records| && 0 <= r.value.parseFailures <= |records|
      && (r.value.hy8Failures == 0 <==> forall i :: 0 <= i < |records| ==> records[i].returncode == 0)
      && (r.value.parseFailures == 0 <==> forall i :: 0 <= i < |records| ==> records[i].parsedOk)
      && r.value.minBatchTime <= r.value.maxBatchTime
  {
    if records == [] then None
    else
      var crossings := CrossingsOf(records);
      var batches := |records|;
      var failures := CountOf(records, Hy8Failed);
      var parseFailures := CountOf(records, ParseFailed);
      assert MinTime(records) <= records[0].totalTime <= MaxTime(records);
      Some(Summary(
        records[0].repeat, records[0].batchSize, records[0].workers, batches, crossings, wallTime,
        PerUnit(wallTime, crossings), PerUnit(wallTime, batches),
        SumOf(records, TotalTime), SumOf(records, Hy8Time), SumOf(records, WriteTime), SumOf(records, ParseTime),
        failures, parseFailures, MaxTime(records), MinTime(records)))
  }

  /** When each batch's total time is its write, HY-8 and parse times added up, as the batch
      runner records it, the summed batch time is the sum of the three summed phases. */
  lemma {:induction false} SumBatchTimeSplits(records: seq<BatchResult>)
    requires forall i :: 0 <= i < |records| ==> records[i].totalTime == records[i].writeTime + records[i].hy8Time + records[i].parseTime
    ensures SumOf(records, TotalTime) == SumOf(records, WriteTime) + SumOf(records, Hy8Time) + SumOf(records, ParseTime)
    decreases |records|
  {
    if records != [] {
      var m := |records| - 1;
      assert forall i :: 0 <= i < m ==> records[..m][i] == records[i];
      SumBatchTimeSplits(records[..m]);
    }
  }

  /** With no negative batch time, the longest batch takes no longer than all batches together. */
  lemma {:induction false} MaxWithinSum(records: seq<BatchResult>, k: nat)
    requires k < |records|
    requires forall i :: 0 <= i < |records| ==> records[i].totalTime >= 0.0
    ensures records[k].totalTime <= SumOf(records, TotalTime)
    decreases |records|
  {
    var m := |records| - 1;
    SumNonNegative(records[..m]);
    if k < m {
      assert forall i :: 0 <= i < m ==> records[..m][i] == records[i];
      MaxWithinSum(records[..m], k);
    }
  }

  lemma {:induction false} SumNonNegative(records: seq<BatchResult>)
    requires forall i :: 0 <= i < |records| ==> records[i].totalTime >= 0.0
    ensures SumOf(records, TotalTime) >= 0.0
    decreases |records|
  {
    if records != [] {
      var m := |records| - 1;
      assert forall i :: 0 <= i < m ==> records[..m][i] == records[i];
      SumNonNegative(records[..m]);
    }
  }

  /** For batches timed as the batch runner times them (phases that add up, none negative), the
      summary's batch time is its write, HY-8 and parse times together, every batch lies between
      the shortest and the longest, and the longest takes no longer than all of them. */
  lemma SummaryTimesConsistent(records: seq<BatchResult>, wallTime: real)
    requires records != []
    requires forall i :: 0 <= i < |records| ==> records[i].totalTime == records[i].writeTime + records[i].hy8Time + records[i].parseTime
    requires forall i :: 0 <= i < |records| ==> records[i].totalTime >= 0.0
    ensures var s := SummarizeConfiguration(records, wallTime).value;
      && s.sumBatchTime == s.writeTime + s.hy8Time + s.parseTime
      && (forall i :: 0 <= i < |records| ==> s.minBatchTime <= records[i].totalTime <= s.maxBatchTime)
      && 0.0 <= s.minBatchTime <= s.maxBatchTime <= s.sumBatchTime
  {
    SumBatchTimeSplits(records);
    var k :| 0 <= k < |records| && records[k].totalTime == MaxTime(records);
    MaxWithinSum(records, k);
  }
}
