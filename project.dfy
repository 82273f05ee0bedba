/** An HY-8 project: its titles, unit system, exit-loss option and crossings. */
module Projects {
  import opened Wrappers
  import opened Text
  import opened PyValues
  import opened Base
  import opened Enums
  import opened References
  import Flows
  import Crossings

  datatype ProjectValue = ProjectValue(
    title: string,
    designer: string,
    notes: string,
    units: UnitSystem,
    exitLossOption: int,
    crossings: seq<Crossings.CrossingValue>)

  const DefaultProject: ProjectValue := ProjectValue("", "", "", SI, 0, [])

  // ---------------------------------------------------------------------------------------
  // Validation
  // ---------------------------------------------------------------------------------------

  const NoCrossings: string := "At least one crossing is required."

  /** The prefix of the `index`-th crossing's messages (numbered from 1). */
  function CrossingPrefix(prefix: string, index: nat, name: string): string {
    prefix + ("Crossing #" + NatToString(index) + " (" + name + "): ")
  }

  /** One crossing's report, behind its numbered prefix. */
  function CrossingReport(prefix: string, repr: real -> string): (Crossings.CrossingValue, nat) -> seq<string> {
    (c: Crossings.CrossingValue, index: nat) => Crossings.Validate(c, CrossingPrefix(prefix, index, c.name), repr)
  }

  /** The crossings' errors, each crossing behind its own numbered prefix starting at 1. */
  function CrossingErrors(crossings: seq<Crossings.CrossingValue>, prefix: string, repr: real -> string): seq<string> {
    NumberedReports(crossings, 1, CrossingReport(prefix, repr))
  }

  predicate AllCrossingsValid(crossings: seq<Crossings.CrossingValue>) {
    forall i :: 0 <= i < |crossings| ==> Crossings.CrossingValid(crossings[i])
  }

  /** The crossings report nothing exactly when each is valid. */
  lemma CrossingErrorsEmpty(crossings: seq<Crossings.CrossingValue>, prefix: string, repr: real -> string)
    ensures CrossingErrors(crossings, prefix, repr) == [] <==> AllCrossingsValid(crossings)
  {
    NumberedReportsEmpty(crossings, 1, CrossingReport(prefix, repr));
  }

  /** Each crossing's report carries the project's prefix. */
  lemma CrossingReportPrefixed(c: Crossings.CrossingValue, index: nat, prefix: string, repr: real -> string)
    ensures forall e :: e in CrossingReport(prefix, repr)(c, index) ==> StartsWith(e, prefix)
  {
    Crossings.ValidatePrefixed(c, CrossingPrefix(prefix, index, c.name), repr);
    forall e | e in CrossingReport(prefix, repr)(c, index)
      ensures StartsWith(e, prefix)
    {
      StartsWithLonger(e, prefix, "Crossing #" + NatToString(index) + " (" + c.name + "): ");
    }
  }

  /** Every message of the crossings carries the prefix. */
  lemma CrossingErrorsPrefixed(crossings: seq<Crossings.CrossingValue>, prefix: string, repr: real -> string)
    ensures forall e :: e in CrossingErrors(crossings, prefix, repr) ==> StartsWith(e, prefix)
  {
    forall i | 0 <= i < |crossings|
      ensures forall e :: e in CrossingReport(prefix, repr)(crossings[i], 1 + i) ==> StartsWith(e, prefix)
    {
      CrossingReportPrefixed(crossings[i], 1 + i, prefix, repr);
    }
    NumberedReportsPrefixed(crossings, 1, CrossingReport(prefix, repr), prefix);
  }

  /** The project the validator accepts. */
  predicate ProjectValid(p: ProjectValue) {
    p.crossings != [] && AllCrossingsValid(p.crossings)
  }

  /** `validate(prefix)`: an empty project is told so, and each crossing reports behind
      "Crossing #i (name): ". `repr` renders a float as Python's `str` does. */
  function Validate(p: ProjectValue, prefix: string, repr: real -> string): (errors: seq<string>)
    ensures errors == [] <==> ProjectValid(p)
    ensures forall e :: e in errors ==> StartsWith(e, prefix)
    ensures p.crossings == [] ==> errors == [prefix + NoCrossings]
  {
    CrossingErrorsEmpty(p.crossings, prefix, repr);
    CrossingErrorsPrefixed(p.crossings, prefix, repr);
    (if p.crossings == [] then [prefix + NoCrossings] else []) + CrossingErrors(p.crossings, prefix, repr)
  }

  /** A freshly constructed crossing never validates: its flow is user-defined with no values. */
  lemma DefaultCrossingInvalid(name: string, repr: real -> string)
    ensures Crossings.Validate(Crossings.DefaultCrossing(name), "", repr) != []
  {
  }

  // ---------------------------------------------------------------------------------------
  // Adding crossings
  // ---------------------------------------------------------------------------------------

  /** The name `add_crossing` gives a crossing when none is passed: "Crossing {count + 1}". */
  function DefaultCrossingName(count: nat): string {
    "Crossing " + NatToString(count + 1)
  }

  /** The crossing `add_crossing(crossing)` appends to a project holding `count` crossings. */
  function CrossingToAdd(count: nat, crossing: Option<Crossings.CrossingValue>): (c: Crossings.CrossingValue)
    ensures crossing.Some? ==> c == crossing.value
    ensures crossing.None? ==> c == Crossings.DefaultCrossing(DefaultCrossingName(count))
  {
    if crossing.Some? then crossing.value else Crossings.DefaultCrossing(DefaultCrossingName(count))
  }

  /** Adding a valid crossing to a valid project, or to an empty one, gives a valid project. */
  lemma AddValidCrossing(p: ProjectValue, c: Crossings.CrossingValue)
    requires AllCrossingsValid(p.crossings) && Crossings.CrossingValid(c)
    ensures ProjectValid(p.(crossings := p.crossings + [c]))
  {
    var cs := p.crossings + [c];
    forall i | 0 <= i < |cs|
      ensures Crossings.CrossingValid(cs[i])
    {
      if i < |p.crossings| {
        assert cs[i] == p.crossings[i];
      }
    }
  }

  /** Appending a crossing appends its report, numbered after the existing crossings. */
  lemma CrossingErrorsAppend(crossings: seq<Crossings.CrossingValue>, c: Crossings.CrossingValue, prefix: string,
                             repr: real -> string)
    ensures CrossingErrors(crossings + [c], prefix, repr)
         == CrossingErrors(crossings, prefix, repr)
            + Crossings.Validate(c, CrossingPrefix(prefix, |crossings| + 1, c.name), repr)
  {
    NumberedReportsAppend(crossings, c, 1, CrossingReport(prefix, repr));
  }

  class Hy8Project {
    var title: string
    var designer: string
    var notes: string
    var units: UnitSystem
    var exitLossOption: int
    var crossings: seq<Crossings.CrossingValue>

    function Value(): ProjectValue
      reads this
    {
      ProjectValue(title, designer, notes, units, exitLossOption, crossings)
    }

    constructor ()
      ensures Value() == DefaultProject
    {
      title, designer, notes := "", "", "";
      units, exitLossOption := SI, 0;
      crossings := [];
    }

    /** `add_crossing(crossing)`: exactly one crossing is appended and returned. */
    method AddCrossing(crossing: Option<Crossings.CrossingValue>) returns (c: Crossings.CrossingValue)
      modifies this
      ensures c == CrossingToAdd(|old(crossings)|, crossing)
      ensures Value() == old(Value()).(crossings := old(crossings) + [c])
    {
      c := CrossingToAdd(|crossings|, crossing);
      crossings := crossings + [c];
    }
  }

  // ---------------------------------------------------------------------------------------
  // Flow values
  // ---------------------------------------------------------------------------------------

  /** `[crossing.flow.sequence() for crossing in crossings]`: the first crossing whose flow method
      has no sequence raises. */
  function FlowValuesOf(crossings: seq<Crossings.CrossingValue>): (r: Result<seq<seq<real>>>)
    ensures r.Ok? ==> |r.value| == |crossings|
    ensures r.Ok? ==> forall i :: 0 <= i < |crossings| ==> Flows.Sequence(crossings[i].flow) == Ok(r.value[i])
    ensures (forall i :: 0 <= i < |crossings| ==> Flows.Sequence(crossings[i].flow).Ok?) ==> r.Ok?
  {
    if crossings == [] then Ok([])
    else
      var head := Flows.Sequence(crossings[0].flow);
      if head.Err? then Err(head.msg)
      else
        var rest := FlowValuesOf(crossings[1..]);
        if rest.Err? then
          assert !(forall i :: 0 <= i < |crossings| ==> Flows.Sequence(crossings[i].flow).Ok?) by {
            var k :| 0 <= k < |crossings[1..]| && !Flows.Sequence(crossings[1..][k].flow).Ok?;
            assert crossings[k + 1] == crossings[1..][k];
          }
          Err(rest.msg)
        else Ok([head.value] + rest.value)
  }

  /** `flow_values()` */
  function FlowValues(p: ProjectValue): Result<seq<seq<real>>> {
    FlowValuesOf(p.crossings)
  }

  /** Every crossing of a valid project has a flow sequence, so `flow_values` succeeds, and each
      sequence is strictly increasing. */
  lemma ValidProjectFlowValues(p: ProjectValue, repr: real -> string)
    requires Validate(p, "", repr) == []
    ensures FlowValues(p).Ok?
    ensures forall i :: 0 <= i < |p.crossings| ==> Flows.StrictlyIncreasing(FlowValues(p).value[i])
  {
    forall i | 0 <= i < |p.crossings|
      ensures Flows.Sequence(p.crossings[i].flow).Ok?
      ensures Flows.StrictlyIncreasing(Flows.Sequence(p.crossings[i].flow).value)
    {
      assert Crossings.CrossingValid(p.crossings[i]);
      Flows.ValidSequenceIncreasing(p.crossings[i].flow);
    }
  }

  // ---------------------------------------------------------------------------------------
  // Dictionaries
  // ---------------------------------------------------------------------------------------

  /** `[crossing.to_dict() for crossing in crossings]` */
  function CrossingDicts(crossings: seq<Crossings.CrossingValue>): seq<PyValue> {
    Dumped(crossings, Crossings.DictEntries)
  }

  /** `[CulvertCrossing.from_dict(raw) for raw in items if isinstance(raw, Mapping)]` */
  function CrossingsOf(items: seq<PyValue>): Result<seq<Crossings.CrossingValue>> {
    LoadMappings(items, Crossings.FromDict)
  }

  /** Entries that are not mappings are skipped: one crossing per mapping entry, and none at all
      when no entry is a mapping. */
  lemma CrossingsOfSkipsNonMappings(items: seq<PyValue>)
    ensures CrossingsOf(items).Ok? ==> |CrossingsOf(items).value| == |items| - CountNonMappings(items)
    ensures (forall i :: 0 <= i < |items| ==> !items[i].PDict?) ==> CrossingsOf(items) == Ok([])
  {
    LoadMappingsSkips(items, Crossings.FromDict);
  }

  /** Reading back a list of crossing dictionaries gives the crossings. */
  lemma CrossingsRoundTrip(crossings: seq<Crossings.CrossingValue>)
    ensures CrossingsOf(CrossingDicts(crossings)) == Ok(crossings)
  {
    forall i | 0 <= i < |crossings|
      ensures Crossings.FromDict(Crossings.DictEntries(crossings[i])) == Ok(crossings[i])
    {
      Crossings.DictRoundTrip(crossings[i]);
    }
    LoadDumped(crossings, Crossings.DictEntries, Crossings.FromDict);
  }

  /** The keys `to_dict` writes, in order. */
  const DictKeys: seq<string> := ["title", "designer", "notes", "units", "exit_loss_option", "crossings"]

  lemma DictKeysDistinct()
    ensures DistinctKeys(DictKeys)
  {
  }

  /** The values `to_dict` writes, in key order: the unit system by name. */
  function DictItems(p: ProjectValue): (r: seq<PyValue>)
    ensures |r| == |DictKeys|
  {
    [PStr(p.title), PStr(p.designer), PStr(p.notes), PStr(p.units.Name()), PInt(p.exitLossOption),
     PList(CrossingDicts(p.crossings))]
  }

  function DictEntries(p: ProjectValue): seq<(string, PyValue)> {
    Zip(DictKeys, DictItems(p))
  }

  /** `to_dict()` */
  function ToDict(p: ProjectValue): PyValue {
    PDict(DictEntries(p))
  }

  /** `from_dict(data)`: the texts default to "", the units to SI, the exit-loss option to 0, and
      only mapping entries of `crossings` become crossings. */
  function FromDict(data: seq<(string, PyValue)>): Result<ProjectValue> {
    var title :- Crossings.TextOf(Get(data, "title", PStr("")));
    var designer :- Crossings.TextOf(Get(data, "designer", PStr("")));
    var notes :- Crossings.TextOf(Get(data, "notes", PStr("")));
    var units :- CoerceUnits(Get(data, "units", PNone), SI);
    var exitLoss :- ToInt(Get(data, "exit_loss_option", PInt(0)));
    var crossings :- CrossingsOf(Items(NormalizeSequence(Get(data, "crossings", PNone))));
    Ok(ProjectValue(title, designer, notes, units, exitLoss, crossings))
  }

  /** An empty mapping gives the default project: SI units and no crossings. */
  lemma FromEmptyDict()
    ensures FromDict([]) == Ok(DefaultProject)
  {
    assert CrossingsOf(Items(NormalizeSequence(PNone))) == Ok([]);
  }

  /** Every field of `to_dict`'s output is found under its key. */
  lemma DictGets(p: ProjectValue)
    ensures var d := DictEntries(p);
      Get(d, "title", PStr("")) == PStr(p.title)
      && Get(d, "designer", PStr("")) == PStr(p.designer)
      && Get(d, "notes", PStr("")) == PStr(p.notes)
      && Get(d, "units", PNone) == PStr(p.units.Name())
      && Get(d, "exit_loss_option", PInt(0)) == PInt(p.exitLossOption)
      && Get(d, "crossings", PNone) == PList(CrossingDicts(p.crossings))
  {
    var v := DictItems(p);
    DictKeysDistinct();
    GetZip(DictKeys, v, 0, PStr(""));
    GetZip(DictKeys, v, 1, PStr(""));
    GetZip(DictKeys, v, 2, PStr(""));
    GetZip(DictKeys, v, 3, PNone);
    GetZip(DictKeys, v, 4, PInt(0));
    GetZip(DictKeys, v, 5, PNone);
  }

  /** `from_dict(to_dict(p))` reproduces the project, every crossing included. */
  lemma DictRoundTrip(p: ProjectValue)
    ensures FromDict(DictEntries(p)) == Ok(p)
  {
    DictGets(p);
    UnitNameCoerces(p.units, SI);
    CrossingsRoundTrip(p.crossings);
  }
}
