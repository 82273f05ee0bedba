/** A culvert crossing: a flow definition, a tailwater, a roadway and the barrels under it. */
module Crossings {
  import opened Wrappers
  import opened Text
  import opened PyValues
  import opened Base
  import Flows
  import Tailwaters
  import Roadways
  import Barrels

  datatype CrossingValue = CrossingValue(
    name: string,
    notes: string,
    flow: Flows.FlowValue,
    tailwater: Tailwaters.TailwaterValue,
    roadway: Roadways.RoadwayValue,
    culverts: seq<Barrels.BarrelValue>,
    uuid: Option<string>)

  /** `CulvertCrossing(name=name)`: every other field at its default, no barrels. */
  function DefaultCrossing(name: string): CrossingValue {
    CrossingValue(name, "", Flows.DefaultFlow, Tailwaters.DefaultTailwater, Roadways.DefaultRoadway, [], None)
  }

  // ---------------------------------------------------------------------------------------
  // Validation
  // ---------------------------------------------------------------------------------------

  const NoCulverts: string := "At least one culvert barrel is required."

  /** The prefix of the `index`-th barrel's messages (numbered from 1). */
  function CulvertPrefix(prefix: string, index: nat, name: string): string {
    prefix + ("Culvert #" + NatToString(index) + " (" + name + "): ")
  }

  /** One barrel's report, behind its numbered prefix. */
  function CulvertReport(prefix: string): (Barrels.BarrelValue, nat) -> seq<string> {
    (b: Barrels.BarrelValue, index: nat) => Barrels.Validate(b, CulvertPrefix(prefix, index, b.name))
  }

  /** The barrels' errors, each barrel behind its own numbered prefix starting at 1. */
  function CulvertErrors(culverts: seq<Barrels.BarrelValue>, prefix: string): seq<string> {
    NumberedReports(culverts, 1, CulvertReport(prefix))
  }

  predicate AllBarrelsValid(culverts: seq<Barrels.BarrelValue>) {
    forall i :: 0 <= i < |culverts| ==> Barrels.BarrelValid(culverts[i])
  }

  /** The barrels report nothing exactly when each is valid. */
  lemma CulvertErrorsEmpty(culverts: seq<Barrels.BarrelValue>, prefix: string)
    ensures CulvertErrors(culverts, prefix) == [] <==> AllBarrelsValid(culverts)
  {
    NumberedReportsEmpty(culverts, 1, CulvertReport(prefix));
  }

  /** Each barrel's report carries the crossing's prefix. */
  lemma CulvertReportPrefixed(b: Barrels.BarrelValue, index: nat, prefix: string)
    ensures forall e :: e in CulvertReport(prefix)(b, index) ==> StartsWith(e, prefix)
  {
    forall e | e in CulvertReport(prefix)(b, index)
      ensures StartsWith(e, prefix)
    {
      StartsWithLonger(e, prefix, "Culvert #" + NatToString(index) + " (" + b.name + "): ");
    }
  }

  /** Every message of the barrels carries the prefix. */
  lemma CulvertErrorsPrefixed(culverts: seq<Barrels.BarrelValue>, prefix: string)
    ensures forall e :: e in CulvertErrors(culverts, prefix) ==> StartsWith(e, prefix)
  {
    forall i | 0 <= i < |culverts|
      ensures forall e :: e in CulvertReport(prefix)(culverts[i], 1 + i) ==> StartsWith(e, prefix)
    {
      CulvertReportPrefixed(culverts[i], 1 + i, prefix);
    }
    NumberedReportsPrefixed(culverts, 1, CulvertReport(prefix), prefix);
  }

  /** Appending a barrel appends its report, numbered after the existing barrels. */
  lemma CulvertErrorsAppend(culverts: seq<Barrels.BarrelValue>, b: Barrels.BarrelValue, prefix: string)
    ensures CulvertErrors(culverts + [b], prefix)
         == CulvertErrors(culverts, prefix) + Barrels.Validate(b, CulvertPrefix(prefix, |culverts| + 1, b.name))
  {
    NumberedReportsAppend(culverts, b, 1, CulvertReport(prefix));
  }

  /** A tailwater at or above the roadway crest, when the roadway has elevations. */
  predicate CrestConflict(c: CrossingValue) {
    c.roadway.elevations != [] && c.tailwater.constantElevation >= Roadways.MinOf(c.roadway.elevations)
  }

  /** The crest message; `repr` renders a float as Python's `str` does. */
  function CrestMessage(prefix: string, tailwater: real, crest: real, repr: real -> string): string {
    prefix + ("Constant tailwater elevation (" + repr(tailwater) + ") reaches or exceeds the roadway crest ("
              + repr(crest) + "). Lower the tailwater or use the HY-8 GUI for overtopping conditions.")
  }

  /** The crossing the validator accepts, stated without reference to the messages. */
  predicate CrossingValid(c: CrossingValue) {
    Flows.FlowValid(c.flow)
    && Tailwaters.TailwaterValid(c.tailwater)
    && Roadways.RoadwayValid(c.roadway)
    && c.culverts != []
    && AllBarrelsValid(c.culverts)
    && !CrestConflict(c)
  }

  /** The reports of the flow, the tailwater and the roadway, each behind its own prefix. */
  function PartErrors(c: CrossingValue, prefix: string): (errors: seq<string>)
    ensures errors == [] <==>
      Flows.FlowValid(c.flow) && Tailwaters.TailwaterValid(c.tailwater) && Roadways.RoadwayValid(c.roadway)
    ensures forall e :: e in errors ==> StartsWith(e, prefix)
  {
    var flowErrors := Flows.Validate(c.flow, prefix + "Flow: ");
    var twErrors := Tailwaters.Validate(c.tailwater, prefix + "Tailwater: ");
    var roadErrors := Roadways.Validate(c.roadway, prefix + "Roadway: ");
    var errors := flowErrors + twErrors + roadErrors;
    assert forall e :: e in errors ==> StartsWith(e, prefix) by {
      forall e | e in errors
        ensures StartsWith(e, prefix)
      {
        if e in flowErrors {
          StartsWithLonger(e, prefix, "Flow: ");
        } else if e in twErrors {
          StartsWithLonger(e, prefix, "Tailwater: ");
        } else {
          StartsWithLonger(e, prefix, "Roadway: ");
        }
      }
    }
    errors
  }

  /** The barrel count check followed by each barrel's report. */
  function BarrelPartErrors(culverts: seq<Barrels.BarrelValue>, prefix: string): (errors: seq<string>)
    ensures errors == [] <==> culverts != [] && AllBarrelsValid(culverts)
    ensures forall e :: e in errors ==> StartsWith(e, prefix)
    ensures culverts == [] ==> errors == [prefix + NoCulverts]
  {
    CulvertErrorsEmpty(culverts, prefix);
    CulvertErrorsPrefixed(culverts, prefix);
    (if culverts == [] then [prefix + NoCulverts] else []) + CulvertErrors(culverts, prefix)
  }

  /** The crest check. */
  function CrestErrors(c: CrossingValue, prefix: string, repr: real -> string): (errors: seq<string>)
    ensures errors == [] <==> !CrestConflict(c)
    ensures CrestConflict(c) ==>
      (errors == [CrestMessage(prefix, c.tailwater.constantElevation, Roadways.MinOf(c.roadway.elevations), repr)])
    ensures forall e :: e in errors ==> StartsWith(e, prefix)
  {
    if CrestConflict(c)
    then [CrestMessage(prefix, c.tailwater.constantElevation, Roadways.MinOf(c.roadway.elevations), repr)]
    else []
  }

  /** `validate(prefix)`: flow, tailwater, roadway, the barrel count, each barrel and the crest
      check, in that order. It reports nothing exactly for a valid crossing; the lemmas below
      state which messages it gives. */
  function Validate(c: CrossingValue, prefix: string, repr: real -> string): (errors: seq<string>)
    ensures errors == [] <==> CrossingValid(c)
  {
    PartErrors(c, prefix) + BarrelPartErrors(c.culverts, prefix) + CrestErrors(c, prefix, repr)
  }

  /** Every message of `validate(prefix)` starts with the prefix. */
  lemma ValidatePrefixed(c: CrossingValue, prefix: string, repr: real -> string)
    ensures forall e :: e in Validate(c, prefix, repr) ==> StartsWith(e, prefix)
  {
    var parts := PartErrors(c, prefix);
    var barrels := BarrelPartErrors(c.culverts, prefix);
    var crest := CrestErrors(c, prefix, repr);
    assert Validate(c, prefix, repr) == parts + barrels + crest;
  }

  /** A crossing without barrels is told so. */
  lemma ValidateReportsNoBarrels(c: CrossingValue, prefix: string, repr: real -> string)
    requires c.culverts == []
    ensures prefix + NoCulverts in Validate(c, prefix, repr)
  {
    var parts := PartErrors(c, prefix);
    assert Validate(c, prefix, repr)[|parts|] == prefix + NoCulverts;
  }

  /** When everything else is in order, the crossing reports exactly its flow's messages, behind
      "Flow: ". */
  lemma ValidatePassesFlowErrors(c: CrossingValue, prefix: string, repr: real -> string)
    requires Tailwaters.TailwaterValid(c.tailwater) && Roadways.RoadwayValid(c.roadway)
    requires c.culverts != [] && AllBarrelsValid(c.culverts) && !CrestConflict(c)
    ensures Validate(c, prefix, repr) == Flows.Validate(c.flow, prefix + "Flow: ")
  {
    assert Tailwaters.Validate(c.tailwater, prefix + "Tailwater: ") == [];
    assert Roadways.Validate(c.roadway, prefix + "Roadway: ") == [];
    assert BarrelPartErrors(c.culverts, prefix) == [];
    assert CrestErrors(c, prefix, repr) == [];
  }

  /** A tailwater at or above the crest is reported last, with both elevations in the message. */
  lemma ValidateReportsCrest(c: CrossingValue, prefix: string, repr: real -> string)
    requires CrestConflict(c)
    ensures var errors := Validate(c, prefix, repr);
      errors != [] && errors[|errors| - 1]
        == CrestMessage(prefix, c.tailwater.constantElevation, Roadways.MinOf(c.roadway.elevations), repr)
  {
  }

  /** A valid crossing keeps its tailwater strictly below every roadway elevation and not below
      its own invert. */
  lemma ValidTailwaterBelowCrest(c: CrossingValue, repr: real -> string)
    requires Validate(c, "", repr) == []
    ensures forall i :: 0 <= i < |c.roadway.elevations| ==> c.tailwater.constantElevation < c.roadway.elevations[i]
    ensures c.tailwater.invertElevation <= c.tailwater.constantElevation
  {
  }

  // ---------------------------------------------------------------------------------------
  // Adding barrels
  // ---------------------------------------------------------------------------------------

  /** The keyword arguments of `add_barrel`: a barrel built from them, whose name is set only
      when `name` was passed. */
  datatype BarrelKeywords = BarrelKeywords(name: Option<string>, fields: Barrels.BarrelValue)

  const BothGiven: string := "Provide either a barrel instance or keyword arguments, not both."

  /** The name `add_barrel` gives a barrel when none is passed: "Barrel {count + 1}". */
  function DefaultBarrelName(count: nat): string {
    "Barrel " + NatToString(count + 1)
  }

  /** The barrel `add_barrel(barrel, **kwargs)` appends to a crossing holding `count` barrels. */
  function BarrelToAdd(count: nat, barrel: Option<Barrels.BarrelValue>, kwargs: Option<BarrelKeywords>)
    : (r: Result<Barrels.BarrelValue>)
    ensures barrel.Some? && kwargs.Some? ==> r == Err(BothGiven)
    ensures barrel.Some? && kwargs.None? ==> r == Ok(barrel.value)
    ensures barrel.None? && kwargs.None? ==> r == Ok(Barrels.DefaultBarrel(DefaultBarrelName(count)))
    ensures barrel.None? && kwargs.Some? ==>
      r.Ok? && r.value.(name := kwargs.value.fields.name) == kwargs.value.fields
      && r.value.name == (if kwargs.value.name.Some? then kwargs.value.name.value else DefaultBarrelName(count))
  {
    if barrel.Some? && kwargs.Some? then Err(BothGiven)
    else if barrel.Some? then Ok(barrel.value)
    else if kwargs.None? then Ok(Barrels.DefaultBarrel(DefaultBarrelName(count)))
    else
      var name := if kwargs.value.name.Some? then kwargs.value.name.value else DefaultBarrelName(count);
      Ok(kwargs.value.fields.(name := name))
  }

  /** Adding a valid barrel to a valid crossing keeps it valid, and a crossing whose only defect
      was having no barrel becomes valid. */
  lemma AddValidBarrel(c: CrossingValue, b: Barrels.BarrelValue)
    requires Barrels.BarrelValid(b)
    requires Flows.FlowValid(c.flow) && Tailwaters.TailwaterValid(c.tailwater)
    requires Roadways.RoadwayValid(c.roadway) && AllBarrelsValid(c.culverts) && !CrestConflict(c)
    ensures CrossingValid(c.(culverts := c.culverts + [b]))
  {
    var cs := c.culverts + [b];
    assert forall i :: 0 <= i < |cs| ==> Barrels.BarrelValid(cs[i]) by {
      forall i | 0 <= i < |cs|
        ensures Barrels.BarrelValid(cs[i])
      {
        if i < |c.culverts| {
          assert cs[i] == c.culverts[i];
        }
      }
    }
  }

  class CulvertCrossing {
    var name: string
    var notes: string
    var flow: Flows.FlowValue
    var tailwater: Tailwaters.TailwaterValue
    var roadway: Roadways.RoadwayValue
    var culverts: seq<Barrels.BarrelValue>
    var uuid: Option<string>

    function Value(): CrossingValue
      reads this
    {
      CrossingValue(name, notes, flow, tailwater, roadway, culverts, uuid)
    }

    constructor (name: string)
      ensures Value() == DefaultCrossing(name)
    {
      this.name, notes := name, "";
      flow, tailwater, roadway := Flows.DefaultFlow, Tailwaters.DefaultTailwater, Roadways.DefaultRoadway;
      culverts, uuid := [], None;
    }

    /** `add_barrel(barrel, **kwargs)`: on success exactly one barrel is appended and returned. */
    method AddBarrel(barrel: Option<Barrels.BarrelValue>, kwargs: Option<BarrelKeywords>)
      returns (r: Result<Barrels.BarrelValue>)
      modifies this
      ensures r == BarrelToAdd(|old(culverts)|, barrel, kwargs)
      ensures r.Ok? ==> Value() == old(Value()).(culverts := old(culverts) + [r.value])
      ensures r.Err? ==> Value() == old(Value())
    {
      r := BarrelToAdd(|culverts|, barrel, kwargs);
      if r.Ok? {
        culverts := culverts + [r.value];
      }
    }
  }

  // ---------------------------------------------------------------------------------------
  // Dictionaries
  // ---------------------------------------------------------------------------------------

  /** `[culvert.to_dict() for culvert in culverts]` */
  function BarrelDicts(culverts: seq<Barrels.BarrelValue>): seq<PyValue> {
    Dumped(culverts, Barrels.DictEntries)
  }

  /** `[CulvertBarrel.from_dict(raw) for raw in items if isinstance(raw, Mapping)]` */
  function BarrelsOf(items: seq<PyValue>): Result<seq<Barrels.BarrelValue>> {
    LoadMappings(items, Barrels.FromDict)
  }

  /** Entries that are not mappings are dropped: one barrel per mapping entry, and none at all
      when no entry is a mapping. */
  lemma BarrelsOfDropsNonMappings(items: seq<PyValue>)
    ensures BarrelsOf(items).Ok? ==> |BarrelsOf(items).value| == |items| - CountNonMappings(items)
    ensures (forall i :: 0 <= i < |items| ==> !items[i].PDict?) ==> BarrelsOf(items) == Ok([])
  {
    LoadMappingsSkips(items, Barrels.FromDict);
  }

  /** Reading back a list of barrel dictionaries gives the barrels. */
  lemma BarrelsRoundTrip(culverts: seq<Barrels.BarrelValue>)
    ensures BarrelsOf(BarrelDicts(culverts)) == Ok(culverts)
  {
    forall i | 0 <= i < |culverts|
      ensures Barrels.FromDict(Barrels.DictEntries(culverts[i])) == Ok(culverts[i])
    {
      Barrels.DictRoundTrip(culverts[i]);
    }
    LoadDumped(culverts, Barrels.DictEntries, Barrels.FromDict);
  }

  /** The keys `to_dict` writes, in order. */
  const DictKeys: seq<string> := ["name", "notes", "flow", "tailwater", "roadway", "culverts", "uuid"]

  lemma DictKeysDistinct()
    ensures DistinctKeys(DictKeys)
  {
  }

  function UuidItem(uuid: Option<string>): PyValue {
    if uuid.Some? then PStr(uuid.value) else PNone
  }

  /** The values `to_dict` writes, in key order. */
  function DictItems(c: CrossingValue): (r: seq<PyValue>)
    ensures |r| == |DictKeys|
  {
    [PStr(c.name), PStr(c.notes), Flows.ToDict(c.flow), Tailwaters.ToDict(c.tailwater),
     Roadways.ToDict(c.roadway), PList(BarrelDicts(c.culverts)), UuidItem(c.uuid)]
  }

  function DictEntries(c: CrossingValue): seq<(string, PyValue)> {
    Zip(DictKeys, DictItems(c))
  }

  /** `to_dict()` */
  function ToDict(c: CrossingValue): PyValue {
    PDict(DictEntries(c))
  }

  /** The crossing name as `from_dict` takes it: the stored value itself. */
  function TextOf(v: PyValue): (r: Result<string>)
    ensures v.PStr? <==> r.Ok?
    ensures v.PStr? ==> r.value == v.s
  {
    if v.PStr? then Ok(v.s) else Err("a name that is not a string is outside the model")
  }

  /** The uuid as `from_dict` takes it: `None` or a string. */
  function UuidOf(v: PyValue): (r: Result<Option<string>>)
    ensures v.PNone? ==> r == Ok(None)
    ensures v.PStr? ==> r == Ok(Some(v.s))
  {
    if v.PNone? then Ok(None)
    else if v.PStr? then Ok(Some(v.s))
    else Err("a uuid that is not a string is outside the model")
  }

  /** `from_dict(data)`: sub-objects from mappings (anything else counts as empty), barrels only
      from mapping entries, the name "Crossing" when absent. */
  function FromDict(data: seq<(string, PyValue)>): Result<CrossingValue> {
    Assemble(Flows.FromDict(NormalizeMapping(Get(data, "flow", PNone)).entries),
             Tailwaters.FromDict(NormalizeMapping(Get(data, "tailwater", PNone)).entries),
             Roadways.FromDict(NormalizeMapping(Get(data, "roadway", PNone)).entries),
             BarrelsOf(Items(NormalizeSequence(Get(data, "culverts", PNone)))),
             TextOf(Get(data, "name", PStr("Crossing"))),
             Barrels.StrOf(Get(data, "notes", PStr(""))),
             UuidOf(Get(data, "uuid", PNone)))
  }

  /** The crossing built from what `from_dict` read, in its order: the first failure raises. */
  function Assemble(flow: Result<Flows.FlowValue>, tailwater: Result<Tailwaters.TailwaterValue>,
                    roadway: Result<Roadways.RoadwayValue>, culverts: Result<seq<Barrels.BarrelValue>>,
                    name: Result<string>, notes: Result<string>, uuid: Result<Option<string>>): Result<CrossingValue> {
    var f :- flow;
    var t :- tailwater;
    var r :- roadway;
    var cs :- culverts;
    var n :- name;
    var text :- notes;
    var id :- uuid;
    Ok(CrossingValue(n, text, f, t, r, cs, id))
  }

  /** An empty mapping gives the default crossing, named "Crossing". */
  lemma FromEmptyDict()
    ensures FromDict([]) == Ok(DefaultCrossing("Crossing"))
  {
    assert Flows.FromDict([]) == Ok(Flows.DefaultFlow);
    assert Tailwaters.FromDict([]) == Ok(Tailwaters.DefaultTailwater);
    assert Roadways.FromDict([]) == Ok(Roadways.DefaultRoadway);
    assert NormalizeMapping(PNone) == PDict([]);
    assert BarrelsOf(Items(NormalizeSequence(PNone))) == Ok([]);
    assert Barrels.StrOf(PStr("")) == Ok("");
  }

  /** Every field of `to_dict`'s output is found under its key. */
  lemma DictGets(c: CrossingValue)
    ensures var d := DictEntries(c);
      Get(d, "name", PStr("Crossing")) == PStr(c.name)
      && Get(d, "notes", PStr("")) == PStr(c.notes)
      && Get(d, "flow", PNone) == Flows.ToDict(c.flow)
      && Get(d, "tailwater", PNone) == Tailwaters.ToDict(c.tailwater)
      && Get(d, "roadway", PNone) == Roadways.ToDict(c.roadway)
      && Get(d, "culverts", PNone) == PList(BarrelDicts(c.culverts))
      && Get(d, "uuid", PNone) == UuidItem(c.uuid)
  {
    var v := DictItems(c);
    DictKeysDistinct();
    GetZip(DictKeys, v, 0, PStr("Crossing"));
    GetZip(DictKeys, v, 1, PStr(""));
    GetZip(DictKeys, v, 2, PNone);
    GetZip(DictKeys, v, 3, PNone);
    GetZip(DictKeys, v, 4, PNone);
    GetZip(DictKeys, v, 5, PNone);
    GetZip(DictKeys, v, 6, PNone);
  }

  /** Each sub-object read back from its dictionary is the one written. */
  lemma PartsRoundTrip(c: CrossingValue)
    ensures Flows.FromDict(NormalizeMapping(Flows.ToDict(c.flow)).entries) == Ok(c.flow)
    ensures Tailwaters.FromDict(NormalizeMapping(Tailwaters.ToDict(c.tailwater)).entries) == Ok(c.tailwater)
    ensures Roadways.FromDict(NormalizeMapping(Roadways.ToDict(c.roadway)).entries) == Ok(c.roadway)
    ensures BarrelsOf(Items(NormalizeSequence(PList(BarrelDicts(c.culverts))))) == Ok(c.culverts)
  {
    Flows.DictRoundTrip(c.flow);
    Tailwaters.DictRoundTrip(c.tailwater);
    Roadways.DictRoundTrip(c.roadway);
    BarrelsRoundTrip(c.culverts);
  }

  /** `from_dict(to_dict(c))` reproduces the crossing, barrels included. */
  lemma DictRoundTrip(c: CrossingValue)
    ensures FromDict(DictEntries(c)) == Ok(c)
  {
    DictGets(c);
    PartsRoundTrip(c);
  }
}
