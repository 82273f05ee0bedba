# run-hy8 in Dafny

run-hy8 drives HY-8, the US Federal Highway Administration's culvert hydraulics program, from
Python. A project is a set of culvert crossings. Each crossing has four parts: a flow
definition (the discharges to run), a tailwater, a roadway profile, and one or more culvert
barrels. The library does four things with a project:
- it validates the project;
- it writes the project as a `.hy8` card file;
- it reads a `.hy8` file back;
- it reads HY-8's result reports.

On top of those, the hydraulics helpers search for the flow that gives a target headwater,
treating HY-8 as a black box. The repository also carries three more parts:
- an older, hand-written reference writer used by the regression tests;
- an older single-module copy of the domain classes;
- a handful of batch and benchmark scripts.

This project models that core in Dafny and proves what each part promises.

| module (file) | what it models |
|---|---|
| `Wrappers`, `Text`, `Numbers`, `PyValues` (wrappers, text, numbers, py_values) | the Python builtins the code leans on: results and errors, string operations, number formatting and parsing, JSON-like values |
| `Units` (units) | the scalar unit conversions and their reciprocal constants |
| `Enums`, `References` (enums, references) | the enum code tables, `coerce_enum`, the unit-system flag pairs and `ValidationError` |
| `Base`, `Flows`, `Tailwaters`, `Roadways`, `Barrels`, `Crossings`, `Projects` (base … project) | the domain classes of the `models` package: validation with prefixed error lists, the mutators as class methods, and `to_dict`/`from_dict` |
| `Config` (config) | `project_from_mapping`, the JSON-mapping loader |
| `CardWriter`, `Codec` (writer, codec) | `Hy8FileWriter`: the column layout of a card, the card order of each section, and what the reader makes of a written line |
| `CardStreams`, `CardFields`, `Reader`, `ReaderProperties` (card_stream, card_fields, reader, reader_props) | the project-file reader: the card stream with its push-back buffer, the lenient field readers, and the recursive-descent parser |
| `Results` (results) | the `.rst` and `.rsql` report scanners, the merged result rows, and nearest-flow lookup |
| `Hydraulics` (hydraulics) | the inverse flow search (`_FlowSearch` and `crossing_q_from_hw`) plus its geometry helpers and project-wide loops; the HY-8 run is the parameter `evaluate` |
| `LegacyModels` (legacy) | the shadowed `src/run_hy8/models.py`, where its validation differs from the package |
| `Runner`, `RunnerFlows`, `RunnerCrossings`, `RunnerCulverts`, `RunnerOutput` (runner*) | the reference writer under `tests/hy8runner`: index-clamped, never-empty lists, `compute_list`, string-built validation messages, and the lines it writes |
| `ScriptShared`, `BatchCompare`, `Benchmark`, `CsvDemo`, `SampleCompare` (script_*) | the pure parts of the scripts: batching, name sanitising, flow ranges, stream summaries, result comparison, line normalisation, the headwater bisection and the timing summary |

The model takes the following forms:
- A class whose methods change its fields in place is a Dafny `class`. Its state is exposed as a
  value (`Value()`), and each method is proved against a function on that value.
- Loops are `method`s with invariants.
- Pure code is made of functions and lemmas.
- Python floats are reals. Where the code tests `isnan`, NaN is an explicit case
  (`Num = NaN | Val(real)`).
- A Python exception is an `Err` carrying the exception's message or its parts.

Where the project's documentation and its code disagree, the model follows the code:
- The writer and reader convert no units.
- They never make extra flow points for a single flow.
- The flow search raises "Unable to bracket" rather than a capacity error.
- The reader's `flow.increment = …` succeeds. `Validatable` declares no `__slots__`, so instances
  keep a `__dict__`. A read-back flow of three or more evenly spaced values therefore becomes a
  min-max-increment flow, and the stored increment is never read.
- In `config.py`, `entry.get("increment", flow.increment)` reads that attribute before anything
  sets it. Loading a min-max-increment flow from a mapping therefore always raises.
- The modules of the `models` package import `float_list`, `normalize_sequence` and the other
  factories from `base.py`, which defines them with a leading underscore. The model takes them to
  be the same helpers.
- `reader.py` imports the enumerations `CulvertShape`, `CulvertMaterial`, `FlowMethod`,
  `TailwaterType`, `RoadwaySurface` and `UnitSystem` from `.models`, and `writer.py` imports the
  first four of them the same way, but the `models` package's `__init__` does not export them. The model assumes those imports resolve to the enumerations of `type_helpers.py`
  and `classes_references.py`.

## Model

| member | source | states |
|---|---|---|
| Units.ConversionsInverse | src/run_hy8/units.py:3-62 | each metric/imperial conversion undoes its partner, in both orders |
| Units.ConversionsMonotone | src/run_hy8/units.py:15-62 | every conversion maps zero to zero and is strictly increasing |
| References.UnitFlagsDistinct | src/run_hy8/classes_references.py:6-14 | the two unit systems are told apart by their CLI flag and by their project flag |
| References.NewValidationError | src/run_hy8/classes_references.py:17-23 | the error keeps its list; the message is "Unknown validation error." for none, the single error for one, and otherwise the errors joined by "; ", whose length is the parts' lengths plus two per separator |
| Enums.ShapeFromCode | src/run_hy8/type_helpers.py:114-118 | a code finds the culvert shape carrying it, and every shape is found by its own code |
| Enums.MaterialFromCode | src/run_hy8/type_helpers.py:121-126 | a code finds the material carrying it (1, 2 and 5), and every material is found by its own code |
| Enums.TailwaterTypeFromCode | src/run_hy8/type_helpers.py:34-42 | codes 1 to 6, and only those, name a tailwater type, each its own |
| Enums.SurfaceFromCode | src/run_hy8/type_helpers.py:45-50 | codes 1 to 3, and only those, name a roadway surface, each its own |
| Enums.InletTypeFromCode | src/run_hy8/type_helpers.py:69-77 | codes 0 to 5, and only those, name an inlet type, each its own |
| Enums.InletEdgeTypeFromCode | src/run_hy8/type_helpers.py:80-89 | codes 0 to 6, and only those, name an inlet edge type, each its own |
| Enums.InletEdgeType71FromCode | src/run_hy8/type_helpers.py:92-99 | codes 0 to 4, and only those, name a legacy edge code, each its own |
| Enums.ImprovedInletEdgeTypeFromCode | src/run_hy8/type_helpers.py:102-111 | codes 0 to 6, and only those, name an improved inlet edge type, each its own |
| Enums.CoerceEnum | src/run_hy8/type_helpers.py:11-23 | None gives the default; any other accepted value gives a member of the enum |
| Enums.CoerceByName | src/run_hy8/type_helpers.py:16-22 | a member, or its name as a string, coerces to that member when names are distinct |
| Enums.CoerceByValue | src/run_hy8/type_helpers.py:18-23 | a value that names no member and equals exactly one member's value coerces to that member |
| Enums.CoerceUnknown | src/run_hy8/type_helpers.py:18-23 | a value matching no name and no member value is refused |
| Enums.TailwaterTypeNamesDistinct | src/run_hy8/type_helpers.py:34-42 | the tailwater type names are pairwise distinct |
| Enums.InletTypeNamesDistinct | src/run_hy8/type_helpers.py:69-77 | the inlet type names are pairwise distinct |
| Enums.InletEdgeTypeNamesDistinct | src/run_hy8/type_helpers.py:80-89 | the inlet edge type names are pairwise distinct |
| Enums.InletEdgeType71NamesDistinct | src/run_hy8/type_helpers.py:92-99 | the legacy edge code names are pairwise distinct |
| Enums.ImprovedInletEdgeTypeNamesDistinct | src/run_hy8/type_helpers.py:102-111 | the improved inlet edge type names are pairwise distinct |
| Enums.SurfaceNamesDistinct | src/run_hy8/type_helpers.py:45-50 | the roadway surface names are pairwise distinct |
| Enums.UnitNameCoerces | src/run_hy8/classes_references.py:6-10 | a unit system's name coerces back to that unit system, whatever the default |
| Enums.ShapeMaterialNamesRoundTrip | src/run_hy8/models/culvert_barrel.py:65-66 | the shape and material names `to_dict` writes coerce back to the same shape and material |
| Enums.FlowMethodCoerce | src/run_hy8/type_helpers.py:26-31 | a flow method coerces from its name and, the enum being string-valued, from its value text |
| Enums.FlowValueTextsDistinct | src/run_hy8/type_helpers.py:26-31 | no flow method's value text is a member name, and value texts tell the methods apart |
| Enums.ShapeCodeCoerce | src/run_hy8/type_helpers.py:114-118 | an integer code coerces to the shape carrying it; any other code is refused |
| Enums.InletTypeNameCoerces | src/run_hy8/type_helpers.py:69-77 | each inlet type's name coerces back to it |
| Enums.InletEdgeTypeNameCoerces | src/run_hy8/type_helpers.py:80-89 | each inlet edge type's name coerces back to it |
| Enums.InletEdgeType71NameCoerces | src/run_hy8/type_helpers.py:92-99 | each legacy edge code's name coerces back to it |
| Enums.ImprovedInletEdgeTypeNameCoerces | src/run_hy8/type_helpers.py:102-111 | each improved inlet edge type's name coerces back to it |
| Base.NormalizeSequence | src/run_hy8/models/base.py:55-60 | a list or tuple passes through unchanged and anything else becomes the empty tuple |
| Base.NormalizeMapping | src/run_hy8/models/base.py:63-68 | a mapping passes through unchanged and anything else becomes the empty dict |
| Base.AssertValid | src/run_hy8/models/base.py:19-24 | the error is always raised: the rendered list text is never empty, and its errors run from "[" to "]" |
| Base.AssertValidEmpty | src/run_hy8/models/base.py:19-24 | with no validation errors the raised message is "[; ]" |
| Base.NumberedReportsEmpty | src/run_hy8/models/project.py:56-59 | the numbered reports of a list are empty exactly when every item, at its own number, reports nothing |
| Base.NumberedReportsPrefixed | src/run_hy8/models/culvert_crossing.py:69-71 | when every item's report carries a prefix, every collected error does |
| Base.NumberedReportsAppend | src/run_hy8/models/project.py:56-59 | appending an item appends its report, numbered after the existing items |
| Base.CountNonMappings | src/run_hy8/models/project.py:185-189 | the count of non-mapping entries is at most the number of entries |
| Base.LoadMappingsSkips | src/run_hy8/models/culvert_crossing.py:214-218 | one object per mapping entry; entries that are not mappings are dropped, so none at all when no entry is a mapping |
| Base.Dumped | src/run_hy8/models/culvert_crossing.py:205 | one dictionary per object, in order, each the object's own `to_dict` |
| Base.LoadDumped | src/run_hy8/models/culvert_crossing.py:198-218 | when each object survives its own dictionary, the list survives the list of dictionaries |
| Flows.MinDesignMaxValues | src/run_hy8/models/flow_definition.py:94-101 | always exactly the three range fields, minimum, design and maximum in that order |
| Flows.Sequence | src/run_hy8/models/flow_definition.py:49-55 | the three range flows for Min/Design/Max, the user values for user-defined, and the unsupported-method error for Min/Max/Increment |
| Flows.StepScanCorrect | src/run_hy8/models/flow_definition.py:144 | the pairwise `a >= b` scan finds a bad step exactly when the values are not strictly increasing |
| Flows.ValidSequenceIncreasing | src/run_hy8/models/flow_definition.py:49-55 | a definition that validates has a sequence, and that sequence strictly increases |
| Flows.ValidateRange | src/run_hy8/models/flow_definition.py:131-140 | every message carries the prefix; no error exactly when the user values are absent or three, min < design < max and min >= 0; a negative minimum is reported |
| Flows.ValidateUser | src/run_hy8/models/flow_definition.py:141-147 | every message carries the prefix; no error exactly when values exist, strictly increase and labels are absent or one per value; no values is reported |
| Flows.Validate | src/run_hy8/models/flow_definition.py:129-150 | every message carries the prefix; no error exactly when the definition is valid for its method; Min/Max/Increment gives exactly the unsupported-method error |
| Flows.Blanks | src/run_hy8/models/flow_definition.py:63-64 | n empty labels |
| Flows.UserFlowLabelIndex | src/run_hy8/models/flow_definition.py:62-65 | a given label lands at the new value's index, earlier labels are kept, and the gap is filled with blanks |
| Flows.UserFlowKeepsAlignment | src/run_hy8/models/flow_definition.py:57-67 | the value is appended, the method becomes user-defined, and labels that were absent or aligned stay so |
| Flows.UserFlowKeepsValid | src/run_hy8/models/flow_definition.py:57-67 | appending a value above the last keeps a valid user-defined definition valid |
| Flows.MinDesignMaxSequence | src/run_hy8/models/flow_definition.py:76-92 | afterwards the sequence is the three flows, and the definition validates exactly when 0 <= min < design < max |
| Flows.FlowDefinition.AddUserFlow | src/run_hy8/models/flow_definition.py:57-74 | the new state is the old one with the value (and label) added as the value-level function says |
| Flows.FlowDefinition.SetMinDesignMax | src/run_hy8/models/flow_definition.py:76-92 | the new state is the old one switched to Min/Design/Max with the three flows and the lists cleared |
| Flows.FromDict | src/run_hy8/models/flow_definition.py:113-127 | an empty mapping gives the default definition |
| Flows.DictRoundTrip | src/run_hy8/models/flow_definition.py:103-127 | `from_dict(to_dict(f))` reproduces the definition |
| Flows.DictGetsScalars | src/run_hy8/models/flow_definition.py:104-108 | each scalar key of the dictionary `to_dict` builds is found with its own value |
| Flows.DictGetsLists | src/run_hy8/models/flow_definition.py:109-110 | both list keys of the dictionary `to_dict` builds are found with their own lists |
| Flows.FlowDefinition.constructor | src/run_hy8/models/flow_definition.py:26-31 | a new flow is user-defined with zero minimum, design and maximum and no values or labels |
| Tailwaters.Validate | src/run_hy8/models/tailwater_definition.py:93-106 | a non-constant type gets exactly the unsupported-type message; a constant tailwater is valid exactly when its elevation is not below the invert, else exactly the below-invert message; every message carries the prefix |
| Tailwaters.SetConstantValidates | src/run_hy8/models/tailwater_definition.py:43-55 | afterwards the type is constant with the new elevation, the invert is kept when none is given, and the tailwater validates exactly when the elevation is not below the invert in force |
| Tailwaters.TailwaterDefinition.SetConstant | src/run_hy8/models/tailwater_definition.py:43-55 | the new state is the old one with the constant type, elevation and (when given) invert |
| Tailwaters.TailwaterDefinition.RatingCurveRows | src/run_hy8/models/tailwater_definition.py:108-109 | a copy of the rating curve |
| Tailwaters.KeptEntries | src/run_hy8/models/tailwater_definition.py:73-78 | at most one entry per item, each cut to exactly three items |
| Tailwaters.CurvePointsSpec | src/run_hy8/models/tailwater_definition.py:72-79 | a curve that reads has one point per kept entry, each point the `float` of that entry's three items |
| Tailwaters.ShortEntriesDropped | src/run_hy8/models/tailwater_definition.py:73-77 | entries that are not sequences, or are strings, or hold fewer than three items, yield no point |
| Tailwaters.PointItems | src/run_hy8/models/tailwater_definition.py:66 | one tuple per rating point, in order |
| Tailwaters.FromDict | src/run_hy8/models/tailwater_definition.py:70-91 | an empty mapping gives the default tailwater (constant type, side slope 1.0, six curve entries) |
| Tailwaters.CurveRoundTrip | src/run_hy8/models/tailwater_definition.py:66-79 | the rating curve read back from the tuples `to_dict` writes is the same curve |
| Tailwaters.DictGetsScalars | src/run_hy8/models/tailwater_definition.py:57-63 | each scalar key of `to_dict`'s output is found with its own value |
| Tailwaters.DictGetsRest | src/run_hy8/models/tailwater_definition.py:57-67 | the type name, the elevations, the entry count and the curve are found under their keys |
| Tailwaters.DictRoundTrip | src/run_hy8/models/tailwater_definition.py:57-91 | `from_dict(to_dict(t))` reproduces the tailwater |
| Tailwaters.TypeNameCoerces | src/run_hy8/models/tailwater_definition.py:82 | each tailwater type's name coerces back to that type |
| Tailwaters.TailwaterDefinition.constructor | src/run_hy8/models/tailwater_definition.py:19-27 | a new tailwater is a constant one with side slope 1, six rating-curve entries, zero elsewhere and no rating curve |
| Roadways.Points | src/run_hy8/models/roadway_profile.py:35-36 | as many pairs as the shorter list, pair i being station i with elevation i |
| Roadways.Validate | src/run_hy8/models/roadway_profile.py:50-58 | a width <= 0, fewer than two stations or elevations, and unequal counts each report their own message; no error exactly when the profile is valid; at most three messages, each behind the prefix |
| Roadways.Crest | src/run_hy8/models/roadway_profile.py:60-63 | an error exactly when there are no elevations; otherwise one of the elevations and no higher than any |
| Roadways.MinOf | src/run_hy8/models/roadway_profile.py:63 | a member of the list no greater than any member |
| Roadways.AddPointKeepsShape | src/run_hy8/models/roadway_profile.py:38-48 | the difference between the list lengths is kept, aligned lists gain the pair as their last point, and the crest exists afterwards and never rises |
| Roadways.RoadwayProfile.AddPoint | src/run_hy8/models/roadway_profile.py:38-48 | the new state is the old one with the station and the elevation appended |
| Roadways.FromDict | src/run_hy8/models/roadway_profile.py:74-82 | an empty mapping gives the default profile (shape 1, paved) |
| Roadways.DictGets | src/run_hy8/models/roadway_profile.py:65-72 | every field of `to_dict`'s output is found under its key |
| Roadways.DictRoundTrip | src/run_hy8/models/roadway_profile.py:65-82 | `from_dict(to_dict(r))` reproduces the profile |
| Roadways.SurfaceNameCoerces | src/run_hy8/models/roadway_profile.py:79 | each surface name coerces back to that surface |
| Barrels.Validate | src/run_hy8/models/culvert_barrel.py:113-123 | a span or rise <= 0, a box without a rise and a barrel count <= 0 each report their message; no error exactly when the barrel is valid; every message behind the prefix |
| Barrels.ManningValues | src/run_hy8/models/culvert_barrel.py:125-128 | equal top and bottom values: 0.024 exactly for corrugated steel, 0.012 otherwise |
| Barrels.OptionalFloat | src/run_hy8/models/culvert_barrel.py:107 | absent or None reads as no value; a present value is its `float` |
| Barrels.OptionalRoundTrip | src/run_hy8/models/culvert_barrel.py:77-110 | an optional value written by `to_dict` reads back unchanged, None included |
| Barrels.KeysAfterFirstRows | src/run_hy8/models/culvert_barrel.py:61-81 | the first five keys `to_dict` writes differ from every later key |
| Barrels.KeysAfterSecondRows | src/run_hy8/models/culvert_barrel.py:61-81 | keys six to ten differ from every later key |
| Barrels.KeysAfterThirdRows | src/run_hy8/models/culvert_barrel.py:61-81 | keys eleven to fifteen differ from every later key |
| Barrels.KeysAfterLastRows | src/run_hy8/models/culvert_barrel.py:61-81 | the last keys differ from each other |
| Barrels.DictKeysDistinct | src/run_hy8/models/culvert_barrel.py:61-81 | the keys `to_dict` writes are pairwise distinct |
| Barrels.DictItems | src/run_hy8/models/culvert_barrel.py:61-81 | one value per key |
| Barrels.NameOf | src/run_hy8/models/culvert_barrel.py:86 | a stored string name is taken as it is |
| Barrels.FromDict | src/run_hy8/models/culvert_barrel.py:83-111 | an empty mapping gives the default unnamed barrel |
| Barrels.StrOf | src/run_hy8/models/culvert_barrel.py:108 | a stored string is taken as it is |
| Barrels.DictGets | src/run_hy8/models/culvert_barrel.py:60-81 | every field of `to_dict`'s output is found under its key |
| Barrels.DictRoundTrip | src/run_hy8/models/culvert_barrel.py:60-111 | `from_dict(to_dict(b))` reproduces the barrel: enum names map back and absent optional values stay absent |
| Roadways.RoadwayProfile.constructor | src/run_hy8/models/roadway_profile.py:19-23 | a new roadway is a paved shape-1 profile of zero width without points |
| Crossings.CulvertErrorsEmpty | src/run_hy8/models/culvert_crossing.py:69-71 | the barrel reports are empty exactly when every barrel is valid |
| Crossings.CulvertReportPrefixed | src/run_hy8/models/culvert_crossing.py:69-71 | a barrel's numbered report carries the crossing prefix |
| Crossings.CulvertErrorsPrefixed | src/run_hy8/models/culvert_crossing.py:69-71 | every barrel error carries the crossing prefix |
| Crossings.CulvertErrorsAppend | src/run_hy8/models/culvert_crossing.py:69-71 | adding a barrel appends its report under "Culvert #n (name): ", n counting from one |
| Crossings.PartErrors | src/run_hy8/models/culvert_crossing.py:59-66 | no error exactly when the flow, the tailwater and the roadway are each valid; every message behind the prefix |
| Crossings.BarrelPartErrors | src/run_hy8/models/culvert_crossing.py:67-71 | no error exactly when there is a barrel and every barrel is valid; no barrel gives exactly the missing-barrel message |
| Crossings.CrestErrors | src/run_hy8/models/culvert_crossing.py:72-79 | no error exactly when the constant tailwater stays below the crest (or there are no elevations); otherwise exactly the crest message with both elevations |
| Crossings.Validate | src/run_hy8/models/culvert_crossing.py:59-80 | no error exactly when the crossing is valid |
| Crossings.ValidatePrefixed | src/run_hy8/models/culvert_crossing.py:59-80 | every message carries the prefix |
| Crossings.ValidateReportsNoBarrels | src/run_hy8/models/culvert_crossing.py:67-68 | a crossing without barrels reports the missing-barrel message |
| Crossings.ValidatePassesFlowErrors | src/run_hy8/models/culvert_crossing.py:59-62 | when only the flow can be wrong, the crossing's errors are the flow's, under "Flow: " |
| Crossings.ValidateReportsCrest | src/run_hy8/models/culvert_crossing.py:72-79 | a tailwater at or above the crest is reported last, with both elevations |
| Crossings.ValidTailwaterBelowCrest | src/run_hy8/models/culvert_crossing.py:59-80 | a valid crossing's tailwater lies below every roadway elevation and not below its invert |
| Crossings.BarrelToAdd | src/run_hy8/models/culvert_crossing.py:82-90 | a barrel and keywords together are refused; a barrel is taken as given; keywords build a barrel named "Barrel n" unless they name it; nothing gives the default barrel "Barrel n" |
| Crossings.AddValidBarrel | src/run_hy8/models/culvert_crossing.py:59-91 | adding a valid barrel to a crossing whose parts are valid gives a valid crossing |
| Crossings.CulvertCrossing.AddBarrel | src/run_hy8/models/culvert_crossing.py:82-93 | the barrel chosen is appended and returned; a refusal changes nothing |
| Crossings.BarrelsOfDropsNonMappings | src/run_hy8/models/culvert_crossing.py:214-218 | one barrel per mapping entry; non-mapping entries are dropped |
| Crossings.BarrelsRoundTrip | src/run_hy8/models/culvert_crossing.py:205-218 | the barrels read back from the list `to_dict` writes are the barrels |
| Crossings.DictKeysDistinct | src/run_hy8/models/culvert_crossing.py:199-207 | the keys `to_dict` writes are pairwise distinct |
| Crossings.DictItems | src/run_hy8/models/culvert_crossing.py:199-207 | one value per key |
| Crossings.TextOf | src/run_hy8/models/culvert_crossing.py:220 | a stored string is taken as it is, and only a string reads |
| Crossings.UuidOf | src/run_hy8/models/culvert_crossing.py:226 | None stays absent and a string is kept |
| Crossings.FromEmptyDict | src/run_hy8/models/culvert_crossing.py:209-228 | an empty mapping gives the default crossing named "Crossing" |
| Crossings.DictGets | src/run_hy8/models/culvert_crossing.py:198-207 | every field of `to_dict`'s output is found under its key |
| Crossings.PartsRoundTrip | src/run_hy8/models/culvert_crossing.py:210-218 | the flow, tailwater, roadway and barrel list each read back from what `to_dict` writes |
| Crossings.DictRoundTrip | src/run_hy8/models/culvert_crossing.py:198-228 | `from_dict(to_dict(c))` reproduces the crossing |
| Projects.CrossingErrorsEmpty | src/run_hy8/models/project.py:56-58 | the crossing reports are empty exactly when every crossing is valid |
| Projects.CrossingReportPrefixed | src/run_hy8/models/project.py:56-58 | a crossing's numbered report carries the project prefix |
| Projects.CrossingErrorsPrefixed | src/run_hy8/models/project.py:56-58 | every crossing error carries the project prefix |
| Projects.Validate | src/run_hy8/models/project.py:52-59 | no error exactly when there is a crossing and every crossing is valid; every message behind the prefix; no crossing gives exactly the missing-crossing message |
| Projects.DefaultCrossingInvalid | src/run_hy8/models/culvert_crossing.py:30-38 | a default crossing never validates |
| Projects.CrossingToAdd | src/run_hy8/models/project.py:61-64 | a given crossing is taken as it is; nothing gives a default crossing named "Crossing n" |
| Projects.AddValidCrossing | src/run_hy8/models/project.py:52-64 | adding a valid crossing to a project of valid crossings gives a valid project |
| Projects.CrossingErrorsAppend | src/run_hy8/models/project.py:56-58 | adding a crossing appends its report under "Crossing #n (name): " |
| Projects.Hy8Project.AddCrossing | src/run_hy8/models/project.py:61-70 | the crossing chosen is appended and returned; nothing else changes |
| Projects.FlowValuesOf | src/run_hy8/models/project.py:72-73 | one flow list per crossing, each its flow's sequence; it succeeds whenever every sequence does |
| Projects.ValidProjectFlowValues | src/run_hy8/models/project.py:52-73 | a valid project's flow lists all exist and each strictly increases |
| Projects.CrossingsOfSkipsNonMappings | src/run_hy8/models/project.py:185-189 | one crossing per mapping entry; non-mapping entries are dropped |
| Projects.CrossingsRoundTrip | src/run_hy8/models/project.py:174-189 | the crossings read back from the list `to_dict` writes are the crossings |
| Projects.DictKeysDistinct | src/run_hy8/models/project.py:168-175 | the keys `to_dict` writes are pairwise distinct |
| Projects.DictItems | src/run_hy8/models/project.py:168-175 | one value per key |
| Projects.FromEmptyDict | src/run_hy8/models/project.py:177-190 | an empty mapping gives the default project (SI units, exit loss 0, no crossing) |
| Projects.DictGets | src/run_hy8/models/project.py:167-175 | every field of `to_dict`'s output is found under its key |
| Projects.DictRoundTrip | src/run_hy8/models/project.py:167-190 | `from_dict(to_dict(p))` reproduces the project |
| Crossings.CulvertCrossing.constructor | src/run_hy8/models/culvert_crossing.py:30-40 | a new crossing has the given name, empty notes, default flow, tailwater and roadway, no barrels and no GUID |
| Projects.Hy8Project.constructor | src/run_hy8/models/project.py:30-35 | a new project has empty title, designer and notes, SI units, exit loss option 0 and no crossings |
| Config.StrOf | src/run_hy8/config.py:39-41 | `str(v)`: a string is itself, and any value the model can render is rendered |
| Config.AsEntries | src/run_hy8/config.py:37-45 | only a mapping has entries (`.get` on anything else fails), and they are its own |
| Config.RequireStr | src/run_hy8/config.py:201-207 | a missing key and a non-string value each give their own error naming key and context; otherwise exactly the stored string |
| Config.RequireEntry | src/run_hy8/config.py:201-203 | a mapping gives its entries; a string is searched for the key as text and a list or tuple as an item, a key not found giving the missing-field error and a key found the indexing error; any other value is not iterable |
| Config.FloatsIn | src/run_hy8/config.py:87 | a list or tuple gives the `float` of each item; a value that cannot be iterated fails |
| Config.ParseUnitSystem | src/run_hy8/config.py:159-166 | a UnitSystem member is returned as it is; any other value is accepted exactly when its stripped upper-case text is some system's flag or name, and the result matches it |
| Config.SurfaceNamed | src/run_hy8/config.py:172 | a name finds the surface carrying it, and every surface is found by its name |
| Config.ShapeNamed | src/run_hy8/config.py:180 | a name finds the shape carrying it, and every shape is found by its name |
| Config.MaterialNamed | src/run_hy8/config.py:188 | a name finds the material carrying it, and every material is found by its name |
| Config.TailwaterTypeNamed | src/run_hy8/config.py:196 | a name finds the tailwater type carrying it, and every type is found by its name |
| Config.ParseSurface | src/run_hy8/config.py:169-174 | the surface whose name is the stripped, upper-cased, dash-to-underscore text; refused exactly when no surface has that name |
| Config.ParseShape | src/run_hy8/config.py:177-182 | the shape whose name is the stripped upper-cased text; refused exactly when none has it |
| Config.ParseMaterial | src/run_hy8/config.py:185-190 | the material whose name is the stripped, upper-cased, space-to-underscore text; refused exactly when none has it |
| Config.ParseTailwaterType | src/run_hy8/config.py:193-198 | the type whose name is the stripped, upper-cased, dash-to-underscore text; refused exactly when none has it |
| Config.MethodWithValue | src/run_hy8/config.py:78 | a text finds the flow method whose value it is, and every method is found by its value |
| Config.ParseFlow | src/run_hy8/config.py:75-94 | an unknown method text is refused; a result's method is the one named; Min/Max/Increment never succeeds (its `increment` read fails); user-defined keeps only a list of values, Min/Design/Max only the three flows |
| Config.PresentKeys | src/run_hy8/config.py:107-112 | exactly the listed keys present in the entry, no more of them than listed |
| Config.ParseTailwater | src/run_hy8/config.py:97-122 | a result comes from a mapping with no channel field and no type or a constant type, and differs from the default only in its two elevations |
| Config.SpacingOf | src/run_hy8/config.py:150-154 | None gives no spacing; any other value gives its `float` |
| Config.ParseCulvert | src/run_hy8/config.py:137-156 | a result comes from a mapping whose required name, in the culvert context, is the barrel's name; an entry that is not a mapping fails as `_require_str`'s `in` test and lookup make it fail |
| Config.ParseAll | src/run_hy8/config.py:49-50 | every item parses, one result per item in order; a failure is the failure of some item |
| Config.ParseAllPrefixFails | src/run_hy8/config.py:49-50 | once a prefix of the list fails, the whole list fails the same way |
| Config.ParseAllSucceeds | src/run_hy8/config.py:49-50 | the whole list parses exactly when each item does |
| Config.UuidOf | src/run_hy8/config.py:59-60 | a uuid is set exactly when the stored value is truthy |
| Config.ParseHeader | src/run_hy8/config.py:37-43 | the units come from the "units" key, defaulting to the English flag |
| Config.RoadwayAssembled | src/run_hy8/config.py:125-134 | when each field reads, the profile is made of exactly those fields |
| Config.LoadRoadway | src/run_hy8/config.py:125-134 | a fresh profile whose value is the one the field-level reading gives, or that reading's error |
| Config.ParseEach | src/run_hy8/config.py:49-50 | the loop gives the same result as parsing the whole list |
| Config.ReadCrossing | src/run_hy8/config.py:55-72 | the value the field-level crossing reading gives, or its error |
| Config.LoadCrossing | src/run_hy8/config.py:55-72 | a fresh crossing whose value is the one the crossing reading gives, or that reading's error |
| Config.ProjectAssembled | src/run_hy8/config.py:36-52 | when the header and every crossing read, the project is made of exactly those |
| Config.LoadProject | src/run_hy8/config.py:36-52 | a fresh project whose value is the one the mapping reading gives, or that reading's error |
| Config.RoadwayParsed | src/run_hy8/config.py:125-134 | a profile that reads came from a mapping with a surface, and its surface, stations and elevations are what those keys read as |
| Config.CrossingParsed | src/run_hy8/config.py:55-72 | a crossing that reads has the required name, the roadway read from its key, and one barrel per listed culvert |
| Config.ProjectParsed | src/run_hy8/config.py:45-50 | crossings that are not a list are refused; otherwise one crossing per entry, each the reading of that entry |
| Config.UnitSystemByText | src/run_hy8/config.py:159-166 | a text is accepted as a unit system exactly when its stripped upper-case form is that system's flag or name |
| Config.NormalizedText | src/run_hy8/config.py:162 | a text without surrounding space normalises to its upper-case form |
| Config.PresentKeysSorted | src/run_hy8/config.py:114 | the present keys come out sorted when the keys are listed sorted |
| Config.ChannelKeysSorted | src/run_hy8/config.py:107-112 | the four channel keys are listed in sorted order |
| Config.TailwaterChannelFieldsRefused | src/run_hy8/config.py:107-117 | any channel field is refused with the sorted, comma-joined list of exactly the present ones |
| Config.TailwaterTypeRefused | src/run_hy8/config.py:98-105 | a type other than constant is refused with its name |
| Config.RoadwaySurfaceMandatory | src/run_hy8/config.py:129-130 | a roadway without a surface makes the crossing fail |
| Config.EmptyConfig | src/run_hy8/config.py:36-52 | an empty configuration gives an untitled English project with exit loss 0 and no crossing |
| Config.IncrementFlowRefused | src/run_hy8/config.py:92-93 | a Min/Max/Increment flow always fails |
| Config.FlowDefaultsToRange | src/run_hy8/config.py:76 | a flow without a method reads as Min/Design/Max |
| Codec.LineCard | src/run_hy8/reader.py:47-54 | a line yields a card exactly when it is not blank |
| Codec.TakeLineCard | src/run_hy8/reader.py:44-54 | with nothing pushed back, a non-blank line at the cursor is the next card and the cursor moves past it |
| Codec.WordsOfLStrip | src/run_hy8/reader.py:89 | leading whitespace does not change the words of a value |
| Codec.LeadingWordUnique | src/run_hy8/reader.py:86-92 | a line starts with at most one whitespace-delimited word |
| Codec.NotHeaderLine | src/run_hy8/reader.py:87 | a card name that is not the header key keeps the line from being taken for the header |
| Codec.SplitCardWords | src/run_hy8/reader.py:86-92 | the key and the value's words are the line's words |
| Codec.WordsOfKeyAndRest | src/run_hy8/reader.py:89-92 | a word followed by whitespace splits into that word and the rest's words |
| Codec.KeyOfLine | src/run_hy8/reader.py:86-92 | a name followed by a space-led rest reads back with that name as its key |
| Codec.NumericCardRead | src/run_hy8/writer.py:190-255 | a numeric card the writer lays out reads back with its name as key and the rendered numbers as the value's words |
| Codec.ConsCancel | src/run_hy8/reader.py:89 | equal lists with equal heads have equal tails |
| Codec.PrefixSplit | src/run_hy8/reader.py:87-88 | a line starting with a name is the name followed by the rest |
| Codec.FirstLineShape | src/run_hy8/writer.py:209-245 | a card with one number is the name, a space, then more text |
| Codec.NumericLineShape | src/run_hy8/writer.py:209-246 | a numeric card is the name followed by whitespace and more text |
| Codec.LastNumberEnds | src/run_hy8/writer.py:228-255 | a numeric card ends with the last number's last character, never with space |
| Codec.KeyOfTail | src/run_hy8/reader.py:50-54 | a name followed by a space-led tail that ends in a non-space reads back as a card keyed by the name |
| Codec.IntCardRead | src/run_hy8/writer.py:204-206 | an integer card reads back, through `_as_int`, as the integer written |
| Codec.UnitsRoundTrip | src/run_hy8/reader.py:134-137 | the UNITS card the writer lays out reads back as the same unit system |
| Codec.ShapeRoundTrip | src/run_hy8/reader.py:224-225 | the CULVERTSHAPE card reads back as the same shape |
| Codec.TextCardRead | src/run_hy8/writer.py:247-254 | a text card whose text has no surrounding space reads back as exactly that name and text |
| Codec.PaddedLineRead | src/run_hy8/reader.py:50-54 | a name, padding and a trimmed text read back as that name and text |
| Codec.LStripUnpadded | src/run_hy8/reader.py:92 | a value that does not start with space is unchanged by stripping |
| Codec.TextLine | src/run_hy8/writer.py:209-254 | a one-text card is the name padded to column 21 followed by the text |
| Codec.QuotedCardRead | src/run_hy8/reader.py:298-303 | a quoted text card reads back, through `_clean_string`, as the stripped text |
| Codec.CulvertNameRoundTrip | src/run_hy8/writer.py:154 | the STARTCULVERT card's quoted name reads back as the stripped name |
| Codec.TitleRoundTrip | src/run_hy8/reader.py:142-143 | a trimmed, unquoted title written to PROJTITLE reads back as the same title |
| Codec.HeaderLineRead | src/run_hy8/reader.py:87-88 | the header line reads back keyed by HY8PROJECTFILE |
| CardFields.StripUnpadded | src/run_hy8/reader.py:299 | a text without surrounding whitespace strips to itself |
| CardFields.CleanString | src/run_hy8/reader.py:297-302 | the cleaned text is empty or has no whitespace at either end |
| CardFields.CleanHead | src/run_hy8/reader.py:299 | a stripped text is empty or has no whitespace at either end |
| CardFields.CleanQuoted | src/run_hy8/reader.py:297-302 | a quoted text cleans to the stripped inner text |
| CardFields.ParsedNumbers | src/run_hy8/reader.py:307-311 | the tokens that parse as floats, never more numbers than tokens |
| CardFields.Take | src/run_hy8/reader.py:312-313 | a prefix of at most n items; all of them when there are no more than n, exactly n otherwise |
| CardFields.FloatsFromAll | src/run_hy8/reader.py:305-314 | with no expected count the loop keeps every token that parses |
| CardFields.FloatsFromBounded | src/run_hy8/reader.py:305-314 | with an expected count the loop keeps the first max(expected, 1) numbers |
| CardFields.FloatsSpec | src/run_hy8/reader.py:305-314 | `_floats` is every parsable word, cut to max(expected, 1) when a count is expected |
| CardFields.AsFloatFirstToken | src/run_hy8/reader.py:324-328 | the first word's float when it parses, the default when there is no word or it does not parse |
| CardFields.DigitsOfNat | src/run_hy8/reader.py:318-319 | the decimal text of a natural number is all digits and denotes it |
| CardFields.ParseIntOfString | src/run_hy8/reader.py:319 | `int(str(k))` is k |
| CardFields.AsIntOfString | src/run_hy8/reader.py:317-321 | `_as_int` of a written integer is that integer, whatever the default |
| CardFields.TailwaterTypeByCode | src/run_hy8/reader.py:333 | the tailwater type carrying a code, exactly |
| CardFields.SurfaceByCode | src/run_hy8/reader.py:341 | the surface carrying a code, exactly |
| CardFields.ShapeByCode | src/run_hy8/reader.py:348 | the shape carrying a code, exactly |
| CardFields.MaterialByCode | src/run_hy8/reader.py:355 | the material carrying a code, exactly |
| CardFields.TailwaterTypeOf | src/run_hy8/reader.py:331-335 | the type carrying the code read (default 0), and constant when none does |
| CardFields.SurfaceOf | src/run_hy8/reader.py:338-343 | the surface carrying the code read (default 1), and paved when none does |
| CardFields.ShapeOf | src/run_hy8/reader.py:346-350 | the shape carrying the code read (default 0), and circle when none does |
| CardFields.MaterialOf | src/run_hy8/reader.py:353-357 | the material carrying the code read (default 1), and concrete when none does |
| CardFields.DecodeWrittenCodes | src/run_hy8/reader.py:331-357 | the code of each tailwater type, surface, shape and material reads back as that member |
| CardFields.Deltas | src/run_hy8/reader.py:363 | one difference per consecutive pair, each the later value minus the earlier |
| CardFields.DetectedIncrement | src/run_hy8/reader.py:360-370 | a detected increment comes from at least three values, is the first difference, is not zero, and every step is within the tolerance of it |
| CardFields.EvenStepsDetected | src/run_hy8/reader.py:360-370 | three or more values in equal non-zero steps are detected with that step |
| CardFields.ShortOrFlatNotDetected | src/run_hy8/reader.py:361-366 | fewer than three values, or a flat first step, give no increment |
| CardFields.StrayStepNotDetected | src/run_hy8/reader.py:367-370 | one step outside the tolerance of the first gives no increment |
| CardStreams.StripHead | src/run_hy8/reader.py:50 | a non-empty stripped line starts with a non-space |
| CardStreams.SplitCard | src/run_hy8/reader.py:86-92 | a header line is keyed HY8PROJECTFILE with the stripped rest; any other line's key is its first word, and the value the rest without leading space |
| CardStreams.TakeCard | src/run_hy8/reader.py:44-55 | the lines never change, and taking a card strictly shrinks what is left to read |
| CardStreams.PushBack | src/run_hy8/reader.py:57-58 | a pushed-back card adds one to what is left to read |
| CardStreams.PushBackThenTake | src/run_hy8/reader.py:44-58 | the last card pushed back is the next taken, in last-in first-out order |
| CardStreams.TakeSkipsBlankLines | src/run_hy8/reader.py:47-54 | blank lines are skipped and the first non-blank line is split into the next card |
| CardStreams.ReadBlockFrom | src/run_hy8/reader.py:60-74 | the lines never change and reading a block never adds to what is left |
| CardStreams.ChompedLines | src/run_hy8/reader.py:73 | one line per raw line of the range, each without its trailing newlines |
| CardStreams.ChompedLinesStep | src/run_hy8/reader.py:73 | the range's first line comes first |
| CardStreams.ReadBlockFromSpec | src/run_hy8/reader.py:63-74 | for any closing-line test, the loop collects the raw lines (without their newline) up to the first closing line, consumes that line and pushes its trailing text back as a card, or collects every remaining line when none closes |
| CardStreams.ReadBlockSpec | src/run_hy8/reader.py:60-74 | the block is the raw lines before the first line whose stripped upper-case form starts with the marker; that line is consumed and its trailing text is pushed back as a card keyed by the marker; with no such line the block is every remaining line |
| CardStreams.SkipUntil | src/run_hy8/reader.py:76-83 | the lines and the buffer never change, and nothing is added to what is left |
| CardStreams.SkipUntilSpec | src/run_hy8/reader.py:76-83 | the cursor moves just past the first target line, or to the end when there is none |
| CardStreams.CardStream.NextCard | src/run_hy8/reader.py:44-55 | the card and the new state are what taking a card from the old state gives |
| CardStreams.CardStream.PushBackCard | src/run_hy8/reader.py:57-58 | the new state is the old one with the card pushed back |
| CardStreams.CardStream.ReadBlockLines | src/run_hy8/reader.py:60-74 | the contents and new state are what reading a block from the old state gives |
| CardStreams.CardStream.SkipUntilLine | src/run_hy8/reader.py:76-83 | the new state is what skipping from the old state gives |
| CardStreams.CardStream.constructor | src/run_hy8/reader.py:39-42 | a new stream starts at the first line with nothing pushed back |
| Reader.ProjectCard | src/run_hy8/reader.py:133-143 | UNITS sets SI exactly when the integer read is SI's project flag; no card of its own line touches the crossings or the notes |
| Reader.WithRange | src/run_hy8/reader.py:159-166 | DISCHARGERANGE sets as many of minimum, design and maximum as there are numbers and leaves the rest and the method alone |
| Reader.WithGeometry | src/run_hy8/reader.py:178-190 | CHANNELGEOMETRY sets bottom width, side slope, channel slope, Manning's n and invert, as many as there are numbers, and nothing else |
| Reader.WithPoint | src/run_hy8/reader.py:203-207 | a roadway point is appended to both stations and elevations when exactly two numbers are read, otherwise the roadway is unchanged |
| Reader.CrossingCard | src/run_hy8/reader.py:157-214 | a crossing card of its own line never changes the name, the barrels or the user flows, and keeps stations and elevations of equal length; a TAILWATERTYPE card sets the tailwater type, the corrected rule of Findings row 1 |
| Reader.TailwaterTypeCardLost | src/run_hy8/reader.py:176-177 | TAILWATERTYPE 1 leaves a constant tailwater constant as written, and makes it rectangular in the corrected parser |
| Reader.WithBarrelData | src/run_hy8/reader.py:228-234 | BARRELDATA sets span, rise and both Manning's n only when four numbers are read, and changes nothing otherwise |
| Reader.WithInvertData | src/run_hy8/reader.py:237-243 | INVERTDATA sets both invert stations and elevations only when four numbers are read, and changes nothing otherwise |
| Reader.CulvertCard | src/run_hy8/reader.py:224-247 | a barrel card of its own line never changes the barrel's name or notes |
| Reader.FinalizeFlowSpec | src/run_hy8/reader.py:260-277 | a min-design-max flow is kept; otherwise evenly spaced values become a min-max-increment flow from the first to the last value, and any other values a user-defined flow whose sequence is exactly those values |
| Reader.EvenUserFlowsBecomeIncrement | src/run_hy8/reader.py:268-274 | three or more user flows in equal non-zero steps come back as a min-max-increment flow, whose sequence the model refuses |
| Reader.NoteLines | src/run_hy8/reader.py:257 | no more lines than given, none of them empty or starting with whitespace |
| Reader.CollectNotesSpec | src/run_hy8/reader.py:251-258 | collecting notes never adds to what is left to read and never changes the lines |
| Reader.FlowValuesFrom | src/run_hy8/reader.py:283-294 | the flow-value loop never adds to what is left to read |
| Reader.ReadFlowValuesSpec | src/run_hy8/reader.py:279-295 | reading flow values never adds to what is left to read |
| Reader.CulvertFrom | src/run_hy8/reader.py:216-249 | the barrel loop never adds to what is left to read |
| Reader.CrossingFrom | src/run_hy8/reader.py:147-214 | the crossing loop never adds to what is left to read; its cards are read with the corrected TAILWATERTYPE rule of Findings row 1 |
| Reader.ProjectCardSpec | src/run_hy8/reader.py:133-145 | a project card never changes the crossings and never adds to what is left to read |
| Reader.ProjectFrom | src/run_hy8/reader.py:108-123 | the project loop never adds to what is left to read; crossings are read with the corrected TAILWATERTYPE rule of Findings row 1 |
| Reader.HeaderSpec | src/run_hy8/reader.py:125-131 | checking the header never adds to what is left to read |
| Reader.Hy8Parser.constructor | src/run_hy8/reader.py:98-101 | a fresh stream at the first line with an empty buffer |
| Reader.Hy8Parser.ConsumeHeader | src/run_hy8/reader.py:125-131 | the error and the new stream state are what checking the header of the old state gives |
| Reader.Hy8Parser.CollectNotes | src/run_hy8/reader.py:251-258 | the notes and the new stream state are those of the notes specification |
| Reader.Hy8Parser.ReadFlowValues | src/run_hy8/reader.py:279-295 | the values and the new stream state are those of the flow-value specification |
| Reader.Hy8Parser.ParseCulvert | src/run_hy8/reader.py:216-249 | the barrel and the new stream state are those of the barrel loop started from a default barrel of that name |
| Reader.Hy8Parser.ParseCrossing | src/run_hy8/reader.py:147-214 | the crossing and the new stream state are those of the crossing loop started from a default crossing (named "Crossing" when the name is empty), under the corrected TAILWATERTYPE rule of Findings row 1 |
| Reader.Hy8Parser.ApplyProjectCard | src/run_hy8/reader.py:133-145 | the project and the new stream state are those of the project-card specification |
| Reader.Hy8Parser.Parse | src/run_hy8/reader.py:108-123 | the result and the new stream state are those of the whole-file specification, which reads crossings with the corrected TAILWATERTYPE rule of Findings row 1 |
| Reader.LoadProject | src/run_hy8/reader.py:24-27 | the project parsed from the file's lines, with the corrected TAILWATERTYPE rule of Findings row 1 |
| ReaderProperties.EmptyFileRejected | src/run_hy8/reader.py:126-129 | a file of blank lines is refused as empty |
| ReaderProperties.HeaderRequired | src/run_hy8/reader.py:130-131 | a first card other than HY8PROJECTFILE is refused, naming the key found |
| ReaderProperties.HeaderAccepted | src/run_hy8/reader.py:108-123 | after the header the project is parsed from the next line on, starting from an empty project |
| ReaderProperties.DrainedTakesNothing | src/run_hy8/reader.py:44-55 | a stream with an empty buffer and only blank lines left yields no card |
| ReaderProperties.ExhaustedStream | src/run_hy8/reader.py:114-115 | at the end of the file the project is complete, while an open crossing or barrel fails with StopIteration |
| ReaderProperties.FlowValuesBounded | src/run_hy8/reader.py:283-294 | the values read extend those already read and never number more than expected |
| ReaderProperties.FlowValuesPushBack | src/run_hy8/reader.py:292-294 | when fewer values than expected are read, the next card is there and is neither a flow value nor a flow name |
| ReaderProperties.ReadFlowValuesBounds | src/run_hy8/reader.py:279-283 | a count of zero or less reads nothing and consumes nothing; otherwise at most the count is read |
| ReaderProperties.FlowValuesOfCards | src/run_hy8/reader.py:283-289 | as many DISCHARGEXYUSER_Y lines as expected are read in order, consuming exactly those lines |
| ReaderProperties.ProjectKeepsCrossings | src/run_hy8/reader.py:118-121 | parsing only appends crossings to those already in the project |
| ReaderProperties.CrossingKeepsCulverts | src/run_hy8/reader.py:208-210 | parsing a crossing keeps its name and only appends barrels |
| ReaderProperties.CulvertKeepsName | src/run_hy8/reader.py:216-223 | parsing a barrel keeps its name |
| CardWriter.FmtNumeric | src/run_hy8/writer.py:204-207 | a numeric value renders as one non-empty word: an int as its decimal text, a float with exactly six decimals |
| CardWriter.NameField | src/run_hy8/writer.py:209-212 | nothing for an unnamed card; otherwise the name, padded with spaces to column 21 when shorter and kept whole when not |
| CardWriter.Align | src/run_hy8/writer.py:236-239 | spaces that pad up to the target column, one space when past it, nothing when exactly there |
| CardWriter.NumericGap | src/run_hy8/writer.py:241-243 | a gap of one to three spaces: three after a value of at most eight characters, one after a value of ten or more |
| CardWriter.Separator | src/run_hy8/writer.py:235-253 | the separator before a value is only spaces |
| CardWriter.Place | src/run_hy8/writer.py:228-246 | `None` is skipped; any other value is appended after its separator, and a numeric one advances the numeric count and records its width |
| CardWriter.NextSeparator | src/run_hy8/writer.py:233-253 | the spacing appended, tracked by a column counter, is the separator of the layout so far |
| CardWriter.WriteCard | src/run_hy8/writer.py:190-255 | the handle gains exactly the card's line |
| CardWriter.RenderedNumbers | src/run_hy8/writer.py:234 | one rendering per value, each the value's formatted text |
| CardWriter.NumericCardWords | src/run_hy8/writer.py:209-246 | a card of numbers whose name is one word not exactly 21 characters long splits back into its name and its rendered numbers |
| CardWriter.RenderedNumbersSnoc | src/run_hy8/writer.py:228-246 | one more number adds its rendering at the end |
| CardWriter.NameFieldWords | src/run_hy8/writer.py:210 | the padded name field is the name as one word |
| CardWriter.FirstNumberWords | src/run_hy8/writer.py:235-239 | a card with one number is its name and the number, as two words |
| CardWriter.NameOfCardColumnGlued | src/run_hy8/writer.py:235-239 | a name exactly 21 characters long is glued to the first number with no space, so the two read back as one word |
| CardWriter.NumeralJoined | src/run_hy8/writer.py:244 | two words without spaces joined make one word |
| CardWriter.FirstNumberColumn | src/run_hy8/writer.py:235-239 | the first number starts at column 21 after a shorter name, and one space after a longer one |
| CardWriter.LayoutGrows | src/run_hy8/writer.py:223-226 | values are only appended: the line after some values begins with the line after fewer |
| CardWriter.CardLineStartsWithName | src/run_hy8/writer.py:209-216 | every card's line begins with its name |
| CardWriter.Then | src/run_hy8/writer.py:63-75 | after a step that raises nothing more is written; otherwise the cards of both steps in order |
| CardWriter.FlowRangeValues | src/run_hy8/writer.py:94-101 | the range written is always the stored minimum, design and maximum |
| CardWriter.FlowValueCardsLayout | src/run_hy8/writer.py:88-92 | one card per value without labels; with labels each value's card is followed by its label's card, empty past the end of the labels |
| CardWriter.FlowCardsSpec | src/run_hy8/writer.py:77-92 | the range card comes first; the method card says 0 exactly for min-design-max; only a min-max-increment flow raises, after the range and method cards |
| CardWriter.TailwaterStages | src/run_hy8/writer.py:134-136 | max(1, rating-curve entries) stages, each the constant elevation |
| CardWriter.ContinuationCards | src/run_hy8/writer.py:131-132 | one unnamed card per further stage, in order |
| CardWriter.TailwaterAttributeMissing | src/run_hy8/writer.py:105 | a default tailwater validates, yet the writer as written stops at its missing `type` attribute |
| CardWriter.TailwaterCardsSpec | src/run_hy8/writer.py:103-132 | a non-constant tailwater raises before any card; a constant one writes its type, geometry, stage count, one TWRATINGCURVE card and the unnamed continuation cards |
| CardWriter.PointCards | src/run_hy8/writer.py:145-150 | one card per point, the first ROADWAYSECDATA and the rest ROADWAYPOINT |
| CardWriter.RoadwayStationCount | src/run_hy8/writer.py:144-150 | the station count matches the point cards exactly when there are no more stations than elevations, always so for a valid profile |
| CardWriter.MaterialCode | src/run_hy8/writer.py:155-159 | a box is written as concrete, any other shape with its own material |
| CardWriter.ManningPair | src/run_hy8/writer.py:162-166 | the stored pair when both are set, otherwise the material's single value twice |
| CardWriter.Spacing | src/run_hy8/writer.py:185 | the stored spacing, or one and a half spans and never negative |
| CardWriter.SteelBoxKeepsSteelRoughness | src/run_hy8/writer.py:157-166 | a corrugated-steel box is written as concrete but keeps steel's roughness 0.024 |
| CardWriter.CulvertsCardsLength | src/run_hy8/writer.py:152-187 | every barrel writes sixteen cards |
| CardWriter.CrossingFlowRaises | src/run_hy8/writer.py:63-67 | a flow that raises ends the crossing after the opening and flow cards |
| CardWriter.CrossingTailwaterRaises | src/run_hy8/writer.py:63-68 | a tailwater that raises ends the crossing after the cards written before it |
| CardWriter.CrossingCardsInOrder | src/run_hy8/writer.py:63-75 | otherwise the crossing is its opening, flow, tailwater and closing cards in order |
| CardWriter.ThenEachNoError | src/run_hy8/writer.py:59-60 | the loop over crossings ends without an error exactly when no crossing raises |
| CardWriter.ThenEachStep | src/run_hy8/writer.py:59-60 | one more pass of the loop is one more step after the others |
| CardWriter.ThenEachStop | src/run_hy8/writer.py:59-60 | once a crossing raises the later ones add nothing |
| CardWriter.ValidCrossingWrites | src/run_hy8/writer.py:63-75 | a crossing the validator accepts is written without an error (the corrected writer of Findings row 2, which reads `tw_type`) |
| CardWriter.ValidCrossingsWrite | src/run_hy8/writer.py:59-60 | the crossings of a valid project are written without an error (the corrected writer of Findings row 2, which reads `tw_type`) |
| CardWriter.RenderConcat | src/run_hy8/writer.py:216 | the lines of two lists of cards are those of each, one after the other |
| CardWriter.Appended | src/run_hy8/writer.py:255 | writing one more card extends the text by its line |
| CardWriter.AppendedAll | src/run_hy8/writer.py:255 | writing further cards extends the text by their lines |
| CardWriter.ProjectTextParts | src/run_hy8/writer.py:46-61 | the project's text is its header line, project cards, crossings' cards and, only when no crossing raised, ENDPROJECTFILE |
| CardWriter.WriteSpecRefuses | src/run_hy8/writer.py:33-39 | an invalid project is refused first, with the validation message; then a file that exists and may not be replaced |
| CardWriter.WriteSpecWrites | src/run_hy8/writer.py:41-44 | past the refusals the file holds the project's text, and the result is the path unless a crossing raised |
| CardWriter.WriteSucceedsExactly | src/run_hy8/writer.py:30-44 | writing succeeds exactly for a valid project whose file is absent or may be replaced (the corrected writer of Findings row 2, which reads `tw_type`) |
| CardWriter.WriteRefusesInvalid | src/run_hy8/writer.py:33-36 | an invalid project opens no file and is refused with a message beginning "HY-8 project validation failed:" |
| CardWriter.WriteSucceedsWithFile | src/run_hy8/writer.py:41-44 | a successful write returns the path and leaves header, project cards, crossings and ENDPROJECTFILE in the file |
| CardWriter.Stem | src/run_hy8/writer.py:32 | the stem is a prefix of the name, non-empty for a non-empty name |
| CardWriter.Hy8SuffixedSpec | src/run_hy8/writer.py:32 | `with_suffix(".hy8")` raises exactly for a path with an empty name; otherwise the directory part is kept and the name becomes its stem followed by `.hy8` |
| CardWriter.StemOfHy8Name | src/run_hy8/writer.py:32 | a non-empty stem followed by `.hy8` has that stem |
| CardWriter.Hy8SuffixedIdempotent | src/run_hy8/writer.py:32 | adding the `.hy8` suffix twice gives the same path as adding it once |
| CardWriter.WriteCards | src/run_hy8/writer.py:51-58 | the handle gains the lines of the cards, in order |
| CardWriter.Hy8FileWriter.constructor | src/run_hy8/writer.py:26-28 | the writer holds the project and the version |
| CardWriter.Hy8FileWriter.Write | src/run_hy8/writer.py:30-44 | a path without a name raises and nothing changes; otherwise the path gets its `.hy8` suffix, and the result and the files on disk are those of the write specification at that path, the file changing only when one is written (the corrected writer of Findings row 2, which reads `tw_type`) |
| CardWriter.Hy8FileWriter.WriteFile | src/run_hy8/writer.py:41-43 | the file is replaced by the project's text, even when a crossing raises part-way, and the error is the project's (the corrected writer of Findings row 2, which reads `tw_type`) |
| CardWriter.Hy8FileWriter.WriteProject | src/run_hy8/writer.py:46-61 | the handle gains the project's text, and the error is the project's (the corrected writer of Findings row 2, which reads `tw_type`) |
| CardWriter.Hy8FileWriter.WriteCrossings | src/run_hy8/writer.py:59-60 | the handle gains the crossings' cards up to the first that raises, and that error (the corrected writer of Findings row 2, which reads `tw_type`) |
| CardWriter.Hy8FileWriter.WriteCrossing | src/run_hy8/writer.py:63-75 | the handle gains the crossing's cards, and its error (the corrected writer of Findings row 2, which reads `tw_type`) |
| CardWriter.Hy8FileWriter.WriteFlow | src/run_hy8/writer.py:77-92 | the handle gains the flow's cards, and its error |
| CardWriter.Hy8FileWriter.WriteFlowValues | src/run_hy8/writer.py:88-92 | the handle gains the cards of the values and their labels |
| CardWriter.Hy8FileWriter.WriteTailwater | src/run_hy8/writer.py:103-132 | the handle gains the tailwater's cards, and its error (the corrected writer of Findings row 2, which reads `tw_type`) |
| CardWriter.Hy8FileWriter.WriteRoadway | src/run_hy8/writer.py:138-150 | the handle gains the roadway's cards |
| CardWriter.Hy8FileWriter.WriteCulverts | src/run_hy8/writer.py:71-72 | the handle gains each barrel's cards in order |
| CardWriter.Hy8FileWriter.WriteCulvert | src/run_hy8/writer.py:152-187 | the handle gains the barrel's sixteen cards |
| CardWriter.Hy8Output.constructor | src/run_hy8/writer.py:42 | a freshly opened output file is empty |
| CardWriter.Disk.constructor | src/run_hy8/writer.py:30-44 | the disk holds exactly the given files |
| Results.SeriesValues | src/run_hy8/results.py:61-73 | one value per field after the first comma, each that field's parsed value |
| Results.SplitOnCount | src/run_hy8/results.py:62 | splitting on a separator gives one part more than there are separators |
| Results.SeriesCount | src/run_hy8/results.py:61-73 | exactly one value per comma in the line |
| Results.SeriesNaN | src/run_hy8/results.py:64-72 | a field is NaN exactly when blank, spelled "nan" or not a number; otherwise it is the number |
| Results.ParseSeries | src/run_hy8/results.py:61-73 | the loop yields the series values of the line |
| Results.NonBlankFields | src/run_hy8/results.py:76-78 | no more fields than parts, none of them empty |
| Results.NonBlankFieldsKept | src/run_hy8/results.py:76-78 | with no blank part every part is kept, stripped and in order; with only blank parts nothing is |
| Results.RunKeeps | src/run_hy8/results.py:29-57 | a property every line step keeps holds after the whole scan |
| Results.RunKeepsOver | src/run_hy8/results.py:164-198 | a property kept by steps over the allowed lines holds after scanning such lines |
| Results.RunAdvances | src/run_hy8/results.py:164-198 | a preorder every step advances along relates the state after some lines to the state after more |
| Results.DialogName | src/run_hy8/results.py:11-17 | a dialog title matches only with a non-empty name |
| Results.SetDefault | src/run_hy8/results.py:37 | the name is present afterwards and no other key is added |
| Results.Store | src/run_hy8/results.py:43-57 | the crossing's entry gains the key with that series, and no other crossing is added |
| Results.SummaryRows | src/run_hy8/results.py:39-45 | summary rows add no crossing other than the current one |
| Results.ValueRows | src/run_hy8/results.py:54-57 | value rows add no crossing other than the captured one |
| Results.RstStep | src/run_hy8/results.py:29-57 | a line step never forgets a crossing and keeps the scanner consistent |
| Results.RstInvariant | src/run_hy8/results.py:24-58 | every state the scanner reaches is consistent, so rows are always stored under a crossing that has an entry |
| Results.SummaryLineStep | src/run_hy8/results.py:33-38 | a summary dialog makes its stripped name current, stops culvert capture, and keeps any entry it already had |
| Results.FlowRowStored | src/run_hy8/results.py:52-57 | a flow row while a table is captured replaces that crossing's flow series and touches nothing else |
| Results.FlowRowValues | src/run_hy8/results.py:54-57 | the flow series stored is the parsed series of the row |
| Results.NoSummaryNoData | src/run_hy8/results.py:39-53 | before any summary dialog nothing is recorded, culvert tables included |
| Results.NoSummaryStep | src/run_hy8/results.py:46-53 | a line that is not a summary dialog leaves the starting state unchanged |
| Results.RstKeysGrow | src/run_hy8/results.py:24-58 | crossings once recorded stay recorded whatever lines follow |
| Results.RstLine | src/run_hy8/results.py:30-57 | one pass of the loop is the line step |
| Results.ParseRst | src/run_hy8/results.py:24-58 | the data is that of the scan over all lines |
| Results.ProfileField | src/run_hy8/results.py:185-198 | Overtops is true exactly for "true" in any case; FlowProfileFlow sets the flow only |
| Results.ProfileStoredOnlyAtEnd | src/run_hy8/results.py:174-179 | a profile is stored only by EndFlowProfile with both a crossing and an open profile, appended to that crossing's list, and the profile is closed |
| Results.NewProfileDiscards | src/run_hy8/results.py:171-173 | FlowProfileName opens a fresh profile and drops an unfinished one |
| Results.ProfilesStepAppends | src/run_hy8/results.py:176-178 | a step only appends to the profile lists |
| Results.ProfilesOnlyAppended | src/run_hy8/results.py:157-199 | the profile lists only grow at their ends whatever lines follow |
| Results.NoEndNoProfiles | src/run_hy8/results.py:176-178 | a file without EndFlowProfile lines yields no profiles |
| Results.RsqlLine | src/run_hy8/results.py:165-198 | one pass of the loop is the line step |
| Results.OpenProfileLine | src/run_hy8/results.py:176-198 | with a crossing and a profile open, the line closes the profile or sets one field |
| Results.ParseRsql | src/run_hy8/results.py:157-199 | nothing for a missing file, otherwise the profiles of the scan over all lines |
| Results.NearestIndex | src/run_hy8/results.py:202-212 | none exactly when the target is NaN or every flow is; otherwise the first flow nearest the target |
| Results.NearestSkips | src/run_hy8/results.py:206-207 | a NaN flow at the end changes nothing |
| Results.NearestFirst | src/run_hy8/results.py:208-211 | the first non-NaN flow is the nearest so far |
| Results.NearestReplaces | src/run_hy8/results.py:209-211 | a strictly nearer flow becomes the nearest |
| Results.NearestKeeps | src/run_hy8/results.py:209 | a flow not strictly nearer leaves the nearest where it was |
| Results.FirstNearestUnique | src/run_hy8/results.py:202-212 | the first nearest flow is unique |
| Results.NearestStep | src/run_hy8/results.py:205-211 | one pass of the loop on the prefix scanned so far |
| Results.NearestProfile | src/run_hy8/results.py:202-212 | the profile at the first nearest non-NaN flow, if any |
| Results.ProfileFlows | src/run_hy8/results.py:206 | the flows of the profiles, in order |
| Results.MergedRowsSpec | src/run_hy8/results.py:109-134 | one row per flow in order; a missing parallel value is NaN or ""; overtopping named in the iterations text wins over the profile |
| Results.NaNFlowHasNoProfile | src/run_hy8/results.py:121-130 | a NaN flow finds no profile: its depth is NaN and its flow type empty |
| Results.RowFlows | src/run_hy8/results.py:139-140 | the rows' flows, in order |
| Results.Discharges | src/run_hy8/results.py:149-153 | the rows' roadway discharges, in order |
| Results.MaxValue | src/run_hy8/results.py:149-154 | none exactly when every value is NaN; otherwise the largest non-NaN value, attained |
| Results.Hy8Results.constructor | src/run_hy8/results.py:104-134 | the rows are the merged rows of the entry and the profiles |
| Results.Hy8Results.Nearest | src/run_hy8/results.py:136-146 | none exactly when the target or every flow is NaN; otherwise the row at the first nearest flow |
| Results.Hy8Results.RoadwayMax | src/run_hy8/results.py:148-154 | at least every non-NaN roadway discharge, attained by one of them, and 0.0 when there is none |
| Hydraulics.SelectedRow | src/run_hy8/hydraulics.py:265-279 | an error exactly when every row's flow is NaN; otherwise the row at the first non-NaN flow nearest the requested flow |
| Hydraulics.SelectRowByFlow | src/run_hy8/hydraulics.py:265-279 | the loop picks the selected row |
| Hydraulics.CharacteristicDiameter | src/run_hy8/hydraulics.py:292-311 | the first barrel's span (circle) or rise (box) exactly when there is a barrel, that size is positive and every barrel has the first one's shape; otherwise the first failing check's error, in that order |
| Hydraulics.BarrelSum | src/run_hy8/hydraulics.py:285-288 | at least one per barrel block, exactly one per block when no block counts more than one |
| Hydraulics.BarrelCountBounds | src/run_hy8/hydraulics.py:282-289 | the barrel count is at least one and at least the number of blocks |
| Hydraulics.TotalBarrels | src/run_hy8/hydraulics.py:282-289 | the loop's total is the barrel count |
| Hydraulics.FullBoreFlow | src/run_hy8/hydraulics.py:319-320 | the full-bore estimate is positive for a positive diameter and at least one barrel |
| Hydraulics.PositiveTimes | src/run_hy8/hydraulics.py:319 | a product of positive numbers is positive |
| Hydraulics.SimpleFlowEstimate | src/run_hy8/hydraulics.py:314-320 | the diameter's error passes through; otherwise the full-bore flow of the diameter and the barrel count |
| Hydraulics.HwdTarget | src/run_hy8/hydraulics.py:513-517 | a negative ratio is refused first, then the diameter's error; a target is NaN exactly when the ratio is |
| Hydraulics.HwdTargetRatio | src/run_hy8/hydraulics.py:515-517 | the target lies exactly `ratio` diameters above the first barrel's inlet invert |
| Hydraulics.CloneProjectWithCrossing | src/run_hy8/hydraulics.py:211-238 | the copy of the crossing, alone in a new project |
| Hydraulics.ScenarioRunsOneFlow | src/run_hy8/hydraulics.py:211-238 | each run sees one crossing, the caller's with only its flow replaced by the single flow asked for; the header is the caller's project's, or else the crossing's name and the units given (SI by default) |
| Hydraulics.RunAt | src/run_hy8/hydraulics.py:241-262 | the run's result is HY-8's row selected for the flow, with a non-NaN flow |
| Hydraulics.HwFromQ | src/run_hy8/hydraulics.py:323-367 | one run at `q`: fails exactly when it fails, otherwise reports the selected row's flow and headwater for the requested flow |
| Hydraulics.KeySetStep | src/run_hy8/hydraulics.py:111-116 | one more value adds its rounded key |
| Hydraulics.KeySetAppend | src/run_hy8/hydraulics.py:115 | appending a value adds its rounded key |
| Hydraulics.DedupKeys | src/run_hy8/hydraulics.py:109-117 | de-duplication keeps every rounded key and adds none |
| Hydraulics.InKeySet | src/run_hy8/hydraulics.py:112-115 | every value's rounded key is among the keys |
| Hydraulics.KeyBefore | src/run_hy8/hydraulics.py:113 | a key is already seen exactly when an earlier value has it |
| Hydraulics.FirstWithKeyPrefix | src/run_hy8/hydraulics.py:111-116 | being the first with its key does not depend on later values |
| Hydraulics.FirstOccurrencesPrefix | src/run_hy8/hydraulics.py:111-116 | the first occurrences among a prefix do not depend on later values |
| Hydraulics.DedupIsFirstOccurrences | src/run_hy8/hydraulics.py:109-117 | the scan with a set of seen keys keeps exactly the first value of each key, in order |
| Hydraulics.DedupFrom | src/run_hy8/hydraulics.py:116 | every kept value comes from the list |
| Hydraulics.DedupDistinct | src/run_hy8/hydraulics.py:113-115 | no two kept values share a rounded key |
| Hydraulics.DedupFirst | src/run_hy8/hydraulics.py:111-116 | the first value is always kept first |
| Hydraulics.SeedsProperties | src/run_hy8/hydraulics.py:94-117 | one to five seeds, zero first, none negative, no two with the same rounded key, and every key of the base list represented |
| Hydraulics.FirstOccurrencesLength | src/run_hy8/hydraulics.py:111-116 | no more first occurrences than values |
| Hydraulics.ExactIndex | src/run_hy8/hydraulics.py:132-137 | none exactly when no sample matches; otherwise the first matching sample |
| Hydraulics.ExactOfSpec | src/run_hy8/hydraulics.py:129-137 | the exact match is the first recorded sample within the tolerance, and none only when no sample is |
| Hydraulics.SideOf | src/run_hy8/hydraulics.py:142-151 | the non-NaN samples at or below (at or above) the target, and only those |
| Hydraulics.MaxFlowUpTo | src/run_hy8/hydraulics.py:154 | the first sample of largest flow |
| Hydraulics.MinFlowUpTo | src/run_hy8/hydraulics.py:155 | the first sample of smallest flow |
| Hydraulics.HighestLow | src/run_hy8/hydraulics.py:154 | a recorded sample at or below the target |
| Hydraulics.LowestHigh | src/run_hy8/hydraulics.py:155 | a recorded sample at or above the target |
| Hydraulics.ExtremesSpec | src/run_hy8/hydraulics.py:154-155 | the low end has the largest flow of the low samples and the high end the smallest of the high ones |
| Hydraulics.BracketStraddles | src/run_hy8/hydraulics.py:139-158 | a bracket is two recorded samples whose headwaters straddle the target |
| Hydraulics.BracketAbsent | src/run_hy8/hydraulics.py:152-157 | no bracket exactly when a side is empty, or both ends share a flow and the low end misses the tolerance |
| Hydraulics.NextGuessSpec | src/run_hy8/hydraulics.py:160-175 | a guess only below the run budget: between the two extremes with both sides, above every low flow with lows only, below every positive high flow with highs only |
| Hydraulics.MulNonNegative | src/run_hy8/hydraulics.py:445 | a product of non-negative numbers is non-negative |
| Hydraulics.ScaledBetween | src/run_hy8/hydraulics.py:445 | a point a fraction of the way from one value to another lies between them |
| Hydraulics.DivCancel | src/run_hy8/hydraulics.py:445 | multiplying and dividing by the same non-zero number cancel |
| Hydraulics.InterpolateBetween | src/run_hy8/hydraulics.py:441-445 | for a target between the headwaters the guess lies between the flows, and the line through the ends reaches the target at the guess |
| Hydraulics.FlowSearch.constructor | src/run_hy8/hydraulics.py:84-92 | the search holds its settings and no sample |
| Hydraulics.FlowSearch.InitialCandidates | src/run_hy8/hydraulics.py:94-117 | the loop yields the seeds |
| Hydraulics.FlowSearch.Record | src/run_hy8/hydraulics.py:119-124 | the sample is appended to the recorded ones and returned |
| Hydraulics.FlowSearch.ExactMatch | src/run_hy8/hydraulics.py:129-137 | the loop yields the exact match of the samples |
| Hydraulics.FlowSearch.Bracket | src/run_hy8/hydraulics.py:139-158 | the loop yields the bracket of the samples |
| Hydraulics.EvaluateSeeds | src/run_hy8/hydraulics.py:397-420 | one sample per seed run at most, none negative, each holding the row a run at its flow gives; a result is a recorded sample within the tolerance; a failure is the failing run's error |
| Hydraulics.FinishInBracket | src/run_hy8/hydraulics.py:433-459 | an end within the tolerance, or else the row of one run at the guess on the line through the two ends (their midpoint when their headwaters are equal); a failure is that run's error |
| Hydraulics.FoundIsRunRow | src/run_hy8/hydraulics.py:414-459 | a result's row is what a run gives at a known flow: the settled sample's own flow, within the tolerance, or the interpolated guess, whose row then reports the result's flow |
| Hydraulics.Refine | src/run_hy8/hydraulics.py:421-479 | never more samples than the run budget, each holding the row a run at its flow gives; a result is a recorded sample within the tolerance or the run at the interpolated guess inside a bracket; a failure is a run's error or the search giving up |
| Hydraulics.QFromHw | src/run_hy8/hydraulics.py:370-497 | a NaN target is refused, then the diameter's error; at most twelve runs, each recorded sample being the row a run at its flow gives; a result reports the requested headwater and comes from a recorded run within the tolerance or from the run at the interpolated guess inside a bracket |
| Hydraulics.QForHwd | src/run_hy8/hydraulics.py:500-536 | the ratio's and the diameter's errors first, a NaN target is refused, and a result reports the target headwater as the one requested |
| Hydraulics.NameCounts.constructor | src/run_hy8/hydraulics.py:561 | no name counted yet |
| Hydraulics.NameCounts.UniqueKey | src/run_hy8/hydraulics.py:539-545 | a first use counts the name once and keys it by itself; a later use raises the count and appends it as a duplicate number |
| Hydraulics.CountStep | src/run_hy8/hydraulics.py:574 | one more name adds one occurrence of it |
| Hydraulics.CrossingKeys | src/run_hy8/hydraulics.py:548-646 | one key per crossing, each keyed by how many times its name has occurred so far |
| Hydraulics.KeyAtUses | src/run_hy8/hydraulics.py:539-545 | the first use of a name keys it by the name, a later one by its occurrence count |
| Hydraulics.DuplicateKeysCollide | src/run_hy8/hydraulics.py:539-545 | a crossing named like a later duplicate's key collides with it |
| LegacyModels.SequenceAgainstPackage | src/run_hy8/models.py:230-236 | the legacy sequence matches the package's except for a Min/Design/Max definition holding user values other than its range fields, where the user values win |
| LegacyModels.ValidateRange | src/run_hy8/models.py:295-304 | every message carries the prefix; no message exactly when the Min/Design/Max values are three, strictly increasing, the first not negative; a wrong count of user values is the only message then |
| LegacyModels.ValidateUser | src/run_hy8/models.py:305-310 | every message carries the prefix; no message exactly when there are two or more strictly increasing values and labels absent or one per value |
| LegacyModels.ValidateFlow | src/run_hy8/models.py:293-314 | every message carries the prefix; no message exactly when the flow is valid; min-max-increment is reported unsupported |
| LegacyModels.ValidFlowSequence | src/run_hy8/models.py:293-321 | an accepted definition has a strictly increasing sequence of two or more flows; a Min/Design/Max one exactly three, the first not negative |
| LegacyModels.UserFlowsAgainstPackage | src/run_hy8/models.py:306-307 | a user-defined definition is accepted here exactly when the package accepts it and it has a second value; a single value is accepted only by the package |
| LegacyModels.RangeJudgedByUserValues | src/run_hy8/models.py:316-321 | with three user values a Min/Design/Max definition is judged by those alone, the package's by its range fields |
| LegacyModels.UserFlowMakesValid | src/run_hy8/models.py:238-250 | appending a flow above the last to increasing user values with aligned or absent labels gives a definition the validator accepts |
| LegacyModels.ValidateBarrel | src/run_hy8/models.py:517-525 | a non-positive span, a box without a rise and a count below one are each reported, and nothing else |
| LegacyModels.BarrelsAgainstPackage | src/run_hy8/models.py:517-525 | every barrel the package accepts is accepted here; the only extra ones are non-box shapes whose rise is not positive |
| LegacyModels.BarrelErrors | src/run_hy8/models.py:621-625 | nothing exactly when there is a barrel and all are valid; no barrel is told so; every message carries the prefix |
| LegacyModels.PartErrors | src/run_hy8/models.py:614-620 | nothing exactly when flow, tailwater and roadway are valid; every message carries the prefix |
| LegacyModels.ValidateCrossing | src/run_hy8/models.py:613-634 | no message exactly when the crossing is valid |
| LegacyModels.ValidateCrossingReports | src/run_hy8/models.py:627-633 | every message carries the prefix, and a tailwater at or above the crest is reported last |
| LegacyModels.ValidateReportsNoBarrels | src/run_hy8/models.py:621-622 | a crossing without barrels is told so |
| LegacyModels.CrossingsAgainstPackage | src/run_hy8/models.py:613-634 | on crossings whose flows need no extra user values and whose barrels have a rise, the two copies accept the same crossings |
| LegacyModels.CrossingErrorsEmpty | src/run_hy8/models.py:804-806 | the crossings report nothing exactly when each is valid |
| LegacyModels.CrossingReportPrefixed | src/run_hy8/models.py:805-806 | each crossing's report carries the project's prefix |
| LegacyModels.CrossingErrorsPrefixed | src/run_hy8/models.py:804-806 | every message of the crossings carries the prefix |
| LegacyModels.ValidateProject | src/run_hy8/models.py:800-807 | no message exactly when the project is valid; every message carries the prefix; an empty project is told so |
| LegacyModels.AssertValid | src/run_hy8/models.py:25-39 | raises exactly when there are errors, carrying them; a single error is the message |
| LegacyModels.AssertValidAgainstPackage | src/run_hy8/models.py:34-39 | a legacy project passes exactly when it validates, where the package's check raises even with nothing to report |
| Runner.PyIndex | tests/hy8runner/hy8_runner.py:89-91 | a Python list index is accepted exactly when it lies in [-n, n), and then names element i or n + i |
| Runner.Target | tests/hy8runner/hy8_runner.py:138-140 | a missing or too-large index falls back to the last crossing; the only indices that fail are those below -n (or any index into an empty list) |
| Runner.AddCrossingKeeps | tests/hy8runner/hy8_runner.py:75-82 | adding a crossing keeps the list non-empty, grows it by one and leaves the earlier crossings as they were, with the new one numbered after them |
| Runner.DeleteCrossingKeeps | tests/hy8runner/hy8_runner.py:84-93 | deleting fails only for an index below -n; otherwise one crossing goes, the rest keep their order, and an emptied list gets a fresh crossing so it is never empty |
| Runner.AddBarrelKeeps | tests/hy8runner/hy8_runner.py:95-111 | adding a barrel appends one barrel to the chosen crossing only, returns -1 for an index past the end, and fails only for an index below -n |
| Runner.DeleteBarrelKeeps | tests/hy8runner/hy8_runner.py:113-129 | deleting a barrel keeps the crossing count and every crossing's barrel list non-empty, is a no-op for a crossing index past the end and fails for one below -n |
| Runner.EditedKeeps | tests/hy8runner/hy8_runner.py:131-140 | a crossing setter changes only the crossing its index resolves to and keeps the list's length and the other crossings |
| Runner.EditedBarrelKeeps | tests/hy8runner/hy8_runner.py:366-383 | a barrel setter changes only the barrel both indices resolve to and keeps every other barrel and crossing |
| Runner.WithHy8Extension | tests/hy8runner/hy8_runner.py:65-73 | the file name ends in `.hy8` in any case; a name already ending so is kept, any other gets `.hy8` appended |
| Runner.Hy8ExtensionIdempotent | tests/hy8runner/hy8_runner.py:65-73 | setting the file name twice gives the same name as setting it once |
| Runner.WithMinDesignMax | tests/hy8runner/hy8_runner.py:142-163 | the flow becomes a min-design-max flow that passes validation exactly when 0 <= min < design < max and whose list is [min, design, max]; the barrels are untouched |
| Runner.WithUserList | tests/hy8runner/hy8_runner.py:165-176 | the flow becomes a user-defined flow whose computed list is the given list |
| Runner.WithMinMaxIncrement | tests/hy8runner/hy8_runner.py:178-200 | the flow becomes a min-max-increment flow with the given min, max and increment, design kept, and its list is `compute_list`'s: empty exactly for min > max, otherwise strictly increasing from min and never above max |
| Runner.WithTwRectangular | tests/hy8runner/hy8_runner.py:202-223 | tailwater type 1 whose check passes exactly when bottom width, slope, Manning's n and invert are all positive |
| Runner.WithTwTrapezoidal | tests/hy8runner/hy8_runner.py:225-248 | tailwater type 2, which the runner's validation never rejects |
| Runner.WithTwTriangular | tests/hy8runner/hy8_runner.py:250-271 | tailwater type 3, which the runner's validation never rejects |
| Runner.WithTwConstant | tests/hy8runner/hy8_runner.py:273-290 | tailwater type 6 whose check passes exactly when the constant elevation is not below the invert |
| Runner.WithTwRatingCurve | tests/hy8runner/hy8_runner.py:292-308 | tailwater type 5 whose check passes exactly when the rating curve is non-empty |
| Runner.WithRoadwayWidth | tests/hy8runner/hy8_runner.py:310-319 | the roadway passes its check exactly when the new width is positive and the stations and elevations are paired and at least two |
| Runner.WithRoadwaySurface | tests/hy8runner/hy8_runner.py:321-330 | the surface name does not change whether the roadway passes its check |
| Runner.WithStationsAndElevations | tests/hy8runner/hy8_runner.py:332-349 | an irregular roadway (shape 2) that passes its check exactly when the width is positive and the two lists are paired and at least two long |
| Runner.WithConstantRoadway | tests/hy8runner/hy8_runner.py:351-364 | a constant roadway (shape 1) from station 0 to the length at one elevation, two points each |
| Runner.WithShape | tests/hy8runner/hy8_runner.py:385-402 | a barrel given a shape other than box passes its check exactly when span and barrel count are positive |
| Runner.WithSpanAndRise | tests/hy8runner/hy8_runner.py:404-425 | the span is always set, the rise only when one is given, and nothing else of the barrel changes |
| Runner.WithNumberOfBarrels | tests/hy8runner/hy8_runner.py:474-491 | a barrel passes its check only with a positive barrel count |
| Runner.ProblemsMeanRejection | tests/hy8runner/hy8_runner.py:503-554 | a crossing yields no message exactly when its flow, tailwater and roadway pass, it has a barrel, and every barrel passes; each message names the crossing |
| Runner.CrossingTextEmpty | tests/hy8runner/hy8_runner.py:503-554 | the messages for a crossing are empty exactly when the crossing is accepted |
| Runner.CrossingsTextEmpty | tests/hy8runner/hy8_runner.py:503-554 | the messages for all crossings are empty exactly when every crossing is accepted |
| Runner.NewCrossingRejected | tests/hy8runner/hy8_runner_crossing.py:19-43 | a freshly made crossing fails validation: its zero flows, zero tailwater geometry, zero roadway width and zero barrel span are all reported |
| Runner.CheckBarrel | tests/hy8runner/hy8_runner.py:544-554 | the barrel's messages are those of its non-positive span, non-positive box rise and non-positive count, and it passes exactly when there are none |
| Runner.CheckChannel | tests/hy8runner/hy8_runner.py:509-521 | a rectangular tailwater reports each non-positive width, slope, Manning's n and invert, and passes exactly when none is reported |
| Runner.CheckTailwater | tests/hy8runner/hy8_runner.py:509-531 | the tailwater checks by type (1 channel, 5 rating curve, 6 constant above invert, others nothing), passing exactly when nothing is reported |
| Runner.CheckRoadway | tests/hy8runner/hy8_runner.py:532-543 | the roadway checks for width, at least two stations and paired lists, and the culvert check for at least one barrel, passing exactly when nothing is reported |
| Runner.ValidateCrossing | tests/hy8runner/hy8_runner.py:503-554 | one crossing's result is true exactly when it is accepted, exactly when its messages are empty |
| Runner.ValidateCrossings | tests/hy8runner/hy8_runner.py:503-554 | the loop's result is true exactly when every crossing is accepted, and the messages are all crossings' messages in order |
| Runner.JoinPath | tests/hy8runner/hy8_runner.py:556 | the executable's path ends in its base name |
| Runner.CheckFile | tests/hy8runner/hy8_runner.py:561-576 | the output file is fine exactly when it is named and either absent or writable with overwrite on; locked only when overwriting a locked file; an existing file without overwrite is refused |
| Runner.PassesIffSilent | tests/hy8runner/hy8_runner.py:493-578 | validation passes exactly when it produces no message, unless the file is locked |
| Runner.NewRunnerRejected | tests/hy8runner/hy8_runner.py:39-55 | a runner as constructed never passes validation |
| Runner.FinishValidation | tests/hy8runner/hy8_runner.py:556-578 | the executable and file checks append their messages, and a locked file ends validation at once with false |
| Runner.RunnerClass.constructor | tests/hy8runner/hy8_runner.py:29-37 | the class-level executable path starts empty and the name counter at zero |
| Runner.Hy8Runner.constructor | tests/hy8runner/hy8_runner.py:39-55 | one fresh crossing, the given file name, empty title, designer and notes; the shared counter goes up by one and a non-empty executable path replaces the class-level one |
| Runner.Hy8Runner.SetHy8ExePath | tests/hy8runner/hy8_runner.py:57-63 | the runner's own executable path is set and nothing else changes |
| Runner.Hy8Runner.SetHy8File | tests/hy8runner/hy8_runner.py:65-73 | the file name gets its `.hy8` extension and nothing else changes |
| Runner.Hy8Runner.AddCrossing | tests/hy8runner/hy8_runner.py:75-82 | the list gains one fresh crossing at the end and the returned index is the new last index |
| Runner.Hy8Runner.DeleteCrossing | tests/hy8runner/hy8_runner.py:84-93 | the resolved crossing is removed (an empty list refilled), raising only for an index below -n |
| Runner.Hy8Runner.AddCulvertBarrel | tests/hy8runner/hy8_runner.py:95-111 | the chosen crossing gains one barrel and its index is returned; -1 for an index past the end |
| Runner.Hy8Runner.DeleteCulvertBarrel | tests/hy8runner/hy8_runner.py:113-129 | the resolved barrel is removed (an empty crossing refilled), an index past an end changes nothing |
| Runner.Hy8Runner.Edit | tests/hy8runner/hy8_runner.py:131-140 | the shared shape of the crossing setters: the resolved crossing is replaced by its edited copy; it raises, changing nothing, exactly when the index is below minus the number of crossings |
| Runner.Hy8Runner.EditBarrel | tests/hy8runner/hy8_runner.py:366-383 | the shared shape of the barrel setters: the resolved barrel is replaced by its edited copy; it raises, changing nothing, exactly when the crossing index, or the barrel index within the crossing it picks, is below minus that list's length |
| Runner.Hy8Runner.SetCulvertCrossingName | tests/hy8runner/hy8_runner.py:131-140 | only the resolved crossing's name changes; it raises, changing nothing, exactly when the index is below minus the number of crossings |
| Runner.Hy8Runner.SetDischargeMinDesignMaxFlow | tests/hy8runner/hy8_runner.py:142-163 | the resolved crossing's flow becomes min-design-max with the three values; it raises, changing nothing, exactly when the index is below minus the number of crossings |
| Runner.Hy8Runner.SetDischargeUserListFlow | tests/hy8runner/hy8_runner.py:165-176 | the resolved crossing's flow becomes the user list; it raises, changing nothing, exactly when the index is below minus the number of crossings |
| Runner.Hy8Runner.SetDischargeMinMaxIncFlow | tests/hy8runner/hy8_runner.py:178-200 | the resolved crossing's flow becomes min-max-increment with its list computed; it raises, changing nothing, exactly when the index is below minus the number of crossings |
| Runner.Hy8Runner.SetTwRectangular | tests/hy8runner/hy8_runner.py:202-223 | the resolved crossing's tailwater becomes the rectangular channel; it raises, changing nothing, exactly when the index is below minus the number of crossings |
| Runner.Hy8Runner.SetTwTrapezoidal | tests/hy8runner/hy8_runner.py:225-248 | the resolved crossing's tailwater becomes the trapezoidal channel; it raises, changing nothing, exactly when the index is below minus the number of crossings |
| Runner.Hy8Runner.SetTwTriangular | tests/hy8runner/hy8_runner.py:250-271 | the resolved crossing's tailwater becomes the triangular channel; it raises, changing nothing, exactly when the index is below minus the number of crossings |
| Runner.Hy8Runner.SetTwConstant | tests/hy8runner/hy8_runner.py:273-290 | the resolved crossing's tailwater becomes the constant elevation; it raises, changing nothing, exactly when the index is below minus the number of crossings |
| Runner.Hy8Runner.SetTwRatingCurve | tests/hy8runner/hy8_runner.py:292-308 | the resolved crossing's tailwater becomes the rating curve; it raises, changing nothing, exactly when the index is below minus the number of crossings |
| Runner.Hy8Runner.SetRoadwayWidth | tests/hy8runner/hy8_runner.py:310-319 | only the resolved crossing's roadway width changes; it raises, changing nothing, exactly when the index is below minus the number of crossings |
| Runner.Hy8Runner.SetRoadwaySurface | tests/hy8runner/hy8_runner.py:321-330 | only the resolved crossing's roadway surface changes; it raises, changing nothing, exactly when the index is below minus the number of crossings |
| Runner.Hy8Runner.SetRoadwayStationsAndElevations | tests/hy8runner/hy8_runner.py:332-349 | the resolved crossing's roadway becomes the irregular profile; it raises, changing nothing, exactly when the index is below minus the number of crossings |
| Runner.Hy8Runner.SetConstantRoadway | tests/hy8runner/hy8_runner.py:351-364 | the resolved crossing's roadway becomes the constant profile; it raises, changing nothing, exactly when the index is below minus the number of crossings |
| Runner.Hy8Runner.SetCulvertBarrelName | tests/hy8runner/hy8_runner.py:366-383 | only the resolved barrel's name changes; it raises, changing nothing, exactly when the crossing index, or the barrel index within the crossing it picks, is below minus that list's length |
| Runner.Hy8Runner.SetCulvertBarrelShape | tests/hy8runner/hy8_runner.py:385-402 | only the resolved barrel's shape changes; it raises, changing nothing, exactly when the crossing index, or the barrel index within the crossing it picks, is below minus that list's length |
| Runner.Hy8Runner.SetCulvertBarrelSpanAndRise | tests/hy8runner/hy8_runner.py:404-425 | the resolved barrel's span, and its rise when given, change; it raises, changing nothing, exactly when the crossing index, or the barrel index within the crossing it picks, is below minus that list's length |
| Runner.Hy8Runner.SetCulvertBarrelMaterial | tests/hy8runner/hy8_runner.py:427-444 | only the resolved barrel's material changes; it raises, changing nothing, exactly when the crossing index, or the barrel index within the crossing it picks, is below minus that list's length |
| Runner.Hy8Runner.SetCulvertBarrelSiteData | tests/hy8runner/hy8_runner.py:446-472 | only the resolved barrel's inlet and outlet stations and elevations change; it raises, changing nothing, exactly when the crossing index, or the barrel index within the crossing it picks, is below minus that list's length |
| Runner.Hy8Runner.SetCulvertBarrelNumberOfBarrels | tests/hy8runner/hy8_runner.py:474-491 | only the resolved barrel's count changes; it raises, changing nothing, exactly when the crossing index, or the barrel index within the crossing it picks, is below minus that list's length |
| Runner.Hy8Runner.ValidateCrossingsData | tests/hy8runner/hy8_runner.py:493-578 | the messages are every crossing's, the executable's and the file's findings in order, and the result is true exactly when validation passes |
| RunnerCrossings.SurfaceIndex | tests/hy8runner/hy8_runner_crossing.py:116-120 | the SURFACE code is 2 exactly for gravel, 3 exactly for user-defined and 1 for every other surface name |
| RunnerCrossings.DischargeMethodCode | tests/hy8runner/hy8_runner_crossing.py:74-76 | DISCHARGEMETHOD is 0 exactly for a min-design-max flow and 1 otherwise |
| RunnerCrossings.NewCrossingCodes | tests/hy8runner/hy8_runner_crossing.py:19-43 | a fresh crossing writes method 0, tailwater type 1, a paved surface, one circular barrel and no GUID |
| RunnerCrossings.RowsWrites | tests/hy8runner/hy8_runner_crossing.py:109-112 | each rating-curve row writes three lines |
| RunnerCrossings.RowsWritesFlow | tests/hy8runner/hy8_runner_crossing.py:110 | the first line of row i is its FLOW line, carrying the row's first value |
| RunnerCrossings.PointWrites | tests/hy8runner/hy8_runner_crossing.py:126-129 | one line per zipped station and elevation, the first a ROADWAYSECDATA line and the rest ROADWAYPOINT lines |
| RunnerCrossings.CulvertsWritesLayout | tests/hy8runner/hy8_runner_crossing.py:132-135 | the culvert section is eleven lines per barrel, barrel i's lines lying between those of the barrels before and after it |
| RunnerCrossings.WrittenCulverts | tests/hy8runner/hy8_runner_crossing.py:134-135 | writing the culverts keeps their number |
| RunnerCrossings.WrittenCulvertsStamps | tests/hy8runner/hy8_runner_crossing.py:134-135 | every barrel comes out of the write with its roadway station and spacing stamped, one for one |
| RunnerCrossings.DischargeFlowsCounted | tests/hy8runner/hy8_runner_crossing.py:73-82 | after the flow list is computed, DISCHARGEXYUSER carries its length and one DISCHARGEXYUSER_Y line follows per flow, in order |
| RunnerCrossings.TailwaterStages | tests/hy8runner/hy8_runner_crossing.py:86-99 | the tailwater block writes NUMRATINGCURVE 6 and TWRATINGCURVE plus six stage lines all at the constant elevation; the package writer's constant tailwater writes the same number of stages |
| RunnerCrossings.RatingBlock | tests/hy8runner/hy8_runner_crossing.py:105-113 | the RATINGCURVE block appears exactly when the curve has rows: a header, NUMPOINTS with the row count, three lines per row led by its FLOW line, and END RATINGCURVE |
| RunnerCrossings.RoadwayPoints | tests/hy8runner/hy8_runner_crossing.py:116-129 | four header lines, then one point per zipped pair (as many as the shorter list), the first ROADWAYSECDATA with the first station and elevation and the rest ROADWAYPOINT |
| RunnerCrossings.GuidWritten | tests/hy8runner/hy8_runner_crossing.py:137-139 | CROSSGUID is written exactly when the crossing has a GUID, and ENDCROSSING always closes the crossing |
| RunnerCrossings.CulvertsWriteTwice | tests/hy8runner/hy8_runner_crossing.py:132-135 | writing already written culverts gives the same lines again |
| RunnerCrossings.WriteTwiceSame | tests/hy8runner/hy8_runner_crossing.py:45-141 | writing a crossing changes only what the write itself stamps, so a second write gives the same lines |
| RunnerCrossings.WriteDischarge | tests/hy8runner/hy8_runner_crossing.py:72-82 | the flow list is computed and the discharge lines for it are appended |
| RunnerCrossings.WriteTailwater | tests/hy8runner/hy8_runner_crossing.py:84-99 | the tailwater lines are appended |
| RunnerCrossings.WriteRatingCurve | tests/hy8runner/hy8_runner_crossing.py:104-113 | the rating-curve lines are appended |
| RunnerCrossings.WriteRoadway | tests/hy8runner/hy8_runner_crossing.py:115-129 | the roadway lines are appended |
| RunnerCrossings.WritePoints | tests/hy8runner/hy8_runner_crossing.py:126-129 | one point line per zipped pair is appended, stopping at the shorter list |
| RunnerCrossings.WriteCulverts | tests/hy8runner/hy8_runner_crossing.py:131-135 | every barrel's lines are appended in order and every barrel comes back stamped |
| RunnerCrossings.WriteCrossingToFile | tests/hy8runner/hy8_runner_crossing.py:45-141 | the whole crossing's lines are appended, the crossing comes back with its list computed and barrels stamped, and the result is always true with no message |
| RunnerCulverts.ShapeCode | tests/hy8runner/hy8_runner_culvert.py:51-57 | CULVERTSHAPE is 2 exactly for a box and 1 otherwise |
| RunnerCulverts.MaterialCode | tests/hy8runner/hy8_runner_culvert.py:52-57 | CULVERTMATERIAL is 2 exactly for corrugated steel that is not a box; a box is always written as concrete |
| RunnerCulverts.ManningN | tests/hy8runner/hy8_runner_culvert.py:59-63 | both Manning's n values are 0.024 exactly for material code 2 and 0.012 otherwise |
| RunnerCulverts.NewBarrelCodes | tests/hy8runner/hy8_runner_culvert.py:16-33 | a fresh barrel is a single concrete circle with n 0.012 |
| RunnerCulverts.CulvertWrites | tests/hy8runner/hy8_runner_culvert.py:48-84 | a barrel writes the same fixed number of lines whatever its values |
| RunnerCulverts.CulvertCardOrder | tests/hy8runner/hy8_runner_culvert.py:48-84 | the lines come in the fixed card order, each ending in a newline, with EMBANKMENTTYPE 2 and ROADCULVSTATION 0.0 |
| RunnerCulverts.WriteTwice | tests/hy8runner/hy8_runner_culvert.py:77-80 | stamping the station and spacing is idempotent and does not change what is written |
| RunnerCulverts.CodesAgainstPackage | tests/hy8runner/hy8_runner_culvert.py:51-63 | the runner's shape and material codes agree with the package writer's, and the Manning's n agrees except for a steel box, which the runner writes as concrete |
| RunnerCulverts.WriteCulvertToFile | tests/hy8runner/hy8_runner_culvert.py:35-86 | the barrel's lines are appended, the barrel comes back stamped, and the result is always true with no message |
| RunnerFlows.CountBound | tests/hy8runner/hy8_runner_flow.py:29-32 | with a positive increment, step k of the loop is taken exactly when k is below the computed count |
| RunnerFlows.IncrementFlowsSpan | tests/hy8runner/hy8_runner_flow.py:27-32 | the increment list starts at the minimum, never passes the maximum, stops just before it would, is non-empty exactly when min <= max and strictly increases |
| RunnerFlows.ComputeList | tests/hy8runner/hy8_runner_flow.py:23-32 | the loop leaves the flow list equal to the computed list: [min, design, max], the increment sequence, or the user list unchanged |
| RunnerFlows.StepsIncreasing | tests/hy8runner/hy8_runner_flow.py:68-73 | the pairwise loop finds no step down exactly when the list strictly increases |
| RunnerFlows.FlowProblemsEmpty | tests/hy8runner/hy8_runner_flow.py:34-78 | there is no problem exactly when the flow data is valid; at most three problems, at most one for a user list, and none is empty |
| RunnerFlows.ValidFlowComputes | tests/hy8runner/hy8_runner_flow.py:23-78 | valid flow data always computes a non-empty strictly increasing list, starting at the minimum unless user-defined |
| RunnerFlows.ValidateFlowData | tests/hy8runner/hy8_runner_flow.py:34-78 | the messages are the flow's problems behind the crossing's label, and the result is true exactly when the data is valid, exactly when nothing is reported |
| RunnerFlows.CheckRange | tests/hy8runner/hy8_runner_flow.py:44-53 | the min-design-max checks report each broken ordering and a negative minimum |
| RunnerFlows.CheckIncrement | tests/hy8runner/hy8_runner_flow.py:54-63 | the min-max-increment checks report min not below max, a negative minimum and a non-positive increment |
| RunnerFlows.CheckUserList | tests/hy8runner/hy8_runner_flow.py:64-73 | a user list is reported once if shorter than two or at its first step down |
| RunnerFlows.Report | tests/hy8runner/hy8_runner_flow.py:46-47 | appending one labelled problem keeps the messages equal to the labelled problems so far |
| RunnerOutput.LineShape | tests/hy8runner/hy8_runner_crossing.py:78-82 | a card line starts with its card name and ends with a newline |
| RunnerOutput.EachLine | tests/hy8runner/hy8_runner_crossing.py:81-82 | a per-item write loop gives one line per item, in order |
| RunnerOutput.WriteEach | tests/hy8runner/hy8_runner_crossing.py:81-82 | the loop appends exactly those lines |
| RunnerOutput.EachBlockLength | tests/hy8runner/hy8_runner_crossing.py:134-135 | items that each write k lines write k lines apiece in all |
| RunnerOutput.EachBlockSplit | tests/hy8runner/hy8_runner_crossing.py:134-135 | item i's lines sit between those of the items before and after it |
| RunnerOutput.EachBlockEmpty | tests/hy8runner/hy8_runner_crossing.py:109-112 | a per-item loop writes nothing exactly when every item writes nothing |
| RunnerOutput.EachIndexedEmpty | tests/hy8runner/hy8_runner_crossing.py:109-112 | the same for a loop over the first n indices |
| RunnerOutput.ReportedAppend | tests/hy8runner/hy8_runner.py:510-512 | one more problem appends one more labelled message |
| RunnerOutput.ReportedConcat | tests/hy8runner/hy8_runner.py:505-508 | the messages of two problem lists are those of the first followed by those of the second |
| RunnerOutput.ReportedEmpty | tests/hy8runner/hy8_runner.py:505-508 | with no empty problem, the messages are empty exactly when there is no problem |
| ScriptShared.Chunks | scripts/batch_hy8_compare.py:174-175 | a batch size of zero is refused (Python's `range` raises) and a negative size gives no batches at all |
| ScriptShared.ChunksJoin | scripts/batch_hy8_compare.py:174-175 | the batches put back together are exactly the scenario list, in order |
| ScriptShared.ChunksSizes | scripts/hy8_benchmark.py:240-241 | every batch but the last holds exactly the batch size, and the last holds between one and the batch size |
| ScriptShared.RunLength | scripts/batch_hy8_compare.py:52 | the leading run of characters other than ASCII letters and digits is maximal: all of it matches and the next character does not |
| ScriptShared.ReplaceRunsSafe | scripts/sample_crossing_compare.py:485-487 | the substitution keeps every letter and digit in order, never lengthens the text, and leaves only letters, digits and single underscores, starting with one exactly when the text does not start with a letter or digit |
| ScriptShared.ReplaceRunsKeepsSafe | scripts/batch_hy8_compare.py:52 | a name that is already safe goes through unchanged |
| ScriptShared.ReplaceRunsIdempotent | scripts/batch_hy8_compare.py:52 | making a name safe twice gives the same name as doing it once |
| ScriptShared.BreakAt | scripts/batch_hy8_compare.py:227 | the first line ends at the first line-break character `str.splitlines` recognises |
| ScriptShared.SplitLines | scripts/batch_hy8_compare.py:227 | no line contains a break, and a text without a break is one line (none if it is empty) |
| ScriptShared.BreakAtIs | scripts/batch_hy8_compare.py:227 | a break preceded by no other break is where the first line ends |
| ScriptShared.SplitLinesCons | scripts/batch_hy8_compare.py:227 | a line ended by a newline is split off on its own ahead of the rest |
| ScriptShared.Padded | scripts/batch_hy8_compare.py:242 | the padded index is at least the width long and, for a natural number, all digits |
| ScriptShared.NatToStringValue | scripts/hy8_benchmark.py:84 | the decimal digits of a natural number denote that number |
| ScriptShared.LeadingZerosValue | scripts/hy8_benchmark.py:84 | leading zeros do not change the value of a digit string |
| ScriptShared.PaddedValue | scripts/batch_hy8_compare.py:53 | the zero-padded index denotes the index, so distinct indices give distinct names |
| BatchCompare.CrossingNamesDistinct | scripts/batch_hy8_compare.py:50-53 | scenarios with different non-negative indices get different crossing names, whatever their channel ids |
| BatchCompare.NumberedNamesDistinct | scripts/batch_hy8_compare.py:53 | two `S<digits>_<text>` names whose digit parts denote different numbers differ |
| BatchCompare.FlowRange | scripts/batch_hy8_compare.py:215-223 | the flow range is strictly increasing and positive, and the design flow is the scenario flow raised to at least 0.01 |
| BatchCompare.FlowRangeUnadjusted | scripts/batch_hy8_compare.py:215-223 | neither adjustment ever fires: the minimum is 90% of the design and the maximum the larger of design + 0.01 and 110% of it |
| BatchCompare.FlowRangeMonotone | scripts/batch_hy8_compare.py:215-223 | a larger scenario flow never gives a smaller minimum, design or maximum |
| BatchCompare.TailwaterConstant | scripts/batch_hy8_compare.py:183-186 | the constant tailwater lies above the downstream invert and not below the downstream headwater |
| BatchCompare.Diameter | scripts/batch_hy8_compare.py:190 | the barrel diameter is at least 0.1 |
| BatchCompare.RoadwayWidth | scripts/batch_hy8_compare.py:191 | the roadway is at least 5 wide and at least six diameters |
| BatchCompare.BuildCrossing | scripts/batch_hy8_compare.py:178-212 | a fresh crossing object whose value is the scenario's crossing |
| BatchCompare.ScenarioCrossingValid | scripts/batch_hy8_compare.py:178-212 | the built flow, tailwater and roadway always validate and the tailwater invert sits 0.01 below the constant; the crossing validates exactly when it has a barrel and the tailwater lies below the roadway crest |
| BatchCompare.ScenarioBarrelShape | scripts/batch_hy8_compare.py:198-211 | one round barrel of the scenario's diameter and count, between the scenario's inverts, as long as the scenario (or a diameter when the length is not positive), with a Manning's n exactly when the scenario gives a positive one |
| BatchCompare.KeptLines | scripts/batch_hy8_compare.py:227 | the kept lines are no more than all lines and none is blank |
| BatchCompare.KeptLinesAll | scripts/batch_hy8_compare.py:227 | when no line is blank every line is kept |
| BatchCompare.PyTail | scripts/batch_hy8_compare.py:231 | `lines[-limit:]` is the last `limit` lines (all of them when there are fewer), and the whole list for a limit of zero |
| BatchCompare.SummaryAsWrittenShape | scripts/batch_hy8_compare.py:226-233 | the summary as written is empty exactly when no line is kept, keeps short outputs whole, and otherwise is a note followed by the last `limit` kept lines |
| BatchCompare.SummarySpec | scripts/batch_hy8_compare.py:226-233 | the corrected summary is empty exactly when no line is kept, keeps short outputs whole, and otherwise notes how many kept lines it omits, the omitted count and the shown lines adding up to all kept lines |
| BatchCompare.SummaryAgreesWithoutBlankLines | scripts/batch_hy8_compare.py:226-233 | on output without blank lines the summary as written and the corrected one agree |
| BatchCompare.BlankLineCountedAsOmitted | scripts/batch_hy8_compare.py:232 | on the stream `a`, blank, `b`, `c` with limit 2 the script reports two omitted lines where only one kept line was left out |
| BatchCompare.Difference | scripts/batch_hy8_compare.py:353-364 | a difference is NaN exactly when either side is NaN, and otherwise added to the reported value gives the computed one |
| BatchCompare.RecordKeepsScenario | scripts/batch_hy8_compare.py:332-379 | a record carries the scenario's fields back unchanged, with the velocity and headwater differences as defined |
| BatchCompare.ErrorRecordNaN | scripts/batch_hy8_compare.py:269 | an error record has status "error", NaN flow and differences, and still carries its scenario |
| Benchmark.SpecNamesDistinct | scripts/hy8_benchmark.py:84 | specs with different non-negative indices get different crossing names |
| Benchmark.SpecFlow | scripts/hy8_benchmark.py:87-95 | a min-design-max flow with design at least 0.01, 0 < min < design < max, its user list those three values, and valid |
| Benchmark.RoadwayWidth | scripts/hy8_benchmark.py:104 | the roadway is at least 6 wide |
| Benchmark.SpecCrossingShape | scripts/hy8_benchmark.py:97-120 | one round concrete barrel of the spec's diameter falling slope times length, a three-point roadway symmetric about station 0 at the crest, and a tailwater 0.3 diameters above the downstream invert |
| Benchmark.SpecCrossingValid | scripts/hy8_benchmark.py:83-122 | the synthesized crossing validates exactly when the diameter is positive, there is a barrel, and the tailwater lies below the roadway crest |
| Benchmark.Build | scripts/hy8_benchmark.py:83-122 | a fresh crossing object whose value is the spec's crossing |
| Benchmark.SpecAt | scripts/hy8_benchmark.py:217-228 | spec i is numbered i + 1 and its downstream invert lies between 100 and 100.45 |
| Benchmark.BuildCrossingSpecs | scripts/hy8_benchmark.py:214-230 | one spec per requested crossing (none for a negative count), each numbered from 1, with the downstream invert repeating every ten specs |
| Benchmark.ChunkSpecs | scripts/hy8_benchmark.py:240-241 | a zero batch size is refused and a negative one gives no batches; otherwise the batches joined are the specs and each holds one to batch-size specs |
| Benchmark.ChunksNonEmpty | scripts/hy8_benchmark.py:240-241 | no batch is empty |
| Benchmark.CountOf | scripts/hy8_benchmark.py:346-347 | a failure count is at most the number of batches and zero exactly when no batch failed |
| Benchmark.MaxTime | scripts/hy8_benchmark.py:348 | the largest batch time is one of the batch times and no batch took longer |
| Benchmark.MinTime | scripts/hy8_benchmark.py:349 | the smallest batch time is one of the batch times and no batch took less |
| Benchmark.PerUnit | scripts/hy8_benchmark.py:340-341 | a per-crossing or per-batch time is NaN exactly for a zero count and otherwise times the count gives the total |
| Benchmark.SummarizeConfiguration | scripts/hy8_benchmark.py:321-350 | no records give no summary; otherwise the counts, the configuration of the first record, the per-unit times and the failure counts are as the records say |
| Benchmark.SumBatchTimeSplits | scripts/hy8_benchmark.py:301 | when every batch's total is its write, HY-8 and parse times, so are the sums |
| Benchmark.MaxWithinSum | scripts/hy8_benchmark.py:324-348 | no single non-negative batch time exceeds the summed batch time |
| Benchmark.SumNonNegative | scripts/hy8_benchmark.py:324 | non-negative batch times sum to a non-negative time |
| Benchmark.SummaryTimesConsistent | scripts/hy8_benchmark.py:301-350 | for batches timed as the runner times them, the summed batch time splits into write, HY-8 and parse time, and 0 <= min <= every batch time <= max <= sum |
| CsvDemo.FindNamed | scripts/csv_culvert_demo.py:71-75 | the row returned is the first whose stripped crossing name matches; when every row has a name, the search fails exactly when none matches, with the not-found message |
| CsvDemo.FirstPositive | scripts/csv_culvert_demo.py:76-83 | the row returned is the first whose adopted flow parses and is positive; the search fails exactly when there is none, with its message |
| CsvDemo.DemoCrossingValid | scripts/csv_culvert_demo.py:97-128 | the demo crossing validates exactly when the roadway width, diameter and barrel count are positive and the tailwater lies below the roadway |
| CsvDemo.Finish | scripts/csv_culvert_demo.py:128-132 | building succeeds exactly when the assembled crossing validates |
| CsvDemo.BuildSpec | scripts/csv_culvert_demo.py:91-93 | a non-positive flow is refused with the crossing's name before anything else is read |
| CsvDemo.BuildSpecValid | scripts/csv_culvert_demo.py:86-132 | a successful build has a positive flow, a valid crossing whose user flow list is that flow, one round barrel of positive diameter, and a project holding just that crossing titled after it |
| CsvDemo.AssembleCrossing | scripts/csv_culvert_demo.py:97-126 | a fresh crossing object whose value is the demo crossing |
| CsvDemo.BuildCrossing | scripts/csv_culvert_demo.py:86-132 | fails exactly when the value-level build fails, with its message, and otherwise returns fresh project and crossing objects holding the built values |
| CsvDemo.FinishCrossing | scripts/csv_culvert_demo.py:97-132 | the objects assembled agree with the value-level build, failing with the same validation message |
| CsvDemo.Step | scripts/csv_culvert_demo.py:180-189 | one bisection step runs HY-8 at the midpoint; a run that raises stops the loop with its message and the bracket unchanged; otherwise it stops when the flow is within tolerance and else keeps the half of the bracket on the side the flow lies |
| CsvDemo.Pow2 | scripts/csv_culvert_demo.py:180 | a power of two is at least one |
| CsvDemo.PassesSpec | scripts/csv_culvert_demo.py:179-190 | the loop makes at most `iterations` runs, all of them unless it stops early; it stops only on a close flow or on a run that raised, whose message is that of the run at the final bracket's midpoint; each run without a stop halves the bracket, which stays inside the first one |
| CsvDemo.SolveSpec | scripts/csv_culvert_demo.py:158-190 | bounds out of order are refused; an error of the lower bound's run is passed on, and a flow already reached there returns that run; an error of the upper bound's run is passed on, and a flow beyond its capacity is refused; otherwise the error of the first midpoint run that raises (at a headwater between the bounds) is passed on, or the bisection's last run is returned, which is close to the flow unless all passes ran |
| CsvDemo.Bisect | scripts/csv_culvert_demo.py:176-190 | the loop returns the last run of the specified bisection, or the error of the run that raised |
| CsvDemo.SolveHeadwater | scripts/csv_culvert_demo.py:146-190 | the search returns what its specification returns, its own errors and those raised by HY-8 runs included |
| CsvDemo.ComputeMetrics | scripts/csv_culvert_demo.py:193-197 | the headwater is passed on; the ratio is NaN for a zero diameter and otherwise times the diameter gives the depth above the inlet invert; the velocity is the row's, or NaN without a row |
| SampleCompare.LexLessIrreflexive | scripts/sample_crossing_compare.py:416 | no name sorts before itself |
| SampleCompare.LexLessTransitive | scripts/sample_crossing_compare.py:416 | the string order `sorted` uses is transitive |
| SampleCompare.LexLessTotal | scripts/sample_crossing_compare.py:416 | of two different names one sorts before the other |
| SampleCompare.LexLessAsymmetric | scripts/sample_crossing_compare.py:416 | two names never sort before each other |
| SampleCompare.LeastExists | scripts/sample_crossing_compare.py:416 | every non-empty set of names has a least one |
| SampleCompare.LeastUnique | scripts/sample_crossing_compare.py:416 | a set has only one least name |
| SampleCompare.LeastUniqueAll | scripts/sample_crossing_compare.py:416 | the same, for every pair of candidates at once |
| SampleCompare.Least | scripts/sample_crossing_compare.py:416 | the chosen name is the least of the set |
| SampleCompare.SortedNames | scripts/sample_crossing_compare.py:416 | `sorted` of the union of names is in strictly increasing order and holds each name exactly once |
| SampleCompare.SequencesClose | scripts/sample_crossing_compare.py:433-445 | the loop answers exactly the closeness of the two series: equal length, NaN matched only by NaN, other pairs within the tolerance |
| SampleCompare.CloseProperties | scripts/sample_crossing_compare.py:433-445 | closeness is reflexive for a non-negative tolerance and symmetric, and at tolerance zero it is equality |
| SampleCompare.CloseMonotone | scripts/sample_crossing_compare.py:433-445 | series close at one tolerance are close at any larger one |
| SampleCompare.MissingSideNamed | scripts/sample_crossing_compare.py:418-421 | the corrected message names the run-hy8 side exactly when the crossing is missing from run-hy8 and the reference side exactly when it is missing there; it agrees with the script unless the reference entry is empty |
| SampleCompare.EmptyLegacyEntryMislabelled | scripts/sample_crossing_compare.py:420-421 | a crossing missing from run-hy8 whose reference entry is an empty mapping is reported by the script as missing from the reference runner |
| SampleCompare.CompareEntries | scripts/sample_crossing_compare.py:423-429 | the four series checks and the iteration check append exactly the entry's report |
| SampleCompare.CompareResultSets | scripts/sample_crossing_compare.py:409-430 | the loop over the sorted names returns exactly the specified mismatch list (naming the missing side by presence, the corrected rule of Findings row 4) |
| SampleCompare.EntryReportEmpty | scripts/sample_crossing_compare.py:423-429 | an entry pair reports nothing exactly when all four series are close and the iteration summaries are equal |
| SampleCompare.NameReportEmpty | scripts/sample_crossing_compare.py:417-429 | a name reports nothing exactly when both runs have it and their entries agree |
| SampleCompare.NoMismatchesAgree | scripts/sample_crossing_compare.py:416-430 | when no name reports anything the two result sets agree |
| SampleCompare.MismatchDisagrees | scripts/sample_crossing_compare.py:416-430 | one reported name means the result sets disagree |
| SampleCompare.MismatchesEmpty | scripts/sample_crossing_compare.py:409-430 | the mismatch list is empty exactly when both runs have the same crossings and every entry agrees |
| SampleCompare.MissingNameReported | scripts/sample_crossing_compare.py:417-422 | a crossing present in only one run is always reported as missing |
| SampleCompare.Slugify | scripts/sample_crossing_compare.py:485-487 | a slug is never empty |
| SampleCompare.AlnumsStrip | scripts/sample_crossing_compare.py:486 | stripping white space keeps every letter and digit |
| SampleCompare.StripUnderscores | scripts/sample_crossing_compare.py:487 | stripping underscores from a safe name keeps it safe with its letters and digits, and it neither starts nor ends with an underscore |
| SampleCompare.SlugifySpec | scripts/sample_crossing_compare.py:485-487 | a slug is a safe name neither starting nor ending with an underscore; it keeps the name's letters and digits in order, and a name without any becomes "project" |
| SampleCompare.SlugifyIdempotent | scripts/sample_crossing_compare.py:485-487 | slugifying a slug gives it back |
| SampleCompare.TrimZeros | scripts/sample_crossing_compare.py:540 | trimming zeros and a point only shortens the text from the right |
| SampleCompare.WithPoint | scripts/sample_crossing_compare.py:541-544 | the formatted number is never empty and always has a point |
| SampleCompare.NormalizeNumber | scripts/sample_crossing_compare.py:540-545 | a normalized number is one non-empty word with a point |
| SampleCompare.NormalizeToken | scripts/sample_crossing_compare.py:535-545 | a token that is not a number is kept; a number becomes one non-empty word with a point |
| SampleCompare.NormalizeHeaderSpec | scripts/sample_crossing_compare.py:548-558 | the header prefix is kept; a header changes only when its version parses as a whole number, which is then written without a fraction |
| SampleCompare.JoinSingleSpaced | scripts/sample_crossing_compare.py:531 | joining non-empty words with single spaces gives a single-spaced, non-empty line |
| SampleCompare.NormalizeTokens | scripts/sample_crossing_compare.py:530 | one normalized token per token, in order |
| SampleCompare.NormalizedLineSpec | scripts/sample_crossing_compare.py:523-531 | a line is dropped exactly when it is a PROJDATE line, empty or indented, and a kept line is non-empty and single-spaced |
| SampleCompare.NormalizedLines | scripts/sample_crossing_compare.py:521-532 | the loop returns the normalized form of every kept line of the text, in order |
| SampleCompare.NormalizedLinesSpec | scripts/sample_crossing_compare.py:521-532 | there are no more normalized lines than raw lines, and each is non-empty and single-spaced |
| SampleCompare.FloatOf | scripts/sample_crossing_compare.py:629-635 | a missing, None or empty value gives the fallback, a number gives its value, and any other result is the value parsed as a float |
| SampleCompare.IntOf | scripts/sample_crossing_compare.py:638-642 | an integer is kept, and any result other than the default is the value converted as `int` converts it |
| SampleCompare.RecordScenario | scripts/sample_crossing_compare.py:599-626 | the scenario keeps the record's flow, headwater and height, has at least one barrel, falls back to the headwater for missing inverts, to the record position for a missing index, to a crest ten heights above the inlet, and to n = 0 |
| SampleCompare.RecordOutcome | scripts/sample_crossing_compare.py:592-626 | a record is skipped exactly for a near-zero flow when asked, dropped exactly when flow, headwater or height is missing, and a kept scenario then has a non-zero flow |
| SampleCompare.RecordsToScenarios | scripts/sample_crossing_compare.py:589-626 | the loop returns the specified scenarios and skipped count |
| SampleCompare.RecordsAccounted | scripts/sample_crossing_compare.py:589-626 | scenarios and skipped records together never outnumber the records, and nothing is skipped unless asked |
| SampleCompare.ScenariosFromRecords | scripts/sample_crossing_compare.py:589-626 | every scenario comes from some record that was kept |
| SampleCompare.SelectedCount | scripts/sample_crossing_compare.py:197-204 | a non-positive limit selects everything; otherwise the count is the smaller of the limit and the number available |
| SampleCompare.Selected | scripts/sample_crossing_compare.py:204-206 | the selection is the first `count` scenarios |

## Left out

- Running HY-8 itself (`executor.py`, `hy8_path.py`), the command line (`cli.py`) and the package entry points are not part of this model. The hydraulics search takes the HY-8 run as its parameter `evaluate`, and the demo's headwater bisection takes it as `run`, a function that returns a result or the message of the error `q_from_hw` raises. Which inputs make `q_from_hw` raise is not tied to `Hydraulics.QFromHw` there.
- Preparing and cleaning up the workspace, naming the temporary files, and `os.makedirs` are left out. The file system appears in two forms. The writer's `CardWriter.Disk` maps each path to the text of its file. The runner's `Runner.Disk` value gives the set of existing paths and the set of existing files that cannot be opened for writing.
- CardWriter.Hy8Suffixed reads paths with POSIX `/` separators. It drops trailing separators but does not collapse doubled separators or `./` parts, which `pathlib` removes without changing the file meant. Windows separators are not modelled. The empty-name error embeds the path itself rather than the path object's `repr`.
- The `PROJDATE` card writes `project_timestamp_hours()`, which reads the clock. It is the parameter `timestamp` of `CardWriter.ProjectCards`.
- `math.pi` is the parameter `pi` of the hydraulics geometry helpers.
- Floats are reals. Binary rounding error is not modelled, and `round` is exact round-half-even on reals.
- `str()` and `repr()` of a float are the parameter `repr` (reference writer, `CardWriter.VersionText`) and `render` (`Config`), because Python's shortest round-trip float text is not modelled. Exception messages that embed such a text are modelled by their fixed parts.
- `describe`, `__str__`, `__repr__`, `log_result_preview` and all `loguru` logging produce text for people only, and are left out.
- Thread pools, `perf_counter` timing and the benchmark's `run_batch` are left out. The benchmark's batch records are inputs to `Benchmark.SummarizeConfiguration`.
- Loading spreadsheets, JSON and CSV files (`load_scenarios`, `load_rows`, `load_scenarios_from_*`) and the file paths of `select_scenarios` are left out. Only the limit logic of `select_scenarios` is modelled.
- The demo scripts `demo_hydraulics_wrappers.py` and `gen-hy8-example.py` only print examples, and are left out.
- The reference writer's open file is a value, the list of strings written so far, and each write method returns the longer list. The file handle, `create_hy8_file` and the methods that start the HY-8 executable are left out.
- Aliasing: a class holds value snapshots of the objects nested in it, so two crossings that share one Python `FlowDefinition` object are not modelled.
- The stray `increment` attribute that `reader._finalize_flow` stores on a flow is dropped, because nothing reads it.
- RunnerFlows.ComputeList, RunnerCrossings.WriteDischarge and RunnerCrossings.WriteCrossingToFile require an increment above zero or a minimum above the maximum. With any other values `compute_list`'s `while` loop never ends, and a non-terminating run is not modelled.
- Runner.WithMinMaxIncrement and Runner.Hy8Runner.SetDischargeMinMaxIncFlow carry the same requirement, because the setter calls `compute_list`.
- RunnerCrossings.WriteRatingCurve and RunnerCrossings.WriteCrossingToFile require every rating-curve row to hold at least three values. With a shorter row, Python raises `IndexError` after part of the file is written, and that partial file is not modelled.
- Numbers.ParseFloat, PyValues.ToFloat and SampleCompare.FloatOf do not accept the spellings `nan`, `inf` or `infinity`, nor `_` digit separators.
- Barrels.NameOf, Crossings.TextOf and Crossings.UuidOf refuse a name or uuid that is not a string. Python stores such a value as it is, but the model's names are strings.
- PyValues.ToStr and PyValues.StringsOf return no text for a float or a container, because float text is not modelled.
- Config.ParseUnitSystem upper-cases ASCII letters only (`Text.Upper`). Python's `str.upper()` also maps other letters, and a few of them become ASCII letters: `ſ` becomes `S`, `ı` becomes `I`, and `ﬁ` becomes `FI`. So Python accepts a spelling such as `ſi` for SI, which the model refuses.
- Config.UnitSystemByText and Config.NormalizedText state their results for the same ASCII-only upper-casing.
- Config.ParseSurface upper-cases ASCII letters only, so a surface spelled with letters such as `ſ`, `ı` or a ligature is refused where Python accepts it.
- Config.ParseShape upper-cases ASCII letters only, with the same gap.
- Config.ParseMaterial upper-cases ASCII letters only, with the same gap.
- Config.ParseTailwaterType upper-cases ASCII letters only, with the same gap.
- CardStreams.ReadBlockSpec, CardStreams.SkipUntil and the stream methods that follow them compare markers case-insensitively with ASCII-only upper-casing (`CardStreams.ClosesBlock`, `CardStreams.IsTarget`), so a marker line spelled with such letters is not matched where Python matches it. Lower-casing is exact for every word the model compares (`nan`, `true`, `overtopping`, `.hy8`), because no non-ASCII character lower-cases to one of their letters.
- CardWriter.ValidCrossingWrites states the corrected writer of Findings row 2, which reads the tailwater type from `tw_type`. As written, `_write_tailwater` reads `tailwater.type` and raises `AttributeError` for any tailwater built in code (`CardWriter.TailwaterAttributeMissing`).
- CardWriter.ValidCrossingsWrite states the corrected writer of Findings row 2. As written, a valid project whose tailwaters were built in code raises.
- CardWriter.WriteSucceedsExactly states the corrected writer of Findings row 2. As written, a valid project can still fail with `AttributeError`.
- CardWriter.Hy8FileWriter.Write uses the corrected tailwater cards of Findings row 2.
- CardWriter.Hy8FileWriter.WriteFile uses the corrected tailwater cards of Findings row 2.
- CardWriter.Hy8FileWriter.WriteProject uses the corrected tailwater cards of Findings row 2.
- CardWriter.Hy8FileWriter.WriteCrossings uses the corrected tailwater cards of Findings row 2.
- CardWriter.Hy8FileWriter.WriteCrossing uses the corrected tailwater cards of Findings row 2.
- CardWriter.Hy8FileWriter.WriteTailwater writes the corrected tailwater cards of Findings row 2. The as-written cards are `CardWriter.TailwaterCardsAsWritten`.
- Reader.CrossingCard sets the tailwater type from a TAILWATERTYPE card, the corrected rule of Findings row 1. As written, `_parse_crossing` stores the code on a stray `tailwater.type` attribute and `tw_type` keeps its default (`Reader.CrossingCardAsWritten`, `Reader.TailwaterTypeCardLost`). The stray attribute, which the as-written writer would then read back, is not modelled.
- Reader.CrossingFrom parses each crossing with the corrected TAILWATERTYPE rule of Findings row 1. As written, a `TAILWATERTYPE 1` card leaves a constant tailwater constant, where the model makes it rectangular.
- Reader.ProjectFrom parses its crossings with the corrected TAILWATERTYPE rule of Findings row 1, with the same difference.
- Reader.Hy8Parser.ParseCrossing parses with the corrected TAILWATERTYPE rule of Findings row 1, with the same difference.
- Reader.Hy8Parser.Parse parses with the corrected TAILWATERTYPE rule of Findings row 1, with the same difference.
- Reader.LoadProject parses with the corrected TAILWATERTYPE rule of Findings row 1. As written, a loaded project with a `TAILWATERTYPE 1` card keeps a constant tailwater and can validate, where the model's gets a rectangular tailwater.
- SampleCompare.CompareResultSets names the missing side by whether the entry is present, the corrected rule of Findings row 4. As written, an empty legacy entry is reported as missing from the reference results (`SampleCompare.EmptyLegacyEntryMislabelled`).

## Findings

| source | as written | input that shows it | evidently intended | confidence | as-written member | corrected member |
|---|---|---|---|---|---|---|
| src/run_hy8/reader.py:176-177 | a TAILWATERTYPE card assigns `crossing.tailwater.type`, an attribute that validation never reads and only the writer does (src/run_hy8/writer.py:105), so the tailwater's `tw_type` keeps its default | a crossing whose tailwater is constant, then the card `TAILWATERTYPE 1` | the card sets `tw_type`, so the tailwater becomes a rectangular channel | not executed | Reader.CrossingCardAsWritten, Reader.TailwaterTypeCardLost | Reader.CrossingCard |
| src/run_hy8/writer.py:105-113 | `_write_tailwater` reads `tailwater.type`, but `TailwaterDefinition` names the field `tw_type` (src/run_hy8/models/tailwater_definition.py:19); only the reader's stray assignment ever creates `type`, so writing a tailwater built in code raises `AttributeError` | any project whose tailwater was built in code, for example the default constant tailwater, which validates | the writer reads `tw_type` and writes the constant tailwater's cards | not executed | CardWriter.TailwaterCardsAsWritten, CardWriter.TailwaterAttributeMissing | CardWriter.TailwaterCards, CardWriter.TailwaterCardsSpec |
| scripts/batch_hy8_compare.py:232 | the omitted count is `len(stream.splitlines()) - limit`, which counts the blank lines the summary dropped | the stream `a`, blank, `b`, `c` with a limit of 2: the note says 2 omitted where only `a` was left out | the count is the number of kept non-blank lines beyond the limit | not executed | BatchCompare.SummaryLinesAsWritten, BatchCompare.BlankLineCountedAsOmitted | BatchCompare.SummaryLines, BatchCompare.SummarySpec |
| scripts/sample_crossing_compare.py:421 | the missing side is named by the truth of `legacy_entry`, so an empty legacy entry counts as absent | run-hy8 has no crossing `C` and the reference run has `C` with an empty entry: the message says `C` is missing from the reference results | the side is named by whether the entry is present (`is None`) | not executed | SampleCompare.MissingSideAsWritten, SampleCompare.EmptyLegacyEntryMislabelled | SampleCompare.MissingSide, SampleCompare.MissingSideNamed |
