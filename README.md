# Fuzzy health knowledge graph — a Dafny model

This project models the core of a Python pipeline. The pipeline turns one
spreadsheet row per patient into RDF triples and annotates each measurement
with fuzzy membership degrees.

- **Fuzzy membership engine** (`FuzzyLogic`, src/fuzzy/fuzzy_logic.py, copied
  verbatim in full.py):
  - `classify_value` places a Gaussian density on each of two ranges and
    normalises the two densities into shares.
  - `get_membership_degrees` picks the left-shoulder, triangle and
    right-shoulder entries of a partition. A five-way comparison chain then
    gives a single label with degree 1.0, or two labels with rounded shares.
  - The Gaussian `norm.pdf` and `round(·, 2)` are parameters (`FloatOps`).
    The only thing assumed of the density is that it is never negative.
  - A missing value (pandas NaN) is `None`. Every comparison on it is false,
    so the chain yields the empty result.
- **Partition tables**:
  - the thirteen-axis `fuzzy_sets` of src/fuzzy/fuzzy_logic_config.py
    (module `FuzzyConfig`);
  - the fourteen-axis table that full.py builds inline (module `FullScript`).
- **Graph assembler** (`HealthOntology`, src/ontology/health_ontology.py and
  full.py):
  - It is the class `HealthOntology.Ontology`. Its two fields are the triple
    set `g` and the device registry `deviceInstances`.
  - Every method performs the source's `g.add` calls one at a time. Each is
    proved equal to a pure step function on a `Store` value
    (`AddMeasurementStep`, `AddFuzzyScoresStep`, `AddPatientStep`).
  - The properties are lemmas about those step functions: the graph only
    grows, absent values are skipped, devices are registered on first sight
    and reused afterwards, and the fuzzy scores are all or nothing.
- **Patient row** (`PatientRecord.Patient`): the `Patient` record of full.py,
  one typed field per spreadsheet column.

The two copies of `FuzzyLogic` and `HealthOntology` in full.py are the same
code as the modules under src/, apart from the label list of
`_define_labels`. They are therefore modelled once. The constructor takes
the label list: `ModuleLabels` for src/ and `FullScript.ScriptLabels` for
full.py. Module `Pipeline` combines the src table with the src assembler, as
src/main.py does.

Some facts of the source as written, proved here:

- The calorie degrees attach to `CalorieIntake{idx+1}`. That is never the
  node `CalorieIntakeReading{idx+1}` that `add_measurement` creates, and it is
  never typed as a measurement (`CalorieScoreNodeIsNoReading`,
  `CalorieScoreNodeNeverTyped`).
- src/ontology/health_ontology.py declares none of the sleep, wakeup and
  health-score labels that its own fuzzy facts use
  (`ModuleLabelsOmitSleepAndScore`).
- full.py's inline `remsleep` partition carries the wakeup labels, so REM-sleep
  and wakeup facts share predicate names (`RemSleepUsesWakeupLabels`).

## Model

| member | source | states |
|---|---|---|
| FuzzyLogic.Centre | src/fuzzy/fuzzy_logic.py:8-10 | The density's mean is equidistant from both ends of the range and lies inside it. |
| FuzzyLogic.Spread | src/fuzzy/fuzzy_logic.py:9-11 | The spread is a quarter of the range's width, and it is positive exactly when the range is non-empty. |
| FuzzyLogic.DensityOn | src/fuzzy/fuzzy_logic.py:13-14 | The density evaluated on a range is never negative. |
| FuzzyLogic.ClassifyValue | src/fuzzy/fuzzy_logic.py:7-18 | If the total density is positive, both shares lie in [0,1], sum to 1, and are each density divided by the total. Otherwise both densities are 0 and the result is (0, 0). The full.py copy (lines 21-32) is the same code. |
| FuzzyLogic.SharesOfWhole | src/fuzzy/fuzzy_logic.py:15-17 | The two normalised shares of a positive total sum to 1. |
| FuzzyLogic.ClassifyValueFavoursDenser | src/fuzzy/fuzzy_logic.py:13-17 | With a positive total, the first share is at least the second exactly when the first density is at least the second. |
| FuzzyLogic.ClassifyValueSymmetric | src/fuzzy/fuzzy_logic.py:7-18 | Swapping the two ranges swaps the two shares. |
| FuzzyLogic.FindShape | src/fuzzy/fuzzy_logic.py:23-25 | The lookup (`next` over a generator) fails exactly when no entry has the shape. Otherwise it returns the first entry with that shape. |
| FuzzyLogic.Select | src/fuzzy/fuzzy_logic.py:27-44 | No branch of the chain fires exactly when the value is missing (NaN). |
| FuzzyLogic.ChainDegrees | src/fuzzy/fuzzy_logic.py:27-46 | The result's keys are among the three labels, and the result is empty exactly when the value is missing. |
| FuzzyLogic.MembershipDegrees | src/fuzzy/fuzzy_logic.py:21-46 | It succeeds exactly when all three shapes are present; the same code is at full.py:35-56. On failure, the error names a missing shape, and the lookups fail in the order left, triangle, right. On success, the keys are labels of the partition and the result is empty exactly for a missing value. |
| FuzzyLogic.GuardsPartitionTheLine | src/fuzzy/fuzzy_logic.py:27-44 | On an ordered partition, each arm's own guard holds exactly when that arm is the one the chain selects. So every real value fires exactly one arm. |
| FuzzyLogic.SaturatesLeft | src/fuzzy/fuzzy_logic.py:27-28 | Below the triangle's start, including below the left shoulder's own support, the result is exactly {left: 1.0}. |
| FuzzyLogic.LeftTransition | src/fuzzy/fuzzy_logic.py:29-34 | In [medium.a, left.c) with distinct labels, the keys are exactly the left and medium labels. Each degree is `round2` of the matching `classify_value` share on (left.b, left.c) and (medium.a, medium.b). |
| FuzzyLogic.MediumCore | src/fuzzy/fuzzy_logic.py:35-36 | On a partition whose medium range starts no later than the left range ends (medium.a <= left.c), a value in [left.c, right.a) gives exactly {medium: 1.0}. |
| FuzzyLogic.RightTransition | src/fuzzy/fuzzy_logic.py:37-42 | On a partition ordered as medium.a <= left.c <= right.a, a value in [right.a, medium.c] with distinct medium and right labels gives exactly the medium and right keys. Each degree is `round2` of the matching `classify_value` share on (medium.b, medium.c) and (right.a, right.b). |
| FuzzyLogic.SaturatesRight | src/fuzzy/fuzzy_logic.py:43-44 | Above medium.c on an ordered partition, the result is exactly {right: 1.0}. |
| FuzzyLogic.OneOrTwoKeys | src/fuzzy/fuzzy_logic.py:27-44 | A present value with distinct adjacent labels gets one or two keys, never none. |
| FuzzyLogic.CountShape | src/fuzzy/fuzzy_logic.py:23-25 | The number of entries with a shape is at most the partition's length. It is zero exactly when the lookup fails. |
| FuzzyLogic.WellFormedOfEntries | src/fuzzy/fuzzy_logic_config.py:2-6 | Three entries meet the well-formedness the engine relies on when all of these hold: shapes left, triangle, right; a < b < c in each; distinct labels; m.a < l.c < r.a < m.c. |
| FuzzyLogic.FoundNamesDistinct | src/fuzzy/fuzzy_logic.py:23-25 | Lookups of two different shapes in a partition with distinct labels return entries with different labels. |
| FuzzyLogic.WellFormedMembership | src/fuzzy/fuzzy_logic.py:21-46 | On a well-formed partition, all of the following hold: every lookup succeeds; the found entries are ordered; all four density spreads are positive; a present value gets one or two keys. |
| FuzzyConfig.TableKeys | src/fuzzy/fuzzy_logic_config.py:1-79 | The table has exactly the thirteen axis keys. |
| FuzzyConfig.TableWellFormed | src/fuzzy/fuzzy_logic_config.py:2-78 | Every axis is well formed: one entry of each shape, a < b < c, distinct labels, and non-empty transition zones in order. |
| FuzzyConfig.HeartLookups | src/fuzzy/fuzzy_logic.py:23-25 | In the heart-rate partition, each of the three shape names is found at its own entry. |
| FuzzyConfig.HeartRateExamples | src/fuzzy/fuzzy_logic_config.py:8-12 | On the heart axis: 58 and 30 give {LowHeartRate: 1.0}, 90 gives {MediumHeartRate: 1.0} and 200 gives {HighHeartRate: 1.0}. A missing value gives {}. |
| FuzzyConfig.HeartRateTransitionExample | src/fuzzy/fuzzy_logic_config.py:8-12 | A heart rate of 70 lies where the low and medium ranges overlap. It gives exactly the LowHeartRate and MediumHeartRate keys, with the rounded `classify_value` shares of the two ranges. |
| GraphTerms.Ex | src/ontology/health_ontology.py:10 | `EX[name]` is a URI whose length is the namespace's plus the name's. Its body is the concatenation of the two, and its partner is `ExInjective`. |
| GraphTerms.ExInjective | src/ontology/health_ontology.py:10 | Two `EX` names give the same URI exactly when they are the same name. |
| GraphTerms.ExIsNotRdfType | src/ontology/health_ontology.py:40 | No `EX` URI is `RDF.type`. |
| GraphTerms.DigitChar | src/ontology/health_ontology.py:72 | A digit is rendered as the decimal character of that value. |
| GraphTerms.NatToString | src/ontology/health_ontology.py:72 | The rendering of `idx + 1` is a non-empty string of decimal digits. It has a single digit exactly when the number is below 10. |
| GraphTerms.NatToStringInjective | src/ontology/health_ontology.py:72 | Different numbers render as different strings. |
| GraphTerms.NumberedInjective | src/ontology/health_ontology.py:72 | For one name, nodes numbered after different rows are different. |
| GraphTerms.Numbered | src/ontology/health_ontology.py:72 | `EX[f"{name}{idx + 1}"]`: the name followed by the one-based row number in decimal. Its partner is `NumberedInjective`. |
| GraphTerms.Saref | src/ontology/health_ontology.py:11 | `SAREF[name]`, a URI in the SAREF namespace. Its partner is `HealthOntology.SarefIsNotRdfType`. |
| HealthOntology.LabelFactsCount | src/ontology/health_ontology.py:24-36 | Distinct labels give exactly one annotation-property declaration each. |
| HealthOntology.LabelFact | src/ontology/health_ontology.py:36 | The declaration `(EX[label], RDF.type, OWL.AnnotationProperty)` of one label. |
| HealthOntology.LabelFacts | src/ontology/health_ontology.py:35-36 | The declarations of every listed label. `LabelFactsCount` gives their number. |
| HealthOntology.MeasurementNode | src/ontology/health_ontology.py:72 | The reading node `EX[f"{property_name}Reading{idx + 1}"]`. Its partners are `MeasurementNodeInjective` and `MeasurementNodeSameRow`. |
| HealthOntology.DeviceNode | src/ontology/health_ontology.py:80 | The device node `EX[f"Device{device_id}"]`. Its partner is `DeviceNodeInjective`. |
| HealthOntology.ReadingFacts | src/ontology/health_ontology.py:73-77 | The five facts about a present reading: its typing as a Measurement, its value and timestamp, and the two links with its property. |
| HealthOntology.DeviceFacts | src/ontology/health_ontology.py:81-82 | The two facts that declare a device the first time its id is seen. |
| HealthOntology.LinkFacts | src/ontology/health_ontology.py:87-89 | The three facts that link the device, the patient and the reading. |
| HealthOntology.AddMeasurementStep | src/ontology/health_ontology.py:67-92 | The graph only grows. A missing value changes nothing and returns None. Otherwise: the reading node `EX[prop+"Reading"+str(idx+1)]` is returned and its typing and property facts are added; a known device keeps its node and gets no new facts; a new device is registered as `EX["Device"+id]` with its two facts; the three link facts are added. The new graph is exactly the old one plus the reading facts and the link facts, with the device facts added only for a new id. |
| HealthOntology.RegistryConsistentGrows | src/ontology/health_ontology.py:79-85 | Adding triples keeps every registered device's node and declaration in the graph. |
| HealthOntology.AddMeasurementKeepsRegistry | src/ontology/health_ontology.py:79-85 | `add_measurement` keeps the registry consistent: each id maps to its own node, and that node is declared. |
| HealthOntology.SameDeviceSameNode | src/ontology/health_ontology.py:79-87 | After two readings from one device, the registry gains only that id. Both `makesMeasurement` facts start at the same node, which is `EX["Device"+id]` under a consistent registry. |
| HealthOntology.DeviceNodeInjective | src/ontology/health_ontology.py:80 | Different device ids get different nodes. |
| HealthOntology.MeasurementNodeInjective | src/ontology/health_ontology.py:72 | For one property, readings of different rows are different nodes. |
| HealthOntology.MeasurementNodeSameRow | src/ontology/health_ontology.py:72 | Within one row, two reading nodes are equal exactly when their properties are equal. |
| HealthOntology.AddMeasurementIdempotent | src/ontology/health_ontology.py:71-89 | Repeating an `add_measurement` call with the same arguments changes neither the graph nor the registry, and returns the same node. |
| HealthOntology.CoreFacts | src/ontology/health_ontology.py:39-46 | The seven facts every patient gets: typing, age, id, weight, height, stress level and mood. |
| HealthOntology.ConditionFacts | src/ontology/health_ontology.py:47-48 | The medical-condition fact, only when the condition is present. Its partner is `ConditionOnlyWhenPresent`. |
| HealthOntology.AlcoholFacts | src/ontology/health_ontology.py:50-54 | The alcohol-consumption fact, only for "Moderate" and "Heavy". Its partner is `AlcoholOnlyForTwoValues`. |
| HealthOntology.DemographicFacts | src/ontology/health_ontology.py:39-54 | All the demographic facts of one row. Its partners are `AlcoholOnlyForTwoValues`, `ConditionOnlyWhenPresent` and `DemographicFactsTypeNoMeasurement`. |
| HealthOntology.AlcoholOnlyForTwoValues | src/ontology/health_ontology.py:50-54 | An alcohol-consumption fact is emitted exactly for "Moderate" and "Heavy". |
| HealthOntology.ConditionOnlyWhenPresent | src/ontology/health_ontology.py:47-48 | A medical-condition fact is emitted exactly when the condition is present. |
| HealthOntology.DemographicFactsTypeNoMeasurement | src/ontology/health_ontology.py:40-54 | No demographic fact types anything as a Measurement. |
| HealthOntology.DeviceAxes | src/ontology/health_ontology.py:57-63 | `add_patient` makes seven `add_measurement` calls. |
| HealthOntology.MeasureAll | src/ontology/health_ontology.py:57-63 | A series of measurements only grows the graph and keeps every registered device's node. |
| HealthOntology.MeasuredStore | src/ontology/health_ontology.py:39-63 | The store after the demographic facts and the seven measurements of one row, as `add_patient` leaves it before scoring. |
| HealthOntology.MeasureAllKeepsRegistry | src/ontology/health_ontology.py:57-63 | A series of measurements keeps the registry consistent. |
| HealthOntology.SarefIsNotRdfType | src/ontology/health_ontology.py:76 | No SAREF URI is `RDF.type`. |
| HealthOntology.MeasureAllTypesOnlyPresentReadings | src/ontology/health_ontology.py:57-73 | A measurement typing added by a series of calls is on the reading node of a call whose value is present. |
| HealthOntology.MeasureAllRecords | src/ontology/health_ontology.py:57-89 | Each present axis of a series ends up with its reading facts, and with links through the device node that the final registry holds. |
| HealthOntology.BodyFatAndMuscleMassShareADevice | src/ontology/health_ontology.py:61-62 | When both values are present, the body-fat and muscle-mass readings are made by the same node, the muscle device's. |
| HealthOntology.WaterIntakeReadByTheSleepDevice | src/ontology/health_ontology.py:63 | A present water intake is measured by the sleep device's node, and the patient wears it. |
| HealthOntology.ScoreAxes | src/ontology/health_ontology.py:96-136 | `_add_fuzzy_scores` makes thirteen lookups. |
| HealthOntology.ScoreAxesKeys | src/ontology/health_ontology.py:96-109 | Every key it looks up is one of the thirteen score keys. |
| HealthOntology.ScoreSubjects | src/ontology/health_ontology.py:111-136 | Age and health score attach to the patient. Heart rate, temperature, blood oxygen, body fat, muscle mass and water intake attach to the reading node of the same property and row, and carry the same value. |
| HealthOntology.AxisScore | src/ontology/health_ontology.py:96-109 | One lookup of `_add_fuzzy_scores`. A missing key is a KeyError, a missing shape is the engine's StopIteration, and otherwise it gives the degrees. `AxisScoreSpec` states its contract. |
| HealthOntology.AxisScoreSpec | src/ontology/health_ontology.py:96-109 | One axis succeeds exactly when its key is in the table and its partition has all three shapes. A missing key is a KeyError for that key. On success, the degrees use the partition's labels and are empty exactly for a missing value. |
| HealthOntology.Scores | src/ontology/health_ontology.py:96-109 | All thirteen lookups are computed before any fact is added. The first failure stops them. `ScoresSucceed`, `ScoresValues` and `ScoresFirstFailure` state its contract. |
| HealthOntology.ScoresSucceed | src/ontology/health_ontology.py:96-109 | All scores are computed before anything is added. They succeed exactly when every axis succeeds. |
| HealthOntology.ScoresValues | src/ontology/health_ontology.py:96-109 | When the scores succeed, there is one (subject, degrees) pair per axis, in axis order, each holding that axis's own degrees. |
| HealthOntology.ScoresFirstFailure | src/ontology/health_ontology.py:96-109 | When the scores fail, the error is that of the first failing axis, and every earlier axis succeeded. |
| HealthOntology.FirstFailureLater | src/ontology/health_ontology.py:96-109 | If the first axis succeeds, the first failure of the remaining axes is the first failure of all of them. |
| HealthOntology.WellFormedAxesScore | src/ontology/health_ontology.py:96-109 | Axes whose keys name well-formed partitions are all scored. |
| HealthOntology.WellFormedTableNeverFails | src/ontology/health_ontology.py:96-109 | A table with a well-formed partition for each of the thirteen keys never makes `add_patient` fail. |
| HealthOntology.DegreeFactsOnInsert | src/ontology/health_ontology.py:111-112 | One more label adds exactly its degree fact. |
| HealthOntology.FuzzyFactsSnoc | src/ontology/health_ontology.py:111-136 | The facts of one more scored axis are added to those of the axes before it. |
| HealthOntology.DegreeFact | src/ontology/health_ontology.py:112 | The fact `(subject, EX[label], Literal(score, datatype=XSD.float))` for one label of one result. |
| HealthOntology.FuzzyFacts | src/ontology/health_ontology.py:111-136 | The degree facts of every label of every scored subject. `FuzzyFactsMembership` characterises them exactly. |
| HealthOntology.FuzzyFactsMembership | src/ontology/health_ontology.py:111-136 | A triple is a fuzzy fact exactly when it is `(subject, EX[label], degree)` for a label in that subject's degrees. |
| HealthOntology.FuzzyFactsOnlyForPresentValues | src/ontology/health_ontology.py:96-136 | Every fuzzy fact belongs to an axis whose value is present, and its predicate is a label of that axis's partition. |
| HealthOntology.FuzzyFactsAreNotTypings | src/ontology/health_ontology.py:111-136 | No fuzzy fact is a typing statement. |
| HealthOntology.AddFuzzyScoresStep | src/ontology/health_ontology.py:95-136 | The registry is unchanged and the graph only grows. On an error, nothing is added. |
| HealthOntology.AddPatientStep | src/ontology/health_ontology.py:38-65 | `add_patient` keeps the old graph and adds the demographic facts. Every registered device stays registered, with its node. |
| HealthOntology.AddPatientGrows | src/ontology/health_ontology.py:38-65 | `add_patient` keeps the old graph and adds the demographic facts. Registered devices keep their nodes, and a consistent registry stays consistent. |
| HealthOntology.AddPatientError | src/ontology/health_ontology.py:57-109 | `add_patient` fails exactly when some axis fails, with the first failing axis's error. The demographic facts and measurements stay, and no fuzzy fact is added. |
| HealthOntology.AddPatientTypesOnlyPresentReadings | src/ontology/health_ontology.py:38-136 | A node that `add_patient` newly types as a Measurement is the reading node of a present device-backed value. |
| HealthOntology.AbsentReadingNotTyped | src/ontology/health_ontology.py:71-73 | A missing device-backed value leaves its reading node untyped. |
| HealthOntology.CalorieScoreNodeIsNoReading | src/ontology/health_ontology.py:119-120 | `CalorieIntake{n}` is never the reading node that line 72 creates for any of the seven properties, in any row. |
| HealthOntology.CalorieScoreNodeNeverTyped | src/ontology/health_ontology.py:119-120 | `add_patient` never types the calorie-degree subject as a Measurement. |
| HealthOntology.Ontology.constructor | src/ontology/health_ontology.py:7-14 | The graph starts as the base ontology plus one declaration per label, with an empty, consistent registry. |
| HealthOntology.Ontology.Add | src/ontology/health_ontology.py:36 | `g.add` is set insertion. It leaves the registry alone and keeps it consistent. |
| HealthOntology.Ontology.DefineLabels | src/ontology/health_ontology.py:24-36 | The loop adds exactly the declarations of the listed labels and keeps the registry consistent. |
| HealthOntology.Ontology.AddMeasurement | src/ontology/health_ontology.py:67-92 | It computes `AddMeasurementStep` in place and keeps the registry consistent. |
| HealthOntology.Ontology.AddScored | src/ontology/health_ontology.py:111-136 | The loops over the degree maps add exactly the fuzzy facts of the scored axes and keeps the registry consistent. |
| HealthOntology.Ontology.AddFuzzyScores | src/ontology/health_ontology.py:95-136 | It computes `AddFuzzyScoresStep` in place and keeps the registry consistent. |
| HealthOntology.Ontology.AddDemographics | src/ontology/health_ontology.py:40-54 | It adds exactly the demographic facts and keeps the registry consistent. |
| HealthOntology.Ontology.AddDeviceMeasurements | src/ontology/health_ontology.py:57-63 | The seven calls compute `MeasureAll` in place and keep the registry consistent. |
| HealthOntology.Ontology.AddPatient | src/ontology/health_ontology.py:38-65 | It computes `AddPatientStep` in place and keeps the registry consistent. |
| Pipeline.ConfigKeysAreScoreKeys | src/fuzzy/fuzzy_logic_config.py:1-79 | The table's keys are exactly the thirteen keys that `_add_fuzzy_scores` reads. |
| Pipeline.ConfigNeverFails | src/main.py:13-19 | With the module table, `add_patient` never raises, whatever the row. |
| Pipeline.ModuleLabelsDeclareFirstAxes | src/ontology/health_ontology.py:24-34 | The labels of the first eight axes are all declared. |
| Pipeline.ModuleLabelsOmitSleepAndScore | src/ontology/health_ontology.py:24-34 | None of the sleep, wakeup or health-score labels is declared. |
| FullScript.InlineTableKeys | full.py:244-317 | The inline table has the thirteen score keys plus "wakeupduration", which no lookup reads. |
| FullScript.InlineTableWellFormed | full.py:244-317 | Every inline partition is well formed. |
| FullScript.InlineTableNeverFails | full.py:190-204 | With the inline table, the script's `add_patient` never raises. |
| FullScript.RemSleepUsesWakeupLabels | full.py:301-310 | The inline REM-sleep partition gives the same degrees as the wakeup one, for every value. Its labels are the wakeup labels, none of them a REM label. |
| FullScript.ScriptLabelsExtendModuleLabels | full.py:114-129 | The script's 39 labels start with the module's 24. |
| FullScript.ScriptLabelsDeclareInlineTable | full.py:114-131 | Every label of the inline table is declared. |

## Left out

- `norm.pdf` and `round(·, 2)` are parameters. Nothing is assumed of them beyond the density being non-negative. The rounded pair is not claimed to sum to 1.00.
- Floating point in general: values and table constants are exact reals, so binary-float rounding of the comparisons is not modelled.
- For a range with `lo >= hi`, scipy returns NaN for a non-positive spread. The model does not capture this. The density parameter is total, and the tables only have positive spreads.
- rdflib beyond set insertion is not modelled: `Graph.parse` of the base ontology is the constructor's `base` parameter, `_bind_namespaces` has no effect on the triple set, and `save` (Turtle serialisation) is left out.
- rdflib's `Literal` coercion is not modelled. A literal keeps the Python value and the XSD tag it was given, so two literals that rdflib would normalise to one are kept apart.
- pandas: `read_excel` and `iterrows` are left out. `pd.notna` is the `Option` test. A NaN in a string column (stress, mood, timestamp, device id) is not modelled: those fields are plain strings.
- The `Patient` constructor's row lookup is not modelled, so a missing column (KeyError) is not captured. The record is built with its fields already read.
- src/main.py is I/O only. The model covers only its wiring, in `Pipeline`. The `models.patient` and `fuzzy.fuzzy_set` modules it imports are not part of this model.
- The unused `FuzzySet` class of full.py (lines 10-16) and full.py's main block, apart from its inline table, are left out.
- The order in which `g.add` calls happen within one fuzzy-score loop (dict iteration order) is not modelled, because the graph is a set.
- The source has no separate methods `AddScored`, `AddDemographics` and `AddDeviceMeasurements`. Each one groups consecutive statements of `_add_fuzzy_scores` or `add_patient`, and the source's behaviour is unchanged.
