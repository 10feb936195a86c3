/**
 * The graph assembler `HealthOntology` of src/ontology/health_ontology.py (and
 * its copy in full.py).  The rdflib graph is a set of triples whose only
 * operation used here is `add`, set insertion; the device registry is a map
 * from device identifier to device node.
 *
 * Each state change is specified twice over: a pure step function on a
 * `Store` value (the graph and the registry) that the lemmas talk about, and a
 * method of the class `Ontology` that performs the same change on its fields
 * one `add` at a time and is proved equal to the step function.
 */
module HealthOntology {
  import opened Wrappers
  import opened FuzzyLogic
  import opened GraphTerms
  import opened PatientRecord

  /** The two mutable fields of the assembler, as one value. */
  datatype Store = Store(g: set<Triple>, devices: map<DeviceId, Term>)

  /** The configuration table handed to `add_patient`: axis key to partition. */
  type Table = map<string, Partition>

  // ---------------------------------------------------------------------------
  // _define_labels
  // ---------------------------------------------------------------------------

  /** The label list of `_define_labels` in src/ontology/health_ontology.py. */
  const ModuleLabels: seq<string> := [
    "Young", "Adult", "Old",
    "LowHeartRate", "MediumHeartRate", "HighHeartRate",
    "LowBloodOxygen", "MediumBloodOxygen", "HighBloodOxygen",
    "LowCalorieIntake", "MediumCalorieIntake", "HighCalorieIntake",
    "LowTemperature", "MediumTemperature", "HighTemperature",
    "LowBodyFat", "MediumBodyFat", "HighBodyFat",
    "LowMuscleMass", "MediumMuscleMass", "HighMuscleMass",
    "LowWaterIntake", "MediumWaterIntake", "HighWaterIntake"
  ]

  /** `(EX[label], RDF.type, OWL.AnnotationProperty)`. */
  function LabelFact(name: string): Triple
  {
    Triple(Ex(name), RdfType, AnnotationProperty)
  }

  /** The annotation-property declarations of a list of labels. */
  function LabelFacts(labels: seq<string>): set<Triple>
  {
    set l | l in labels :: LabelFact(l)
  }

  /** Distinct labels give distinct declarations: one triple per listed label. */
  lemma {:induction false} LabelFactsCount(labels: seq<string>)
    requires forall i, j :: 0 <= i < j < |labels| ==> labels[i] != labels[j]
    ensures |LabelFacts(labels)| == |labels|
  {
    if labels != [] {
      var n := |labels| - 1;
      var init := labels[..n];
      LabelFactsCount(init);
      assert labels == init + [labels[n]];
      assert LabelFacts(labels) == LabelFacts(init) + {LabelFact(labels[n])};
      forall l | l in init
        ensures LabelFact(l) != LabelFact(labels[n])
      {
        ExInjective(l, labels[n]);
      }
    }
  }

  // ---------------------------------------------------------------------------
  // add_measurement
  // ---------------------------------------------------------------------------

  /** `EX[f"{property_name}Reading{idx + 1}"]`. */
  function MeasurementNode(prop: string, idx: nat): Term
  {
    Numbered(prop + "Reading", idx)
  }

  /** `EX[f"Device{device_id}"]`. */
  function DeviceNode(dev: DeviceId): Term
  {
    Ex("Device" + dev)
  }

  /** The class every measurement node is typed with. */
  const MeasurementClass: Term := Ex("Measurement")

  /** The facts about a reading itself and its property (lines 73-77). */
  function ReadingFacts(m: Term, value: real, prop: string, ts: string): set<Triple>
  {
    {
      Triple(m, RdfType, MeasurementClass),
      Triple(m, Ex("value"), Literal(Number(Some(value)), Untyped)),
      Triple(m, Ex("timestamp"), Literal(Text(ts), XsdDateTimeStamp)),
      Triple(m, Saref("relatesToProperty"), Ex(prop)),
      Triple(Ex(prop), Saref("relatesToMeasurement"), m)
    }
  }

  /** The facts declaring a device the first time it is seen (lines 81-82). */
  function DeviceFacts(dev: DeviceId): set<Triple>
  {
    {
      Triple(DeviceNode(dev), RdfType, Ex("MedicalObject")),
      Triple(DeviceNode(dev), Ex("deviceId"), Literal(Text(dev), Untyped))
    }
  }

  /** The facts linking device, patient and reading (lines 87-89). */
  function LinkFacts(person: Term, device: Term, m: Term): set<Triple>
  {
    {
      Triple(device, Saref("makesMeasurement"), m),
      Triple(person, Ex("hasMeasurement"), m),
      Triple(person, Ex("wears"), device)
    }
  }

  /**
   * `add_measurement` on a store: nothing happens for a missing value;
   * otherwise the reading node is returned, its facts are added, and the
   * device is registered on first sight and reused afterwards.
   */
  function AddMeasurementStep(s: Store, person: Term, value: Option<real>, dev: DeviceId,
                              prop: string, idx: nat, ts: string): (r: (Store, Option<Term>))
    ensures s.g <= r.0.g
    ensures value.None? ==> r == (s, None)
    ensures value.Some? ==> r.1 == Some(MeasurementNode(prop, idx))
    ensures value.Some? && dev in s.devices ==> r.0.devices == s.devices
    ensures value.Some? && dev !in s.devices ==>
      r.0.devices == s.devices[dev := DeviceNode(dev)] && DeviceFacts(dev) <= r.0.g
    ensures value.Some? ==>
      var m := MeasurementNode(prop, idx);
      dev in r.0.devices && ReadingFacts(m, value.value, prop, ts) + LinkFacts(person, r.0.devices[dev], m) <= r.0.g
    ensures value.Some? && dev in s.devices ==>
      var m := MeasurementNode(prop, idx);
      r.0.g == s.g + ReadingFacts(m, value.value, prop, ts) + LinkFacts(person, s.devices[dev], m)
    ensures value.Some? && dev !in s.devices ==>
      var m := MeasurementNode(prop, idx);
      r.0.g == s.g + ReadingFacts(m, value.value, prop, ts) + DeviceFacts(dev) + LinkFacts(person, DeviceNode(dev), m)
  {
    if value.None? then (s, None)
    else
      var m := MeasurementNode(prop, idx);
      var g1 := s.g + ReadingFacts(m, value.value, prop, ts);
      var known := dev in s.devices;
      var device := if known then s.devices[dev] else DeviceNode(dev);
      var g2 := if known then g1 else g1 + DeviceFacts(dev);
      var devices := if known then s.devices else s.devices[dev := device];
      (Store(g2 + LinkFacts(person, device, m), devices), Some(m))
  }

  /** Every registered device maps to its own node, declared in the graph. */
  ghost predicate RegistryConsistent(s: Store)
  {
    forall dev :: dev in s.devices ==> s.devices[dev] == DeviceNode(dev) && DeviceFacts(dev) <= s.g
  }

  /** Growing the graph keeps the registry consistent. */
  lemma RegistryConsistentGrows(s: Store, g': set<Triple>)
    requires RegistryConsistent(s) && s.g <= g'
    ensures RegistryConsistent(Store(g', s.devices))
  {
  }

  /** `add_measurement` keeps the registry consistent. */
  lemma AddMeasurementKeepsRegistry(s: Store, person: Term, value: Option<real>, dev: DeviceId,
                                    prop: string, idx: nat, ts: string)
    requires RegistryConsistent(s)
    ensures RegistryConsistent(AddMeasurementStep(s, person, value, dev, prop, idx, ts).0)
  {
  }

  /**
   * Two readings from the same device: the second reuses the node the first
   * registered (or found), the registry gains at most that one entry, and both
   * `makesMeasurement` facts start at that node.
   */
  lemma SameDeviceSameNode(s: Store, person1: Term, v1: real, person2: Term, v2: real, dev: DeviceId,
                           prop1: string, idx1: nat, ts1: string, prop2: string, idx2: nat, ts2: string)
    ensures var s1 := AddMeasurementStep(s, person1, Some(v1), dev, prop1, idx1, ts1).0;
      var s2 := AddMeasurementStep(s1, person2, Some(v2), dev, prop2, idx2, ts2).0;
      && s2.devices == s1.devices
      && s2.devices.Keys == s.devices.Keys + {dev}
      && Triple(s2.devices[dev], Saref("makesMeasurement"), MeasurementNode(prop1, idx1)) in s2.g
      && Triple(s2.devices[dev], Saref("makesMeasurement"), MeasurementNode(prop2, idx2)) in s2.g
      && (RegistryConsistent(s) ==> s2.devices[dev] == DeviceNode(dev))
  {
  }

  /** Different devices get different nodes. */
  lemma DeviceNodeInjective(d1: DeviceId, d2: DeviceId)
    requires DeviceNode(d1) == DeviceNode(d2)
    ensures d1 == d2
  {
    ExInjective("Device" + d1, "Device" + d2);
    assert d1 == ("Device" + d1)[6..];
    assert d2 == ("Device" + d2)[6..];
  }

  /** Readings of one property in different rows are different nodes. */
  lemma MeasurementNodeInjective(prop: string, i: nat, j: nat)
    requires MeasurementNode(prop, i) == MeasurementNode(prop, j)
    ensures i == j
  {
    NumberedInjective(prop + "Reading", i, j);
  }

  // ---------------------------------------------------------------------------
  // add_patient: demographic facts
  // ---------------------------------------------------------------------------

  /** The alcohol link: only the two recognised values produce a fact. */
  function AlcoholFacts(person: Term, alcohol: Option<string>): set<Triple>
  {
    if alcohol == Some("Moderate") then {Triple(person, Ex("alcoholConsumption"), Ex("ModerateAlcoholConsumption"))}
    else if alcohol == Some("Heavy") then {Triple(person, Ex("alcoholConsumption"), Ex("HeavyAlcoholConsumption"))}
    else {}
  }

  /** The condition link, only when the value is present. */
  function ConditionFacts(person: Term, disease: Option<string>): set<Triple>
  {
    if disease.Some? then {Triple(person, Ex("medicalCondition"), Ex(disease.value))} else {}
  }

  /** The seven unconditional facts of lines 40-48. */
  function CoreFacts(person: Term, p: Patient): set<Triple>
  {
    {
      Triple(person, RdfType, Ex("Patient")),
      Triple(person, Ex("age"), Literal(Number(p.age), XsdInteger)),
      Triple(person, Ex("patientId"), Literal(Text(p.id), XsdString)),
      Triple(person, Ex("weight"), Literal(Number(p.weight), XsdFloat)),
      Triple(person, Ex("height"), Literal(Number(p.height), XsdFloat)),
      Triple(person, Ex("stressLevel"), Ex(p.stress)),
      Triple(person, Ex("mood"), Ex(p.mood))
    }
  }

  /** The facts of lines 40-54. */
  function DemographicFacts(person: Term, p: Patient): set<Triple>
  {
    CoreFacts(person, p) + ConditionFacts(person, p.disease) + AlcoholFacts(person, p.alcohol)
  }

  /** An alcohol-consumption fact is emitted exactly for "Moderate" and "Heavy". */
  lemma AlcoholOnlyForTwoValues(person: Term, p: Patient)
    ensures (exists o :: Triple(person, Ex("alcoholConsumption"), o) in DemographicFacts(person, p))
        <==> p.alcohol == Some("Moderate") || p.alcohol == Some("Heavy")
  {
    ExIsNotRdfType("alcoholConsumption");
    if p.alcohol == Some("Moderate") {
      assert Triple(person, Ex("alcoholConsumption"), Ex("ModerateAlcoholConsumption")) in DemographicFacts(person, p);
    } else if p.alcohol == Some("Heavy") {
      assert Triple(person, Ex("alcoholConsumption"), Ex("HeavyAlcoholConsumption")) in DemographicFacts(person, p);
    }
  }

  /** A medical-condition fact is emitted exactly when the condition is present. */
  lemma ConditionOnlyWhenPresent(person: Term, p: Patient)
    ensures (exists o :: Triple(person, Ex("medicalCondition"), o) in DemographicFacts(person, p))
        <==> p.disease.Some?
  {
    ExIsNotRdfType("medicalCondition");
    if p.disease.Some? {
      assert Triple(person, Ex("medicalCondition"), Ex(p.disease.value)) in DemographicFacts(person, p);
    }
  }

  // ---------------------------------------------------------------------------
  // add_patient: the seven device-backed measurements
  // ---------------------------------------------------------------------------

  /** One `add_measurement` call of `add_patient`: property name, value, device. */
  datatype DeviceAxis = DeviceAxis(prop: string, value: Option<real>, device: DeviceId)

  /**
   * The seven calls of lines 57-63, in order.  Body fat is read with the
   * muscle device and water intake with the sleep device, as written.
   */
  function DeviceAxes(p: Patient): (axes: seq<DeviceAxis>)
    ensures |axes| == 7
  {
    [
      DeviceAxis("HeartRate", p.heart, p.devheart),
      DeviceAxis("Temperature", p.temp, p.devtem),
      DeviceAxis("BloodOxygen", p.blood, p.devblood),
      DeviceAxis("CalorieIntake", p.calorie, p.devcalorie),
      DeviceAxis("BodyFat", p.bodyfat, p.devmuscle),
      DeviceAxis("MuscleMass", p.muscle, p.devmuscle),
      DeviceAxis("WaterIntake", p.waterIntake, p.devsleep)
    ]
  }

  /** The store after a series of `add_measurement` calls for one patient and row. */
  function MeasureAll(s: Store, person: Term, axes: seq<DeviceAxis>, idx: nat, ts: string): (r: Store)
    ensures s.g <= r.g
    ensures s.devices.Keys <= r.devices.Keys
    ensures forall dev :: dev in s.devices ==> r.devices[dev] == s.devices[dev]
    decreases |axes|
  {
    if axes == [] then s
    else
      var a := axes[0];
      MeasureAll(AddMeasurementStep(s, person, a.value, a.device, a.prop, idx, ts).0, person, axes[1..], idx, ts)
  }

  /** A non-empty series is its first call followed by the rest. */
  lemma MeasureAllFirst(s: Store, person: Term, axes: seq<DeviceAxis>, idx: nat, ts: string)
    requires axes != []
    ensures MeasureAll(s, person, axes, idx, ts)
      == MeasureAll(AddMeasurementStep(s, person, axes[0].value, axes[0].device, axes[0].prop, idx, ts).0, person, axes[1..], idx, ts)
  {
  }

  /** A series of `add_measurement` calls keeps the registry consistent. */
  lemma {:induction false} MeasureAllKeepsRegistry(s: Store, person: Term, axes: seq<DeviceAxis>, idx: nat, ts: string)
    requires RegistryConsistent(s)
    ensures RegistryConsistent(MeasureAll(s, person, axes, idx, ts))
    decreases |axes|
  {
    if axes != [] {
      var a := axes[0];
      var s1 := AddMeasurementStep(s, person, a.value, a.device, a.prop, idx, ts).0;
      AddMeasurementKeepsRegistry(s, person, a.value, a.device, a.prop, idx, ts);
      MeasureAllKeepsRegistry(s1, person, axes[1..], idx, ts);
    }
  }

  /** A predicate URI used by the assembler other than `RDF.type`. */
  lemma SarefIsNotRdfType(n: string)
    ensures Saref(n) != RdfType
  {
    assert Saref(n).iri[4] == 's';
    assert RdfType.iri[4] == ':';
  }

  /**
   * The only nodes a series of `add_measurement` calls types as measurements
   * are the reading nodes of the calls whose value is present.
   */
  lemma {:induction false} MeasureAllTypesOnlyPresentReadings(s: Store, person: Term, axes: seq<DeviceAxis>, idx: nat, ts: string, t: Triple)
    requires t in MeasureAll(s, person, axes, idx, ts).g && t !in s.g
    requires t.p == RdfType && t.o == MeasurementClass
    ensures exists i :: 0 <= i < |axes| && axes[i].value.Some? && t.s == MeasurementNode(axes[i].prop, idx)
    decreases |axes|
  {
    var a := axes[0];
    var s1 := AddMeasurementStep(s, person, a.value, a.device, a.prop, idx, ts).0;
    if t in s1.g {
      assert a.value.Some?;
      var m := MeasurementNode(a.prop, idx);
      ExInjective("MedicalObject", "Measurement");
      ExIsNotRdfType("value");
      ExIsNotRdfType("timestamp");
      ExIsNotRdfType("deviceId");
      ExIsNotRdfType("hasMeasurement");
      ExIsNotRdfType("wears");
      SarefIsNotRdfType("relatesToProperty");
      SarefIsNotRdfType("relatesToMeasurement");
      SarefIsNotRdfType("makesMeasurement");
      assert t.s == m;
    } else {
      MeasureAllTypesOnlyPresentReadings(s1, person, axes[1..], idx, ts, t);
      var i :| 0 <= i < |axes[1..]| && axes[1..][i].value.Some? && t.s == MeasurementNode(axes[1..][i].prop, idx);
      assert axes[i + 1] == axes[1..][i];
    }
  }

  /** The store after the demographic facts and the seven measurements (lines 39-63). */
  function MeasuredStore(s: Store, p: Patient, idx: nat): Store
  {
    var person := Ex(p.id);
    MeasureAll(Store(s.g + DemographicFacts(person, p), s.devices), person, DeviceAxes(p), idx, p.timestamp)
  }

  // ---------------------------------------------------------------------------
  // _add_fuzzy_scores
  // ---------------------------------------------------------------------------

  /** One `get_membership_degrees` call of `_add_fuzzy_scores`: table key, value, and the node its degrees attach to. */
  datatype ScoreAxis = ScoreAxis(key: string, value: Option<real>, subject: Term)

  /**
   * The thirteen calls of lines 96-109 with the subjects of lines 111-136.
   * Age and health score attach to the patient, the others to numbered
   * reading nodes; the calorie node lacks the word "Reading".
   */
  function ScoreAxes(person: Term, p: Patient, idx: nat): (axes: seq<ScoreAxis>)
    ensures |axes| == 13
  {
    [
      ScoreAxis("age", p.age, person),
      ScoreAxis("heart", p.heart, Numbered("HeartRateReading", idx)),
      ScoreAxis("temperature", p.temp, Numbered("TemperatureReading", idx)),
      ScoreAxis("bloodoxygen", p.blood, Numbered("BloodOxygenReading", idx)),
      ScoreAxis("calorie", p.calorie, Numbered("CalorieIntake", idx)),
      ScoreAxis("bodyfat", p.bodyfat, Numbered("BodyFatReading", idx)),
      ScoreAxis("musclemass", p.muscle, Numbered("MuscleMassReading", idx)),
      ScoreAxis("waterIntake", p.waterIntake, Numbered("WaterIntakeReading", idx)),
      ScoreAxis("normalsleep", p.normalsleep, Numbered("NormalSleepReading", idx)),
      ScoreAxis("deepsleep", p.deepsleep, Numbered("DeepSleepReading", idx)),
      ScoreAxis("remsleep", p.remsleep, Numbered("REMSleepReading", idx)),
      ScoreAxis("wakeup", p.wakeup, Numbered("WakeupsReading", idx)),
      ScoreAxis("score", p.score, person)
    ]
  }

  /** The thirteen keys `_add_fuzzy_scores` reads from the table. */
  const ScoreKeys: set<string> := {
    "age", "heart", "temperature", "bloodoxygen", "calorie", "bodyfat", "musclemass",
    "waterIntake", "normalsleep", "deepsleep", "remsleep", "wakeup", "score"
  }

  /** What `_add_fuzzy_scores` raises: a KeyError for an axis, or a StopIteration for a shape. */
  datatype ScoreError = MissingAxis(key: string) | MissingShape(key: string, shape: Shape)

  /** One axis: the table lookup (KeyError) and then the engine (StopIteration). */
  function AxisScore(a: ScoreAxis, table: Table, ops: FloatOps): Result<Degrees, ScoreError>
  {
    if a.key !in table then Failure(MissingAxis(a.key))
    else match MembershipDegrees(a.value, table[a.key], ops)
      case Failure(shape) => Failure(MissingShape(a.key, shape))
      case Success(d) => Success(d)
  }

  /**
   * One axis succeeds exactly when its key is in the table and its partition
   * has all three shapes; its degrees use that partition's labels and are
   * empty exactly for a missing value.
   */
  lemma AxisScoreSpec(a: ScoreAxis, table: Table, ops: FloatOps)
    ensures var r := AxisScore(a, table, ops);
      && (r.Success? <==> a.key in table && HasAllShapes(table[a.key]))
      && (r.Failure? ==> r.error.key == a.key)
      && (r.Failure? && a.key !in table ==> r.error == MissingAxis(a.key))
      && (r.Success? ==> r.value.Keys <= Labels(table[a.key]) && (r.value == map[] <==> a.value.None?))
  {
  }

  /** Axis `i` is the first of `axes` whose score fails, and it fails with `e`. */
  predicate FailsFirstAt(axes: seq<ScoreAxis>, table: Table, ops: FloatOps, e: ScoreError, i: int)
  {
    && 0 <= i < |axes|
    && AxisScore(axes[i], table, ops) == Failure(e)
    && forall j :: 0 <= j < i ==> AxisScore(axes[j], table, ops).Success?
  }

  /** Some axis of `axes` is the first to fail, and it fails with `e`. */
  ghost predicate FirstFailure(axes: seq<ScoreAxis>, table: Table, ops: FloatOps, e: ScoreError)
  {
    exists i :: FailsFirstAt(axes, table, ops, e, i)
  }

  /**
   * The scores of a series of axes, all computed before anything is added:
   * the first axis that fails decides the error, otherwise every axis has
   * its subject and degrees (lemmas `ScoresSucceed`, `ScoresValues` and
   * `ScoresFirstFailure`).
   */
  function Scores(axes: seq<ScoreAxis>, table: Table, ops: FloatOps): Result<seq<(Term, Degrees)>, ScoreError>
  {
    if axes == [] then Success([])
    else
      match AxisScore(axes[0], table, ops)
      case Failure(e) => Failure(e)
      case Success(d) =>
        match Scores(axes[1..], table, ops)
        case Failure(e) => Failure(e)
        case Success(tail) => Success([(axes[0].subject, d)] + tail)
  }

  /** The scores succeed exactly when every axis does. */
  lemma {:induction false} ScoresSucceed(axes: seq<ScoreAxis>, table: Table, ops: FloatOps)
    ensures Scores(axes, table, ops).Success? <==> forall i :: 0 <= i < |axes| ==> AxisScore(axes[i], table, ops).Success?
    decreases |axes|
  {
    if axes != [] {
      ScoresSucceed(axes[1..], table, ops);
      assert forall i :: 1 <= i < |axes| ==> axes[i] == axes[1..][i - 1];
    }
  }

  /** On success, one (subject, degrees) pair per axis, in order. */
  lemma {:induction false} ScoresValues(axes: seq<ScoreAxis>, table: Table, ops: FloatOps)
    requires Scores(axes, table, ops).Success?
    ensures var scored := Scores(axes, table, ops).value;
      && |scored| == |axes|
      && forall i :: 0 <= i < |axes| ==>
        AxisScore(axes[i], table, ops).Success? && scored[i] == (axes[i].subject, AxisScore(axes[i], table, ops).value)
    decreases |axes|
  {
    if axes != [] {
      var d := AxisScore(axes[0], table, ops).value;
      var tail := Scores(axes[1..], table, ops).value;
      var scored := [(axes[0].subject, d)] + tail;
      assert Scores(axes, table, ops).value == scored;
      ScoresValues(axes[1..], table, ops);
      forall i | 1 <= i < |axes|
        ensures AxisScore(axes[i], table, ops).Success? && scored[i] == (axes[i].subject, AxisScore(axes[i], table, ops).value)
      {
        assert axes[i] == axes[1..][i - 1] && scored[i] == tail[i - 1];
      }
    }
  }

  /** On failure, the error is that of the first failing axis. */
  lemma {:induction false} ScoresFirstFailure(axes: seq<ScoreAxis>, table: Table, ops: FloatOps)
    requires Scores(axes, table, ops).Failure?
    ensures FirstFailure(axes, table, ops, Scores(axes, table, ops).error)
    decreases |axes|
  {
    var e := Scores(axes, table, ops).error;
    if AxisScore(axes[0], table, ops).Failure? {
      assert FailsFirstAt(axes, table, ops, e, 0);
    } else {
      ScoresFirstFailure(axes[1..], table, ops);
      FirstFailureLater(axes, table, ops, e);
    }
  }

  /** A first failure after a successful first axis is the first failure of the whole series. */
  lemma FirstFailureLater(axes: seq<ScoreAxis>, table: Table, ops: FloatOps, e: ScoreError)
    requires axes != [] && AxisScore(axes[0], table, ops).Success?
    requires FirstFailure(axes[1..], table, ops, e)
    ensures FirstFailure(axes, table, ops, e)
  {
    var i :| FailsFirstAt(axes[1..], table, ops, e, i);
    assert AxisScore(axes[i + 1], table, ops) == Failure(e) by { assert axes[i + 1] == axes[1..][i]; }
    forall j | 0 <= j < i + 1
      ensures AxisScore(axes[j], table, ops).Success?
    {
      if j > 0 { assert axes[j] == axes[1..][j - 1]; }
    }
    assert FailsFirstAt(axes, table, ops, e, i + 1);
  }

  /** `(subject, EX[label], Literal(score, datatype=XSD.float))`. */
  function DegreeFact(subject: Term, name: string, degree: real): Triple
  {
    Triple(subject, Ex(name), Literal(Number(Some(degree)), XsdFloat))
  }

  /** The facts for those labels of `keys` that a result holds. */
  function DegreeFactsOn(subject: Term, d: Degrees, keys: set<string>): set<Triple>
  {
    set k | k in keys && k in d :: DegreeFact(subject, k, d[k])
  }

  /** The facts of a series of scored axes. */
  function FuzzyFacts(scored: seq<(Term, Degrees)>): set<Triple>
  {
    if scored == [] then {}
    else
      var last := scored[|scored| - 1];
      FuzzyFacts(scored[..|scored| - 1]) + DegreeFactsOn(last.0, last.1, last.1.Keys)
  }

  /** Extending the key set by one label adds that label's fact. */
  lemma DegreeFactsOnInsert(subject: Term, d: Degrees, keys: set<string>, name: string)
    requires name in d
    ensures DegreeFactsOn(subject, d, keys + {name}) == DegreeFactsOn(subject, d, keys) + {DegreeFact(subject, name, d[name])}
  {
  }

  /** The facts of a prefix one longer add the facts of the next scored axis. */
  lemma FuzzyFactsSnoc(scored: seq<(Term, Degrees)>, i: nat)
    requires i < |scored|
    ensures FuzzyFacts(scored[..i + 1]) == FuzzyFacts(scored[..i]) + DegreeFactsOn(scored[i].0, scored[i].1, scored[i].1.Keys)
  {
    assert scored[..i + 1][..i] == scored[..i];
  }

  /** `_add_fuzzy_scores` on a store: all or nothing. */
  function AddFuzzyScoresStep(s: Store, person: Term, p: Patient, idx: nat, table: Table, ops: FloatOps): (r: (Store, Option<ScoreError>))
    ensures r.0.devices == s.devices && s.g <= r.0.g
    ensures r.1.Some? ==> r.0 == s
  {
    match Scores(ScoreAxes(person, p, idx), table, ops)
    case Failure(e) => (s, Some(e))
    case Success(scored) => (Store(s.g + FuzzyFacts(scored), s.devices), None)
  }

  /** `add_patient` on a store: demographics, seven measurements, then the fuzzy scores. */
  function AddPatientStep(s: Store, p: Patient, idx: nat, table: Table, ops: FloatOps): (r: (Store, Option<ScoreError>))
    ensures s.g + DemographicFacts(Ex(p.id), p) <= r.0.g
    ensures s.devices.Keys <= r.0.devices.Keys
    ensures forall dev :: dev in s.devices ==> r.0.devices[dev] == s.devices[dev]
  {
    AddFuzzyScoresStep(MeasuredStore(s, p, idx), Ex(p.id), p, idx, table, ops)
  }

  // ---------------------------------------------------------------------------
  // Properties of a whole add_patient call
  // ---------------------------------------------------------------------------

  /** Repeating an `add_measurement` call with the same arguments changes nothing. */
  lemma AddMeasurementIdempotent(s: Store, person: Term, value: Option<real>, dev: DeviceId,
                                 prop: string, idx: nat, ts: string)
    ensures var r := AddMeasurementStep(s, person, value, dev, prop, idx, ts);
      AddMeasurementStep(r.0, person, value, dev, prop, idx, ts) == r
  {
    if value.Some? {
      var r := AddMeasurementStep(s, person, value, dev, prop, idx, ts);
      var m := MeasurementNode(prop, idx);
      var again := AddMeasurementStep(r.0, person, value, dev, prop, idx, ts);
      assert dev in r.0.devices;
      assert again.0.devices == r.0.devices;
      assert again.0.g == r.0.g + ReadingFacts(m, value.value, prop, ts) + LinkFacts(person, r.0.devices[dev], m);
      assert again.0.g == r.0.g;
    }
  }

  /** Within one row, reading nodes of different properties are different. */
  lemma MeasurementNodeSameRow(prop1: string, prop2: string, idx: nat)
    ensures MeasurementNode(prop1, idx) == MeasurementNode(prop2, idx) <==> prop1 == prop2
  {
    var digits := NatToString(idx + 1);
    var n1, n2 := prop1 + "Reading" + digits, prop2 + "Reading" + digits;
    ExInjective(n1, n2);
    assert prop1 == n1[..|prop1|];
    assert prop2 == n2[..|prop2|];
  }

  /**
   * Every axis of a series whose value is present leaves its reading facts
   * and its links in the final store, through the device node the registry
   * holds at the end.
   */
  lemma {:induction false} MeasureAllRecords(s: Store, person: Term, axes: seq<DeviceAxis>, idx: nat, ts: string, k: nat)
    requires k < |axes| && axes[k].value.Some?
    ensures var r := MeasureAll(s, person, axes, idx, ts);
      var a, m := axes[k], MeasurementNode(axes[k].prop, idx);
      && a.device in r.devices
      && ReadingFacts(m, a.value.value, a.prop, ts) + LinkFacts(person, r.devices[a.device], m) <= r.g
    decreases |axes|
  {
    var a := axes[0];
    var s1 := AddMeasurementStep(s, person, a.value, a.device, a.prop, idx, ts).0;
    if k == 0 {
      assert MeasureAll(s, person, axes, idx, ts) == MeasureAll(s1, person, axes[1..], idx, ts);
    } else {
      MeasureAllRecords(s1, person, axes[1..], idx, ts, k - 1);
      assert axes[1..][k - 1] == axes[k];
    }
  }

  /**
   * Body fat and muscle mass are both read from the muscle device: when both
   * are present, their readings are made by one and the same device node.
   */
  lemma BodyFatAndMuscleMassShareADevice(s: Store, p: Patient, idx: nat, table: Table, ops: FloatOps)
    requires p.bodyfat.Some? && p.muscle.Some?
    ensures var r := AddPatientStep(s, p, idx, table, ops).0;
      && p.devmuscle in r.devices
      && Triple(r.devices[p.devmuscle], Saref("makesMeasurement"), MeasurementNode("BodyFat", idx)) in r.g
      && Triple(r.devices[p.devmuscle], Saref("makesMeasurement"), MeasurementNode("MuscleMass", idx)) in r.g
  {
    var person := Ex(p.id);
    var s0 := Store(s.g + DemographicFacts(person, p), s.devices);
    MeasureAllRecords(s0, person, DeviceAxes(p), idx, p.timestamp, 4);
    MeasureAllRecords(s0, person, DeviceAxes(p), idx, p.timestamp, 5);
  }

  /** Water intake is read from the sleep device. */
  lemma WaterIntakeReadByTheSleepDevice(s: Store, p: Patient, idx: nat, table: Table, ops: FloatOps)
    requires p.waterIntake.Some?
    ensures var r := AddPatientStep(s, p, idx, table, ops).0;
      && p.devsleep in r.devices
      && Triple(r.devices[p.devsleep], Saref("makesMeasurement"), MeasurementNode("WaterIntake", idx)) in r.g
      && Triple(Ex(p.id), Ex("wears"), r.devices[p.devsleep]) in r.g
  {
    var person := Ex(p.id);
    var s0 := Store(s.g + DemographicFacts(person, p), s.devices);
    MeasureAllRecords(s0, person, DeviceAxes(p), idx, p.timestamp, 6);
  }

  /**
   * `add_patient` only adds: the old graph and the demographic facts are in
   * the new one, registered devices keep their nodes, and a consistent
   * registry stays consistent.
   */
  lemma AddPatientGrows(s: Store, p: Patient, idx: nat, table: Table, ops: FloatOps)
    ensures var r := AddPatientStep(s, p, idx, table, ops).0;
      && s.g + DemographicFacts(Ex(p.id), p) <= r.g
      && s.devices.Keys <= r.devices.Keys
      && (forall dev :: dev in s.devices ==> r.devices[dev] == s.devices[dev])
      && (RegistryConsistent(s) ==> RegistryConsistent(r))
  {
    var person := Ex(p.id);
    var s0 := Store(s.g + DemographicFacts(person, p), s.devices);
    if RegistryConsistent(s) {
      RegistryConsistentGrows(s, s0.g);
      MeasureAllKeepsRegistry(s0, person, DeviceAxes(p), idx, p.timestamp);
      var m := MeasuredStore(s, p, idx);
      RegistryConsistentGrows(m, AddPatientStep(s, p, idx, table, ops).0.g);
    }
  }

  /**
   * The fuzzy scores fail exactly when some axis fails, with the error of the
   * first failing axis; the demographic facts and measurements stay, and no
   * fuzzy fact is added.
   */
  lemma AddPatientError(s: Store, p: Patient, idx: nat, table: Table, ops: FloatOps)
    ensures var r := AddPatientStep(s, p, idx, table, ops);
      var axes := ScoreAxes(Ex(p.id), p, idx);
      && (r.1.None? <==> forall i :: 0 <= i < 13 ==> AxisScore(axes[i], table, ops).Success?)
      && (r.1.Some? ==> r.0 == MeasuredStore(s, p, idx) && FirstFailure(axes, table, ops, r.1.value))
  {
    var axes := ScoreAxes(Ex(p.id), p, idx);
    ScoresSucceed(axes, table, ops);
    if Scores(axes, table, ops).Failure? {
      ScoresFirstFailure(axes, table, ops);
    }
  }

  /** The keys `_add_fuzzy_scores` looks up are among the thirteen score keys. */
  lemma ScoreAxesKeys(person: Term, p: Patient, idx: nat)
    ensures forall i :: 0 <= i < 13 ==> ScoreAxes(person, p, idx)[i].key in ScoreKeys
  {
    var axes := ScoreAxes(person, p, idx);
    assert axes[0].key == "age";
  }

  /** Axes whose keys all name well-formed partitions of the table are all scored. */
  lemma WellFormedAxesScore(axes: seq<ScoreAxis>, table: Table, ops: FloatOps)
    requires forall i :: 0 <= i < |axes| ==> axes[i].key in table && WellFormed(table[axes[i].key])
    ensures Scores(axes, table, ops).Success?
  {
    forall i | 0 <= i < |axes|
      ensures AxisScore(axes[i], table, ops).Success?
    {
      WellFormedMembership(axes[i].value, table[axes[i].key], ops);
      AxisScoreSpec(axes[i], table, ops);
    }
    ScoresSucceed(axes, table, ops);
  }

  /**
   * A table holding a well-formed partition for each of the thirteen keys
   * never makes `add_patient` fail.
   */
  lemma WellFormedTableNeverFails(s: Store, p: Patient, idx: nat, table: Table, ops: FloatOps)
    requires ScoreKeys <= table.Keys
    requires forall key :: key in ScoreKeys ==> WellFormed(table[key])
    ensures AddPatientStep(s, p, idx, table, ops).1.None?
  {
    var axes := ScoreAxes(Ex(p.id), p, idx);
    ScoreAxesKeys(Ex(p.id), p, idx);
    forall i | 0 <= i < |axes|
      ensures axes[i].key in table && WellFormed(table[axes[i].key])
    {
      var key := axes[i].key;
      assert key in ScoreKeys;
    }
    WellFormedAxesScore(axes, table, ops);
    assert Scores(axes, table, ops).Success?;
  }

  /** One fact per degree: a fuzzy fact comes from one label of one scored subject. */
  ghost predicate DegreeFactOf(scored: seq<(Term, Degrees)>, t: Triple)
  {
    exists i, k :: 0 <= i < |scored| && k in scored[i].1 && t == DegreeFact(scored[i].0, k, scored[i].1[k])
  }

  /** The fuzzy facts are exactly the degree facts of the scored subjects. */
  lemma {:induction false} FuzzyFactsMembership(scored: seq<(Term, Degrees)>, t: Triple)
    ensures t in FuzzyFacts(scored) <==> DegreeFactOf(scored, t)
    decreases |scored|
  {
    if scored != [] {
      var n := |scored| - 1;
      var init, last := scored[..n], scored[n];
      FuzzyFactsMembership(init, t);
      if DegreeFactOf(scored, t) {
        var i, k :| 0 <= i < |scored| && k in scored[i].1 && t == DegreeFact(scored[i].0, k, scored[i].1[k]);
        if i < n {
          assert init[i] == scored[i];
          assert DegreeFactOf(init, t);
        } else {
          assert t in DegreeFactsOn(last.0, last.1, last.1.Keys);
        }
      }
      if t in FuzzyFacts(scored) {
        if t in FuzzyFacts(init) {
          var i, k :| 0 <= i < |init| && k in init[i].1 && t == DegreeFact(init[i].0, k, init[i].1[k]);
          assert init[i] == scored[i];
        } else {
          var k :| k in last.1 && t == DegreeFact(last.0, k, last.1[k]);
          assert DegreeFactOf(scored, t) by { assert scored[n] == last; }
        }
      }
    }
  }

  /**
   * A fuzzy fact is about the subject of an axis whose value is present, and
   * its predicate names a label of that axis's partition: a missing value adds
   * no fuzzy fact at all.
   */
  lemma FuzzyFactsOnlyForPresentValues(axes: seq<ScoreAxis>, table: Table, ops: FloatOps, t: Triple)
    requires Scores(axes, table, ops).Success? && t in FuzzyFacts(Scores(axes, table, ops).value)
    ensures exists i, k ::
      && 0 <= i < |axes| && axes[i].value.Some? && axes[i].key in table
      && k in Labels(table[axes[i].key]) && t.s == axes[i].subject && t.p == Ex(k)
  {
    var scored := Scores(axes, table, ops).value;
    ScoresValues(axes, table, ops);
    FuzzyFactsMembership(scored, t);
    var i, k :| 0 <= i < |scored| && k in scored[i].1 && t == DegreeFact(scored[i].0, k, scored[i].1[k]);
    var d := AxisScore(axes[i], table, ops).value;
    AxisScoreSpec(axes[i], table, ops);
    assert k in d;
    assert d != map[];
  }

  /** No fuzzy fact is a typing statement. */
  lemma FuzzyFactsAreNotTypings(scored: seq<(Term, Degrees)>)
    ensures forall t :: t in FuzzyFacts(scored) ==> t.p != RdfType
  {
    forall t | t in FuzzyFacts(scored)
      ensures t.p != RdfType
    {
      FuzzyFactsMembership(scored, t);
      var i, k :| 0 <= i < |scored| && k in scored[i].1 && t == DegreeFact(scored[i].0, k, scored[i].1[k]);
      ExIsNotRdfType(k);
    }
  }

  /** The only `Measurement` typing among the demographic facts' subjects is none. */
  lemma DemographicFactsTypeNoMeasurement(person: Term, p: Patient)
    ensures forall t :: t in DemographicFacts(person, p) ==> !(t.p == RdfType && t.o == MeasurementClass)
  {
    ExInjective("Patient", "Measurement");
    ExIsNotRdfType("age");
    ExIsNotRdfType("patientId");
    ExIsNotRdfType("weight");
    ExIsNotRdfType("height");
    ExIsNotRdfType("stressLevel");
    ExIsNotRdfType("mood");
    ExIsNotRdfType("medicalCondition");
    ExIsNotRdfType("alcoholConsumption");
  }

  /**
   * The nodes `add_patient` newly types as measurements are the reading nodes
   * of its present device-backed values.
   */
  lemma AddPatientTypesOnlyPresentReadings(s: Store, p: Patient, idx: nat, table: Table, ops: FloatOps, node: Term)
    ensures var t := Triple(node, RdfType, MeasurementClass);
      t in AddPatientStep(s, p, idx, table, ops).0.g ==>
        t in s.g || exists i :: 0 <= i < 7 && DeviceAxes(p)[i].value.Some? && node == MeasurementNode(DeviceAxes(p)[i].prop, idx)
  {
    var t := Triple(node, RdfType, MeasurementClass);
    var person := Ex(p.id);
    var s0 := Store(s.g + DemographicFacts(person, p), s.devices);
    var m := MeasuredStore(s, p, idx);
    var r := AddPatientStep(s, p, idx, table, ops).0;
    var scores := Scores(ScoreAxes(person, p, idx), table, ops);
    if scores.Success? {
      FuzzyFactsAreNotTypings(scores.value);
    }
    assert t in r.g ==> t in m.g;
    DemographicFactsTypeNoMeasurement(person, p);
    if t in m.g && t !in s0.g {
      MeasureAllTypesOnlyPresentReadings(s0, person, DeviceAxes(p), idx, p.timestamp, t);
    }
  }

  /** A device-backed value that is missing leaves its reading node untyped. */
  lemma AbsentReadingNotTyped(s: Store, p: Patient, idx: nat, table: Table, ops: FloatOps, k: nat)
    requires k < 7 && DeviceAxes(p)[k].value.None?
    ensures var t := Triple(MeasurementNode(DeviceAxes(p)[k].prop, idx), RdfType, MeasurementClass);
      t in AddPatientStep(s, p, idx, table, ops).0.g <==> t in s.g
  {
    var axes := DeviceAxes(p);
    var node := MeasurementNode(axes[k].prop, idx);
    AddPatientTypesOnlyPresentReadings(s, p, idx, table, ops, node);
    forall i | 0 <= i < 7 && axes[i].value.Some?
      ensures node != MeasurementNode(axes[i].prop, idx)
    {
      MeasurementNodeSameRow(axes[k].prop, axes[i].prop, idx);
    }
  }

  /**
   * The calorie degrees attach to `CalorieIntake{n}`, which is never the
   * reading node `add_measurement` creates for any device-backed property
   * in any row.
   */
  lemma CalorieScoreNodeIsNoReading(p: Patient, n: nat, m: nat, k: nat)
    requires k < 7
    ensures Numbered("CalorieIntake", n) != MeasurementNode(DeviceAxes(p)[k].prop, m)
  {
    var prop := DeviceAxes(p)[k].prop;
    var a := Numbered("CalorieIntake", n).iri;
    var b := MeasurementNode(prop, m).iri;
    if prop == "CalorieIntake" {
      assert a[|EX| + 13] == NatToString(n + 1)[0];
      assert b[|EX| + 13] == 'R';
    } else {
      assert a[|EX|] == 'C';
      assert b[|EX|] == prop[0];
    }
  }

  /** So `add_patient` never types the node its calorie degrees attach to as a measurement. */
  lemma CalorieScoreNodeNeverTyped(s: Store, p: Patient, idx: nat, table: Table, ops: FloatOps)
    ensures var t := Triple(ScoreAxes(Ex(p.id), p, idx)[4].subject, RdfType, MeasurementClass);
      t in AddPatientStep(s, p, idx, table, ops).0.g <==> t in s.g
  {
    var node := Numbered("CalorieIntake", idx);
    AddPatientTypesOnlyPresentReadings(s, p, idx, table, ops, node);
    forall i | 0 <= i < 7
      ensures node != MeasurementNode(DeviceAxes(p)[i].prop, idx)
    {
      CalorieScoreNodeIsNoReading(p, idx, idx, i);
    }
  }

  /**
   * Age and health score attach to the patient; heart rate, temperature,
   * blood oxygen, body fat, muscle mass and water intake attach to the
   * reading nodes `add_measurement` creates for the same row.
   */
  lemma ScoreSubjects(p: Patient, idx: nat)
    ensures var person := Ex(p.id);
      var axes, readings := ScoreAxes(person, p, idx), DeviceAxes(p);
      && axes[0].subject == person && axes[12].subject == person
      && axes[1].subject == MeasurementNode(readings[0].prop, idx) && axes[1].value == readings[0].value
      && axes[2].subject == MeasurementNode(readings[1].prop, idx) && axes[2].value == readings[1].value
      && axes[3].subject == MeasurementNode(readings[2].prop, idx) && axes[3].value == readings[2].value
      && axes[5].subject == MeasurementNode(readings[4].prop, idx) && axes[5].value == readings[4].value
      && axes[6].subject == MeasurementNode(readings[5].prop, idx) && axes[6].value == readings[5].value
      && axes[7].subject == MeasurementNode(readings[6].prop, idx) && axes[7].value == readings[6].value
  {
    var person := Ex(p.id);
    var axes, readings := ScoreAxes(person, p, idx), DeviceAxes(p);
    assert "HeartRate" + "Reading" == "HeartRateReading";
    assert "Temperature" + "Reading" == "TemperatureReading";
    assert "BloodOxygen" + "Reading" == "BloodOxygenReading";
    assert "BodyFat" + "Reading" == "BodyFatReading";
    assert "MuscleMass" + "Reading" == "MuscleMassReading";
    assert "WaterIntake" + "Reading" == "WaterIntakeReading";
  }

  // ---------------------------------------------------------------------------
  // The assembler object
  // ---------------------------------------------------------------------------

  /** `HealthOntology`: the graph `g` and the device registry `device_instances`. */
  class Ontology {
    var g: set<Triple>
    var deviceInstances: map<DeviceId, Term>

    /** The two fields as a value. */
    function State(): Store
      reads this
    {
      Store(g, deviceInstances)
    }

    /** The object invariant: the registry agrees with the graph. */
    ghost predicate Valid()
      reads this
    {
      RegistryConsistent(State())
    }

    /**
     * `__init__`: the graph starts as the parsed base ontology `base`, the
     * registry empty, and the labels are declared.  The two copies of the
     * class differ only in the label list they declare.
     */
    constructor (base: set<Triple>, labels: seq<string>)
      ensures Valid()
      ensures g == base + LabelFacts(labels) && deviceInstances == map[]
    {
      g := base;
      deviceInstances := map[];
      new;
      DefineLabels(labels);
    }

    /** `self.g.add(t)`: set insertion. */
    method Add(t: Triple)
      requires Valid()
      modifies this
      ensures Valid()
      ensures g == old(g) + {t} && deviceInstances == old(deviceInstances)
    {
      RegistryConsistentGrows(State(), g + {t});
      g := g + {t};
    }

    /** `_define_labels`: one declaration per listed label. */
    method DefineLabels(labels: seq<string>)
      requires Valid()
      modifies this
      ensures Valid()
      ensures g == old(g) + LabelFacts(labels) && deviceInstances == old(deviceInstances)
    {
      for i := 0 to |labels|
        invariant Valid()
        invariant g == old(g) + LabelFacts(labels[..i])
        invariant deviceInstances == old(deviceInstances)
      {
        Add(LabelFact(labels[i]));
        assert labels[..i + 1] == labels[..i] + [labels[i]];
      }
      assert labels[..|labels|] == labels;
    }

    /** `add_measurement`: returns the reading node, or `None` for a missing value. */
    method AddMeasurement(person: Term, value: Option<real>, dev: DeviceId, prop: string, idx: nat, ts: string)
      returns (m: Option<Term>)
      requires Valid()
      modifies this
      ensures Valid()
      ensures (State(), m) == AddMeasurementStep(old(State()), person, value, dev, prop, idx, ts)
    {
      AddMeasurementKeepsRegistry(State(), person, value, dev, prop, idx, ts);
      if value.None? {
        return None;
      }
      var node := MeasurementNode(prop, idx);
      Add(Triple(node, RdfType, MeasurementClass));
      Add(Triple(node, Ex("value"), Literal(Number(Some(value.value)), Untyped)));
      Add(Triple(node, Ex("timestamp"), Literal(Text(ts), XsdDateTimeStamp)));
      Add(Triple(node, Saref("relatesToProperty"), Ex(prop)));
      Add(Triple(Ex(prop), Saref("relatesToMeasurement"), node));
      assert g == old(g) + ReadingFacts(node, value.value, prop, ts);
      var device: Term;
      if dev !in deviceInstances {
        device := DeviceNode(dev);
        Add(Triple(device, RdfType, Ex("MedicalObject")));
        Add(Triple(device, Ex("deviceId"), Literal(Text(dev), Untyped)));
        deviceInstances := deviceInstances[dev := device];
        assert g == old(g) + ReadingFacts(node, value.value, prop, ts) + DeviceFacts(dev);
      } else {
        device := deviceInstances[dev];
      }
      ghost var before := g;
      Add(Triple(device, Saref("makesMeasurement"), node));
      Add(Triple(person, Ex("hasMeasurement"), node));
      Add(Triple(person, Ex("wears"), device));
      assert g == before + LinkFacts(person, device, node);
      m := Some(node);
    }

    /** The thirteen `for label, score in ....items()` loops: one fact per degree. */
    method AddScored(scored: seq<(Term, Degrees)>)
      requires Valid()
      modifies this
      ensures Valid()
      ensures g == old(g) + FuzzyFacts(scored) && deviceInstances == old(deviceInstances)
    {
      for i := 0 to |scored|
        invariant Valid()
        invariant g == old(g) + FuzzyFacts(scored[..i])
        invariant deviceInstances == old(deviceInstances)
      {
        var (subject, degrees) := scored[i];
        var pending := degrees.Keys;
        ghost var start := g;
        while pending != {}
          invariant Valid()
          invariant pending <= degrees.Keys
          invariant g == start + DegreeFactsOn(subject, degrees, degrees.Keys - pending)
          invariant deviceInstances == old(deviceInstances)
          decreases pending
        {
          var name :| name in pending;
          Add(DegreeFact(subject, name, degrees[name]));
          DegreeFactsOnInsert(subject, degrees, degrees.Keys - pending, name);
          assert degrees.Keys - (pending - {name}) == (degrees.Keys - pending) + {name};
          pending := pending - {name};
        }
        assert degrees.Keys - pending == degrees.Keys;
        FuzzyFactsSnoc(scored, i);
      }
      assert scored[..|scored|] == scored;
    }

    /** `_add_fuzzy_scores`: every score is computed first; then each degree becomes one fact. */
    method AddFuzzyScores(person: Term, p: Patient, idx: nat, table: Table, ops: FloatOps)
      returns (err: Option<ScoreError>)
      requires Valid()
      modifies this
      ensures Valid()
      ensures (State(), err) == AddFuzzyScoresStep(old(State()), person, p, idx, table, ops)
    {
      var scores := Scores(ScoreAxes(person, p, idx), table, ops);
      if scores.Failure? {
        return Some(scores.error);
      }
      AddScored(scores.value);
      err := None;
    }

    /** Lines 40-54 of `add_patient`: the patient node and its demographic facts. */
    method AddDemographics(person: Term, p: Patient)
      requires Valid()
      modifies this
      ensures Valid()
      ensures g == old(g) + DemographicFacts(person, p) && deviceInstances == old(deviceInstances)
    {
      Add(Triple(person, RdfType, Ex("Patient")));
      Add(Triple(person, Ex("age"), Literal(Number(p.age), XsdInteger)));
      Add(Triple(person, Ex("patientId"), Literal(Text(p.id), XsdString)));
      Add(Triple(person, Ex("weight"), Literal(Number(p.weight), XsdFloat)));
      Add(Triple(person, Ex("height"), Literal(Number(p.height), XsdFloat)));
      Add(Triple(person, Ex("stressLevel"), Ex(p.stress)));
      Add(Triple(person, Ex("mood"), Ex(p.mood)));
      assert g == old(g) + CoreFacts(person, p);
      if p.disease.Some? {
        Add(Triple(person, Ex("medicalCondition"), Ex(p.disease.value)));
      }
      assert g == old(g) + CoreFacts(person, p) + ConditionFacts(person, p.disease);
      if p.alcohol == Some("Moderate") {
        Add(Triple(person, Ex("alcoholConsumption"), Ex("ModerateAlcoholConsumption")));
      } else if p.alcohol == Some("Heavy") {
        Add(Triple(person, Ex("alcoholConsumption"), Ex("HeavyAlcoholConsumption")));
      }
    }

    /** Lines 57-63 of `add_patient`: the seven `add_measurement` calls. */
    method AddDeviceMeasurements(person: Term, p: Patient, idx: nat)
      requires Valid()
      modifies this
      ensures Valid()
      ensures State() == MeasureAll(old(State()), person, DeviceAxes(p), idx, p.timestamp)
    {
      ghost var todo := DeviceAxes(p);
      ghost var target := MeasureAll(State(), person, todo, idx, p.timestamp);
      ghost var before := State();
      var m;
      m := AddMeasurement(person, p.heart, p.devheart, "HeartRate", idx, p.timestamp);
      MeasureAllFirst(before, person, todo, idx, p.timestamp);
      todo := todo[1..];
      before := State();
      m := AddMeasurement(person, p.temp, p.devtem, "Temperature", idx, p.timestamp);
      MeasureAllFirst(before, person, todo, idx, p.timestamp);
      todo := todo[1..];
      before := State();
      m := AddMeasurement(person, p.blood, p.devblood, "BloodOxygen", idx, p.timestamp);
      MeasureAllFirst(before, person, todo, idx, p.timestamp);
      todo := todo[1..];
      before := State();
      m := AddMeasurement(person, p.calorie, p.devcalorie, "CalorieIntake", idx, p.timestamp);
      MeasureAllFirst(before, person, todo, idx, p.timestamp);
      todo := todo[1..];
      before := State();
      m := AddMeasurement(person, p.bodyfat, p.devmuscle, "BodyFat", idx, p.timestamp);
      MeasureAllFirst(before, person, todo, idx, p.timestamp);
      todo := todo[1..];
      before := State();
      m := AddMeasurement(person, p.muscle, p.devmuscle, "MuscleMass", idx, p.timestamp);
      MeasureAllFirst(before, person, todo, idx, p.timestamp);
      todo := todo[1..];
      before := State();
      m := AddMeasurement(person, p.waterIntake, p.devsleep, "WaterIntake", idx, p.timestamp);
      MeasureAllFirst(before, person, todo, idx, p.timestamp);
      todo := todo[1..];
      assert todo == [];
    }

    /**
     * `add_patient`: the demographic facts, the seven measurements, then the
     * fuzzy scores; an error from the scores leaves everything added before it.
     */
    method AddPatient(p: Patient, idx: nat, table: Table, ops: FloatOps) returns (err: Option<ScoreError>)
      requires Valid()
      modifies this
      ensures Valid()
      ensures (State(), err) == AddPatientStep(old(State()), p, idx, table, ops)
    {
      var person := Ex(p.id);
      AddDemographics(person, p);
      RegistryConsistentGrows(old(State()), g);
      AddDeviceMeasurements(person, p, idx);
      ghost var measured := State();
      err := AddFuzzyScores(person, p, idx, table, ops);
      RegistryConsistentGrows(measured, g);
    }
  }
}
