/**
 * The self-contained script full.py.  Its `FuzzyLogic` (lines 19-56),
 * `Patient` (lines 61-90) and `HealthOntology` (lines 96-234) are the same
 * code as the modules under src/ and are modelled once, by the modules
 * FuzzyLogic, PatientRecord and HealthOntology; what differs is the label
 * list `_define_labels` declares (lines 114-131) and the table its main block
 * builds inline (lines 244-316).
 */
module FullScript {
  import opened Wrappers
  import opened FuzzyLogic
  import opened FuzzyConfig
  import opened PatientRecord
  import opened HealthOntology

  /** The 39 labels of the script's `_define_labels`: the module's 24 and the sleep and score labels. */
  const ScriptLabels: seq<string> := [
    "Young", "Adult", "Old",
    "LowHeartRate", "MediumHeartRate", "HighHeartRate",
    "LowBloodOxygen", "MediumBloodOxygen", "HighBloodOxygen",
    "LowCalorieIntake", "MediumCalorieIntake", "HighCalorieIntake",
    "LowTemperature", "MediumTemperature", "HighTemperature",
    "LowBodyFat", "MediumBodyFat", "HighBodyFat",
    "LowMuscleMass", "MediumMuscleMass", "HighMuscleMass",
    "LowWaterIntake", "MediumWaterIntake", "HighWaterIntake",
    "LowNormalSleepDuration", "MediumNormalSleepDuration", "HighNormalSleepDuration",
    "LowDeepSleepDuration", "MediumDeepSleepDuration", "HighDeepSleepDuration",
    "LowREMSleepDuration", "MediumREMSleepDuration", "HighREMSleepDuration",
    "LowWakeupsDuration", "MediumWakeupsDuration", "HighWakeupsDuration",
    "LowScore", "MediumScore", "HighScore"
  ]

  // The inline partitions that differ from the module's table; the age,
  // heart-rate and health-score partitions are the same as there.

  /** The inline `"bloodoxygen"` partition. */
  const InlineBloodOxygen: Partition := [
    FuzzySet("LowBloodOxygen", 90.0025179, 91.5, 94.0, LeftShoulder),
    FuzzySet("MediumBloodOxygen", 93.0, 96.5, 99.0, Triangle),
    FuzzySet("HighBloodOxygen", 98.0, 100.0, 100.9990865, RightShoulder)]

  /** The inline `"calorie"` partition. */
  const InlineCalorie: Partition := [
    FuzzySet("LowCalorieIntake", 1200.01183, 1600.0, 2000.0, LeftShoulder),
    FuzzySet("MediumCalorieIntake", 1800.0, 2200.0, 2600.0, Triangle),
    FuzzySet("HighCalorieIntake", 2400.0, 2700.0, 2999.733804, RightShoulder)]

  /** The inline `"temperature"` partition. */
  const InlineTemperature: Partition := [
    FuzzySet("LowTemperature", 32.0002771, 33.75, 35.0, LeftShoulder),
    FuzzySet("MediumTemperature", 34.5, 36.0, 37.5, Triangle),
    FuzzySet("HighTemperature", 37.0, 38.0, 38.99936953, RightShoulder)]

  /** The inline `"bodyfat"` partition. */
  const InlineBodyFat: Partition := [
    FuzzySet("LowBodyFat", 10.00121675, 13.5, 18.0, LeftShoulder),
    FuzzySet("MediumBodyFat", 16.0, 22.0, 29.0, Triangle),
    FuzzySet("HighBodyFat", 27.0, 31.5, 34.99782606, RightShoulder)]

  /** The inline `"musclemass"` partition. */
  const InlineMuscleMass: Partition := [
    FuzzySet("LowMuscleMass", 20.00033553, 30.0, 45.0, LeftShoulder),
    FuzzySet("MediumMuscleMass", 40.0, 50.0, 60.0, Triangle),
    FuzzySet("HighMuscleMass", 55.0, 67.5, 79.99875569, RightShoulder)]

  /** The inline `"waterIntake"` partition. */
  const InlineWaterIntake: Partition := [
    FuzzySet("LowWaterIntake", 0.500078726, 1.0, 1.75, LeftShoulder),
    FuzzySet("MediumWaterIntake", 1.5, 2.25, 3.0, Triangle),
    FuzzySet("HighWaterIntake", 2.5, 3.0, 3.499655592, RightShoulder)]

  /** The inline `"normalsleep"` partition. */
  const InlineNormalSleep: Partition := [
    FuzzySet("LowNormalSleepDuration", 4.000285234, 5.5, 7.0, LeftShoulder),
    FuzzySet("MediumNormalSleepDuration", 6.0, 7.5, 9.0, Triangle),
    FuzzySet("HighNormalSleepDuration", 8.0, 9.25, 9.999370248, RightShoulder)]

  /** The inline `"deepsleep"` partition. */
  const InlineDeepSleep: Partition := [
    FuzzySet("LowDeepSleepDuration", 0.500597801, 2.0, 4.0, LeftShoulder),
    FuzzySet("MediumDeepSleepDuration", 3.0, 5.5, 7.5, Triangle),
    FuzzySet("HighDeepSleepDuration", 6.5, 8.5, 9.93064243, RightShoulder)]

  /** The inline `"wakeupduration"` partition, which no lookup reads. */
  const InlineWakeupDuration: Partition := [
    FuzzySet("LowWakeupsDuration", 0.0, 1.0, 2.0, LeftShoulder),
    FuzzySet("MediumWakeupsDuration", 1.5, 2.5, 3.5, Triangle),
    FuzzySet("HighWakeupsDuration", 3.0, 3.5, 4.0, RightShoulder)]

  /** The inline `"remsleep"` partition, labelled with the wakeup labels. */
  const InlineRemSleep: Partition := [
    FuzzySet("LowWakeupsDuration", 0.000805135, 2.0, 4.0, LeftShoulder),
    FuzzySet("MediumWakeupsDuration", 3.0, 5.0, 7.0, Triangle),
    FuzzySet("HighWakeupsDuration", 6.0, 7.75, 9.448512283, RightShoulder)]

  /** The inline `"wakeup"` partition. */
  const InlineWakeup: Partition := [
    FuzzySet("LowWakeupsDuration", 0.000805135, 2.0, 4.0, LeftShoulder),
    FuzzySet("MediumWakeupsDuration", 3.0, 5.0, 7.0, Triangle),
    FuzzySet("HighWakeupsDuration", 6.0, 7.75, 9.448512283, RightShoulder)]

  /** The table of the script's main block: fourteen axes. */
  const InlineTable: map<string, Partition> := map[
    "age" := Age,
    "heart" := Heart,
    "bloodoxygen" := InlineBloodOxygen,
    "calorie" := InlineCalorie,
    "temperature" := InlineTemperature,
    "bodyfat" := InlineBodyFat,
    "musclemass" := InlineMuscleMass,
    "waterIntake" := InlineWaterIntake,
    "normalsleep" := InlineNormalSleep,
    "deepsleep" := InlineDeepSleep,
    "wakeupduration" := InlineWakeupDuration,
    "remsleep" := InlineRemSleep,
    "wakeup" := InlineWakeup,
    "score" := Score
  ]

  /** The inline table has the thirteen keys the scores read and one more that they never read. */
  lemma InlineTableKeys()
    ensures InlineTable.Keys == ScoreKeys + {"wakeupduration"}
    ensures "wakeupduration" !in ScoreKeys
  {
  }

  /** Every partition of the inline table is well formed. */
  lemma InlineTableWellFormed()
    ensures forall key :: key in InlineTable ==> WellFormed(InlineTable[key])
  {
    forall key | key in InlineTable
      ensures WellFormed(InlineTable[key])
    {
      var p := InlineTable[key];
      WellFormedOfEntries(p[0], p[1], p[2]);
      assert p == [p[0], p[1], p[2]];
    }
  }

  /** With the inline table the script's `add_patient` never raises. */
  lemma InlineTableNeverFails(s: Store, p: Patient, idx: nat, ops: FloatOps)
    ensures AddPatientStep(s, p, idx, InlineTable, ops).1.None?
  {
    InlineTableKeys();
    InlineTableWellFormed();
    WellFormedTableNeverFails(s, p, idx, InlineTable, ops);
  }

  /**
   * The inline REM-sleep partition is the wakeup partition: REM-sleep and
   * wakeup values get the same degrees under the same `*WakeupsDuration`
   * labels, and no REM label is ever produced.
   */
  lemma RemSleepUsesWakeupLabels(v: Option<real>, ops: FloatOps)
    ensures MembershipDegrees(v, InlineTable["remsleep"], ops) == MembershipDegrees(v, InlineTable["wakeup"], ops)
    ensures Labels(InlineTable["remsleep"]) == Labels(FuzzySets["wakeup"])
    ensures Labels(InlineTable["remsleep"]) !! Labels(FuzzySets["remsleep"])
  {
    var p := InlineRemSleep;
    assert Labels(p) == {p[0].name, p[1].name, p[2].name};
    var w := Wakeup;
    assert Labels(w) == {w[0].name, w[1].name, w[2].name};
    var r := RemSleep;
    assert Labels(r) == {r[0].name, r[1].name, r[2].name};
  }

  /** The script's list starts with the module's 24 labels and adds the 15 sleep and score labels. */
  lemma ScriptLabelsExtendModuleLabels()
    ensures |ScriptLabels| == 39
    ensures ScriptLabels[..24] == ModuleLabels
  {
  }

  /** Every label of the inline table is declared by the script's list. */
  lemma ScriptLabelsDeclareInlineTable()
    ensures forall key, l :: key in InlineTable && l in Labels(InlineTable[key]) ==> l in ScriptLabels
  {
    forall key, l | key in InlineTable && l in Labels(InlineTable[key])
      ensures l in ScriptLabels
    {
      var p := InlineTable[key];
      assert Labels(p) == {p[0].name, p[1].name, p[2].name};
    }
  }
}
