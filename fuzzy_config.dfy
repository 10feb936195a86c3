/**
 * The configuration table `fuzzy_sets` of src/fuzzy/fuzzy_logic_config.py:
 * thirteen measurement axes, each a three-entry partition.
 */
module FuzzyConfig {
  import opened Wrappers
  import opened FuzzyLogic

  /** The `"age"` partition. */
  const Age: Partition := [
    FuzzySet("Young", 10.0, 25.0, 35.0, LeftShoulder),
    FuzzySet("Adult", 30.0, 47.5, 65.0, Triangle),
    FuzzySet("Old", 60.0, 75.0, 85.0, RightShoulder)]

  /** The `"heart"` partition. */
  const Heart: Partition := [
    FuzzySet("LowHeartRate", 50.0, 60.0, 75.0, LeftShoulder),
    FuzzySet("MediumHeartRate", 65.0, 80.0, 105.0, Triangle),
    FuzzySet("HighHeartRate", 95.0, 130.0, 180.0, RightShoulder)]

  /** The `"bloodoxygen"` partition. */
  const BloodOxygen: Partition := [
    FuzzySet("LowBloodOxygen", 90.0025, 91.5, 94.0, LeftShoulder),
    FuzzySet("MediumBloodOxygen", 93.0, 96.5, 99.0, Triangle),
    FuzzySet("HighBloodOxygen", 98.0, 100.0, 101.0, RightShoulder)]

  /** The `"calorie"` partition. */
  const Calorie: Partition := [
    FuzzySet("LowCalorieIntake", 1200.0, 1600.0, 2000.0, LeftShoulder),
    FuzzySet("MediumCalorieIntake", 1800.0, 2200.0, 2600.0, Triangle),
    FuzzySet("HighCalorieIntake", 2400.0, 2700.0, 3000.0, RightShoulder)]

  /** The `"temperature"` partition. */
  const Temperature: Partition := [
    FuzzySet("LowTemperature", 32.0, 33.75, 35.0, LeftShoulder),
    FuzzySet("MediumTemperature", 34.5, 36.0, 37.5, Triangle),
    FuzzySet("HighTemperature", 37.0, 38.0, 39.0, RightShoulder)]

  /** The `"bodyfat"` partition. */
  const BodyFat: Partition := [
    FuzzySet("LowBodyFat", 10.0, 13.5, 18.0, LeftShoulder),
    FuzzySet("MediumBodyFat", 16.0, 22.0, 29.0, Triangle),
    FuzzySet("HighBodyFat", 27.0, 31.5, 35.0, RightShoulder)]

  /** The `"musclemass"` partition. */
  const MuscleMass: Partition := [
    FuzzySet("LowMuscleMass", 20.0, 30.0, 45.0, LeftShoulder),
    FuzzySet("MediumMuscleMass", 40.0, 50.0, 60.0, Triangle),
    FuzzySet("HighMuscleMass", 55.0, 67.5, 80.0, RightShoulder)]

  /** The `"waterIntake"` partition. */
  const WaterIntake: Partition := [
    FuzzySet("LowWaterIntake", 0.5, 1.0, 1.75, LeftShoulder),
    FuzzySet("MediumWaterIntake", 1.5, 2.25, 3.0, Triangle),
    FuzzySet("HighWaterIntake", 2.5, 3.0, 3.5, RightShoulder)]

  /** The `"normalsleep"` partition. */
  const NormalSleep: Partition := [
    FuzzySet("LowNormalSleepDuration", 4.0, 5.5, 7.0, LeftShoulder),
    FuzzySet("MediumNormalSleepDuration", 6.0, 7.5, 9.0, Triangle),
    FuzzySet("HighNormalSleepDuration", 8.0, 9.25, 10.0, RightShoulder)]

  /** The `"deepsleep"` partition. */
  const DeepSleep: Partition := [
    FuzzySet("LowDeepSleepDuration", 0.5, 2.0, 4.0, LeftShoulder),
    FuzzySet("MediumDeepSleepDuration", 3.0, 5.5, 7.5, Triangle),
    FuzzySet("HighDeepSleepDuration", 6.5, 8.5, 10.0, RightShoulder)]

  /** The `"remsleep"` partition. */
  const RemSleep: Partition := [
    FuzzySet("LowREMSleepDuration", 0.0, 2.0, 4.0, LeftShoulder),
    FuzzySet("MediumREMSleepDuration", 3.0, 5.0, 7.0, Triangle),
    FuzzySet("HighREMSleepDuration", 6.0, 7.75, 9.5, RightShoulder)]

  /** The `"wakeup"` partition. */
  const Wakeup: Partition := [
    FuzzySet("LowWakeupsDuration", 0.0, 2.0, 4.0, LeftShoulder),
    FuzzySet("MediumWakeupsDuration", 3.0, 5.0, 7.0, Triangle),
    FuzzySet("HighWakeupsDuration", 6.0, 7.75, 9.5, RightShoulder)]

  /** The `"score"` partition. */
  const Score: Partition := [
    FuzzySet("LowScore", 0.0, 20.0, 40.0, LeftShoulder),
    FuzzySet("MediumScore", 30.0, 50.0, 70.0, Triangle),
    FuzzySet("HighScore", 60.0, 80.0, 100.0, RightShoulder)]

  /** The table, entry for entry; integer parameters are written as reals. */
  const FuzzySets: map<string, Partition> := map[
    "age" := Age,
    "heart" := Heart,
    "bloodoxygen" := BloodOxygen,
    "calorie" := Calorie,
    "temperature" := Temperature,
    "bodyfat" := BodyFat,
    "musclemass" := MuscleMass,
    "waterIntake" := WaterIntake,
    "normalsleep" := NormalSleep,
    "deepsleep" := DeepSleep,
    "remsleep" := RemSleep,
    "wakeup" := Wakeup,
    "score" := Score
  ]

  /** The table has exactly the thirteen axis keys. */
  lemma TableKeys()
    ensures FuzzySets.Keys == {"age", "heart", "bloodoxygen", "calorie", "temperature", "bodyfat",
      "musclemass", "waterIntake", "normalsleep", "deepsleep", "remsleep", "wakeup", "score"}
  {
  }

  /** Every partition of the table is well formed, so the engine never fails on it. */
  lemma TableWellFormed()
    ensures forall key :: key in FuzzySets ==> WellFormed(FuzzySets[key])
  {
    forall key | key in FuzzySets
      ensures WellFormed(FuzzySets[key])
    {
      var p := FuzzySets[key];
      WellFormedOfEntries(p[0], p[1], p[2]);
      assert p == [p[0], p[1], p[2]];
    }
  }

  /** The three shape lookups on the heart-rate axis find its three entries in order. */
  lemma HeartLookups()
    ensures FindShape(Heart, LeftShoulder) == Some(Heart[0])
    ensures FindShape(Heart, Triangle) == Some(Heart[1])
    ensures FindShape(Heart, RightShoulder) == Some(Heart[2])
  {
    var p := Heart;
    assert p[1..] == [p[1], p[2]] && p[1..][1..] == [p[2]];
  }

  /**
   * Worked examples on the heart-rate axis: 58 and 30 (below the left
   * shoulder's own support) are fully low, 90 is fully medium, 200 fully
   * high, and a missing value has no degree.
   */
  lemma HeartRateExamples(ops: FloatOps)
    ensures MembershipDegrees(Some(58.0), Heart, ops) == Success(map["LowHeartRate" := 1.0])
    ensures MembershipDegrees(Some(30.0), Heart, ops) == Success(map["LowHeartRate" := 1.0])
    ensures MembershipDegrees(Some(90.0), Heart, ops) == Success(map["MediumHeartRate" := 1.0])
    ensures MembershipDegrees(Some(200.0), Heart, ops) == Success(map["HighHeartRate" := 1.0])
    ensures MembershipDegrees(None, Heart, ops) == Success(map[])
  {
    HeartLookups();
    var l, m, r := Heart[0], Heart[1], Heart[2];
    assert Ordered(l, m, r);
    forall v | v in [Some(58.0), Some(30.0), Some(90.0), Some(200.0), None]
      ensures MembershipDegrees(v, Heart, ops) == Success(ChainDegrees(v, l, m, r, ops))
    {
    }
    SaturatesLeft(58.0, l, m, r, ops);
    SaturatesLeft(30.0, l, m, r, ops);
    MediumCore(90.0, l, m, r, ops);
    SaturatesRight(200.0, l, m, r, ops);
  }

  /** 70 lies in the low/medium transition zone of the heart-rate axis. */
  lemma HeartRateTransitionExample(ops: FloatOps)
    ensures var d := MembershipDegrees(Some(70.0), Heart, ops).value;
      var w := ClassifyValue(70.0, (60.0, 75.0), (65.0, 80.0), ops.pdf);
      && d.Keys == {"LowHeartRate", "MediumHeartRate"}
      && d["LowHeartRate"] == ops.round2(w.0) && d["MediumHeartRate"] == ops.round2(w.1)
  {
    HeartLookups();
    LeftTransition(70.0, Heart[0], Heart[1], Heart[2], ops);
  }
}
