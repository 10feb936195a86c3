/**
 * The assembler of src/ontology/health_ontology.py fed with the table of
 * src/fuzzy/fuzzy_logic_config.py, as src/main.py wires them together.
 */
module Pipeline {
  import opened FuzzyLogic
  import opened FuzzyConfig
  import opened PatientRecord
  import opened HealthOntology

  /** The table has exactly the keys `_add_fuzzy_scores` reads. */
  lemma ConfigKeysAreScoreKeys()
    ensures FuzzySets.Keys == ScoreKeys
  {
    TableKeys();
  }

  /** With this table `add_patient` never raises, whatever the patient row. */
  lemma ConfigNeverFails(s: Store, p: Patient, idx: nat, ops: FloatOps)
    ensures AddPatientStep(s, p, idx, FuzzySets, ops).1.None?
  {
    ConfigKeysAreScoreKeys();
    TableWellFormed();
    WellFormedTableNeverFails(s, p, idx, FuzzySets, ops);
  }

  /** The labels `_define_labels` declares, as a set. */
  function Declared(labels: seq<string>): set<string>
  {
    set l | l in labels
  }

  /** The labels of the first eight axes are all declared by the module's list. */
  lemma ModuleLabelsDeclareFirstAxes()
    ensures forall k :: 0 <= k < 8 ==> Labels(FirstAxes[k]) <= Declared(ModuleLabels)
  {
    forall k | 0 <= k < 8
      ensures Labels(FirstAxes[k]) <= Declared(ModuleLabels)
    {
      var p := FirstAxes[k];
      assert Labels(p) == {p[0].name, p[1].name, p[2].name};
      assert ModuleLabels[3 * k] == p[0].name;
      assert ModuleLabels[3 * k + 1] == p[1].name;
      assert ModuleLabels[3 * k + 2] == p[2].name;
    }
  }

  /** The partitions of the first eight axes, in the order of the label list. */
  const FirstAxes: seq<Partition> := [Age, Heart, BloodOxygen, Calorie, Temperature, BodyFat, MuscleMass, WaterIntake]

  /** The sleep, wakeup and health-score labels are not declared by the module's list. */
  lemma ModuleLabelsOmitSleepAndScore()
    ensures forall i :: 0 <= i < |ModuleLabels| ==> ModuleLabels[i] !in Labels(NormalSleep) + Labels(DeepSleep)
    ensures forall i :: 0 <= i < |ModuleLabels| ==> ModuleLabels[i] !in Labels(RemSleep) + Labels(Wakeup) + Labels(Score)
  {
  }
}
