/** HealthRiskPredictor: a rule-based risk value with a three-way category, and
    a penalty-based health score, both behind a "model loaded" gate. */
module RiskPrediction {
  import opened Wrappers
  import opened Text
  import opened HealthData
  import opened JavaInt

  const NotLoadedMessage := "HealthRiskPredictor model not loaded. Call loadModel() first."
  const NoDataMessage := "No health data available for prediction."

  datatype RiskCategory = HighRisk | ModerateRisk | LowRisk

  /** What predictRisk reports: the fixed no-data message, or a category with
      the (clamped) risk value it was derived from. */
  datatype RiskAssessment = NoHealthData | Assessed(category: RiskCategory, score: real)

  // ---------------------------------------------------------------------------
  // The risk rules. Each rule is a condition and the weight it adds.

  predicate AbnormalHeartRate(r: HealthRecord) { r.heartRate > 100.0 || r.heartRate < 60.0 }
  predicate HighBloodPressure(r: HealthRecord) { r.systolicBP > 140.0 || r.diastolicBP > 90.0 }
  predicate HighBloodSugar(r: HealthRecord) { r.bloodSugar > 120.0 }
  predicate HighCholesterol(r: HealthRecord) { r.cholesterol > 200.0 }
  predicate CurrentSmoker(r: HealthRecord) { EqualsIgnoreCase("Current", r.smokingStatus) }
  predicate NoExercise(r: HealthRecord) { EqualsIgnoreCase("None", r.exerciseFrequency) }
  predicate HighStress(r: HealthRecord) { r.stressLevel > 7 }
  predicate MildFever(r: HealthRecord) { r.temperature > 37.5 }

  /** A non-null, non-empty free-text field (a literal "None" counts). */
  predicate Declared(s: Option<string>) { s.Some? && |s.value| > 0 }

  /** The weight a rule adds: `w` when it fires, nothing otherwise. */
  function Weight(fires: bool, w: real): (r: real)
    ensures r == 0.0 || r == w
  {
    if fires then w else 0.0
  }

  /** The age rule: only a known birth date contributes. `age` is the number of
      whole years from the birth date to the evaluation day. */
  function AgeWeight(dateOfBirth: Option<Date>, age: int): (w: real)
    ensures dateOfBirth.None? ==> w == 0.0
    ensures dateOfBirth.Some? && age >= 60 ==> w == 0.2
    ensures dateOfBirth.Some? && 40 <= age < 60 ==> w == 0.1
    ensures dateOfBirth.Some? && age < 40 ==> w == 0.0
  {
    if dateOfBirth.None? then 0.0
    else if age >= 60 then 0.2
    else if age >= 40 then 0.1
    else 0.0
  }

  /** The record's share of the raw risk value: its eight rules together add
      at most 1.55. */
  function RecordRisk(r: HealthRecord): (v: real)
    ensures 0.0 <= v <= 1.55
  {
    Weight(AbnormalHeartRate(r), 0.2) + Weight(HighBloodPressure(r), 0.3)
    + Weight(HighBloodSugar(r), 0.25) + Weight(HighCholesterol(r), 0.2)
    + Weight(CurrentSmoker(r), 0.3) + Weight(NoExercise(r), 0.15)
    + Weight(HighStress(r), 0.1) + Weight(MildFever(r), 0.05)
  }

  /** The patient's share of the raw risk value. */
  function PatientRisk(p: Patient, age: int): real
  {
    AgeWeight(p.dateOfBirth, age) + Weight(Declared(p.allergies), 0.05)
    + Weight(Declared(p.medications), 0.1)
  }

  /** The raw risk value: the sum of the weights of the rules that fire. No
      rule subtracts, and all of them together add 1.9. */
  function RawRisk(p: Patient, r: HealthRecord, age: int): (v: real)
    ensures 0.0 <= v <= 1.9
  {
    RecordRisk(r) + PatientRisk(p, age)
  }

  /** The raw value capped at 1.0 (Math.min), hence within [0, 1]. */
  function RiskValue(p: Patient, r: HealthRecord, age: int): (v: real)
    ensures 0.0 <= v <= 1.0
    ensures v == 1.0 || v == RawRisk(p, r, age)
    ensures v <= RawRisk(p, r, age)
  {
    var raw := RawRisk(p, r, age);
    if raw < 1.0 then raw else 1.0
  }

  /** The category thresholds: exactly one category applies to every value. */
  function Classify(v: real): (c: RiskCategory)
    ensures c == HighRisk <==> v > 0.7
    ensures c == ModerateRisk <==> 0.4 < v <= 0.7
    ensures c == LowRisk <==> v <= 0.4
  {
    if v > 0.7 then HighRisk else if v > 0.4 then ModerateRisk else LowRisk
  }

  /** predictRisk on a loaded predictor. */
  function Assess(p: Patient, record: Option<HealthRecord>, age: int): (a: RiskAssessment)
    ensures record.None? <==> a == NoHealthData
    ensures a.Assessed? ==> 0.0 <= a.score <= 1.0 && a.category == Classify(a.score)
  {
    match record
    case None => NoHealthData
    case Some(r) =>
      var v := RiskValue(p, r, age);
      Assessed(Classify(v), v)
  }

  function CategoryName(c: RiskCategory): string
  {
    match c
    case HighRisk => "High Risk"
    case ModerateRisk => "Moderate Risk"
    case LowRisk => "Low Risk"
  }

  function Advice(c: RiskCategory): string
  {
    match c
    case HighRisk => "Immediate medical attention advised."
    case ModerateRisk => "Consult a doctor soon for evaluation."
    case LowRisk => "Maintain healthy lifestyle, routine check-up recommended."
  }

  /** The message predictRisk returns. `twoDecimals` stands for
      String.format("%.2f", ...), whose rendering is not modelled. */
  function Message(a: RiskAssessment, twoDecimals: real -> string): (m: string)
    ensures a == NoHealthData ==> m == NoDataMessage
    ensures a.Assessed? ==> |m| > |CategoryName(a.category)|
                            && m[..|CategoryName(a.category)|] == CategoryName(a.category)
  {
    match a
    case NoHealthData => NoDataMessage
    case Assessed(c, v) =>
      CategoryName(c) + " (Score: " + twoDecimals(v) + ") - " + Advice(c)
  }

  // ---------------------------------------------------------------------------
  // The health score.

  /** The stress penalty `(stressLevel - 5) * 2`, an `int` product: two points
      per level above 5 while that fits in an `int`; from level 1073741829 on
      the product wraps around and the "penalty" is negative. */
  function StressPenalty(stressLevel: Int32): (p: real)
    ensures stressLevel <= 5 ==> p == 0.0
    ensures 5 < stressLevel < 0x4000_0005 ==> p == 2.0 * (stressLevel - 5) as real && p > 0.0
    ensures stressLevel >= 0x4000_0005 ==> p == (2 * (stressLevel - 5) - 0x1_0000_0000) as real && p < 0.0
  {
    if stressLevel > 5 then Int32Wrap((stressLevel - 5) * 2) as real else 0.0
  }

  /** The score before clamping: 100 minus every penalty whose threshold is
      crossed. */
  function RawHealthScore(r: HealthRecord): (s: real)
    ensures r.stressLevel < 0x4000_0005 ==> s <= 100.0
    ensures r.stressLevel <= 5 ==> 15.0 <= s
    ensures r.stressLevel >= 0x4000_0005 ==> 15.0 < s <= 100.0 + 0x8000_0000 as real
  {
    100.0
    - Weight(r.heartRate > 90.0 || r.heartRate < 70.0, 10.0)
    - Weight(r.systolicBP > 130.0 || r.diastolicBP > 85.0, 15.0)
    - Weight(r.bloodSugar > 100.0, 15.0)
    - Weight(r.cholesterol > 180.0, 10.0)
    - Weight(CurrentSmoker(r), 25.0)
    - Weight(NoExercise(r), 10.0)
    - StressPenalty(r.stressLevel)
  }

  /** getHealthScore on a loaded predictor: 0 without a record, otherwise the
      raw score clamped to [0, 100]; the upper clamp matters once the stress
      penalty has wrapped around. */
  function HealthScore(record: Option<HealthRecord>): (s: real)
    ensures 0.0 <= s <= 100.0
    ensures record.None? ==> s == 0.0
    ensures record.Some? && 0.0 <= RawHealthScore(record.value) <= 100.0 ==> s == RawHealthScore(record.value)
    ensures record.Some? && RawHealthScore(record.value) < 0.0 ==> s == 0.0
    ensures record.Some? && RawHealthScore(record.value) > 100.0 ==> s == 100.0
  {
    match record
    case None => 0.0
    case Some(r) =>
      var raw := RawHealthScore(r);
      if raw > 100.0 then 100.0 else if raw < 0.0 then 0.0 else raw
  }

  // ---------------------------------------------------------------------------
  // Properties of the rules.

  /** A record inside every normal range, for a patient under 40 (or of unknown
      age) without allergies or medications, scores 0 and is "Low Risk". */
  lemma AllNormalIsLowRisk(p: Patient, r: HealthRecord, age: int)
    requires 60.0 <= r.heartRate <= 100.0 && r.systolicBP <= 140.0 && r.diastolicBP <= 90.0
    requires r.bloodSugar <= 120.0 && r.cholesterol <= 200.0 && r.stressLevel <= 7
    requires r.temperature <= 37.5 && !CurrentSmoker(r) && !NoExercise(r)
    requires p.dateOfBirth.None? || age < 40
    requires !Declared(p.allergies) && !Declared(p.medications)
    ensures RiskValue(p, r, age) == 0.0
    ensures Assess(p, Some(r), age) == Assessed(LowRisk, 0.0)
  {
  }

  /** Crossing the blood-sugar threshold upward, all else fixed, adds exactly
      0.25 to the raw risk value. */
  lemma BloodSugarStep(p: Patient, r: HealthRecord, age: int, higher: real)
    requires r.bloodSugar <= 120.0 < higher
    ensures RawRisk(p, r.(bloodSugar := higher), age) == RawRisk(p, r, age) + 0.25
  {
  }

  /** When every rule fires the raw sum is 1.9, and the cap makes it exactly
      1.0: "High Risk". */
  lemma EveryRuleFiredSaturates(p: Patient, r: HealthRecord, age: int)
    requires AbnormalHeartRate(r) && HighBloodPressure(r) && HighBloodSugar(r)
    requires HighCholesterol(r) && CurrentSmoker(r) && NoExercise(r)
    requires HighStress(r) && MildFever(r)
    requires p.dateOfBirth.Some? && age >= 60
    requires Declared(p.allergies) && Declared(p.medications)
    ensures RawRisk(p, r, age) == 1.9
    ensures Assess(p, Some(r), age) == Assessed(HighRisk, 1.0)
  {
  }

  /** A record that crosses none of the penalty thresholds scores exactly 100. */
  lemma NoPenaltyScoresHundred(r: HealthRecord)
    requires 70.0 <= r.heartRate <= 90.0 && r.systolicBP <= 130.0 && r.diastolicBP <= 85.0
    requires r.bloodSugar <= 100.0 && r.cholesterol <= 180.0
    requires !CurrentSmoker(r) && !NoExercise(r) && r.stressLevel <= 5
    ensures HealthScore(Some(r)) == 100.0
  {
  }

  /** The largest stress level, with every other value in range: the product
      wraps to -12, the raw score is 112 and the clamp brings it to 100. */
  lemma MaxStressScoresHundred(r: HealthRecord)
    requires 70.0 <= r.heartRate <= 90.0 && r.systolicBP <= 130.0 && r.diastolicBP <= 85.0
    requires r.bloodSugar <= 100.0 && r.cholesterol <= 180.0
    requires !CurrentSmoker(r) && !NoExercise(r) && r.stressLevel == IntMax
    ensures StressPenalty(r.stressLevel) == -12.0
    ensures RawHealthScore(r) == 112.0
    ensures HealthScore(Some(r)) == 100.0
  {
  }

  /** The smoking and exercise rules ignore case: "CURRENT" and "none" fire. */
  lemma SmokingAndExerciseIgnoreCase(r: HealthRecord)
    requires r.smokingStatus == Some("CURRENT") && r.exerciseFrequency == Some("none")
    ensures CurrentSmoker(r) && NoExercise(r)
  {
  }

  // ---------------------------------------------------------------------------

  class HealthRiskPredictor {
    var modelLoaded: bool

    constructor ()
      ensures !modelLoaded
    {
      modelLoaded := false;
    }

    /** loadModel: the simulated load can be interrupted (Thread.sleep throws
        InterruptedException) before the flag is set. */
    method LoadModel(interrupted: bool) returns (loaded: bool)
      modifies this
      ensures loaded == !interrupted
      ensures modelLoaded == (old(modelLoaded) || !interrupted)
    {
      if interrupted {
        return false;
      }
      modelLoaded := true;
      loaded := true;
    }

    /** predictRisk: the gate, the no-data answer, then the rules added up one
        at a time, capped and classified. */
    method PredictRisk(patient: Patient, latestRecord: Option<HealthRecord>, age: int)
      returns (result: Outcome<RiskAssessment>)
      ensures !modelLoaded ==> result == NotReady(NotLoadedMessage)
      ensures modelLoaded ==> result == Ok(Assess(patient, latestRecord, age))
    {
      if !modelLoaded {
        return NotReady(NotLoadedMessage);
      }
      if latestRecord.None? {
        return Ok(NoHealthData);
      }
      var r := latestRecord.value;
      var riskScore := AccumulateRisk(patient, r, age);
      if riskScore > 1.0 {
        riskScore := 1.0;
      }
      var category;
      if riskScore > 0.7 {
        category := HighRisk;
      } else if riskScore > 0.4 {
        category := ModerateRisk;
      } else {
        category := LowRisk;
      }
      result := Ok(Assessed(category, riskScore));
    }

    /** The part of predictRisk that adds the weight of each rule that fires to
        the running `riskScore`, in the source's order: the record's rules,
        then the patient's. The ghost `sum` follows the specification term by
        term. */
    method AccumulateRisk(patient: Patient, r: HealthRecord, age: int) returns (riskScore: real)
      ensures riskScore == RawRisk(patient, r, age)
    {
      riskScore := AccumulateRecordRisk(r);
      ghost var sum := RecordRisk(r);
      if patient.dateOfBirth.Some? {
        if age >= 60 {
          riskScore := riskScore + 0.2;
        } else if age >= 40 {
          riskScore := riskScore + 0.1;
        }
      }
      sum := sum + AgeWeight(patient.dateOfBirth, age);
      assert riskScore == sum;
      if patient.allergies.Some? && |patient.allergies.value| != 0 {
        riskScore := riskScore + 0.05;
      }
      sum := sum + Weight(Declared(patient.allergies), 0.05);
      assert riskScore == sum;
      if patient.medications.Some? && |patient.medications.value| != 0 {
        riskScore := riskScore + 0.1;
      }
      sum := sum + Weight(Declared(patient.medications), 0.1);
      assert riskScore == sum;
    }

    /** The eight record rules of predictRisk, each adding its weight when it
        fires. */
    method AccumulateRecordRisk(r: HealthRecord) returns (riskScore: real)
      ensures riskScore == RecordRisk(r)
    {
      riskScore := 0.0;
      ghost var sum := 0.0;
      if r.heartRate > 100.0 || r.heartRate < 60.0 {
        riskScore := riskScore + 0.2;
      }
      sum := sum + Weight(AbnormalHeartRate(r), 0.2);
      assert riskScore == sum;
      if r.systolicBP > 140.0 || r.diastolicBP > 90.0 {
        riskScore := riskScore + 0.3;
      }
      sum := sum + Weight(HighBloodPressure(r), 0.3);
      assert riskScore == sum;
      if r.bloodSugar > 120.0 {
        riskScore := riskScore + 0.25;
      }
      sum := sum + Weight(HighBloodSugar(r), 0.25);
      assert riskScore == sum;
      if r.cholesterol > 200.0 {
        riskScore := riskScore + 0.2;
      }
      sum := sum + Weight(HighCholesterol(r), 0.2);
      assert riskScore == sum;
      if EqualsIgnoreCase("Current", r.smokingStatus) {
        riskScore := riskScore + 0.3;
      }
      sum := sum + Weight(CurrentSmoker(r), 0.3);
      assert riskScore == sum;
      if EqualsIgnoreCase("None", r.exerciseFrequency) {
        riskScore := riskScore + 0.15;
      }
      sum := sum + Weight(NoExercise(r), 0.15);
      assert riskScore == sum;
      if r.stressLevel > 7 {
        riskScore := riskScore + 0.1;
      }
      sum := sum + Weight(HighStress(r), 0.1);
      assert riskScore == sum;
      if r.temperature > 37.5 {
        riskScore := riskScore + 0.05;
      }
      sum := sum + Weight(MildFever(r), 0.05);
      assert riskScore == sum;
    }

    /** getHealthScore: the gate, 0 without a record, otherwise the penalties
        subtracted one at a time from 100 and the result clamped. */
    method GetHealthScore(latestRecord: Option<HealthRecord>) returns (result: Outcome<real>)
      ensures !modelLoaded ==> result == NotReady(NotLoadedMessage)
      ensures modelLoaded ==> result == Ok(HealthScore(latestRecord))
      ensures result.Ok? ==> 0.0 <= result.value <= 100.0
    {
      if !modelLoaded {
        return NotReady(NotLoadedMessage);
      }
      if latestRecord.None? {
        return Ok(0.0);
      }
      var r := latestRecord.value;
      var score := 100.0;
      if r.heartRate > 90.0 || r.heartRate < 70.0 { score := score - 10.0; }
      if r.systolicBP > 130.0 || r.diastolicBP > 85.0 { score := score - 15.0; }
      if r.bloodSugar > 100.0 { score := score - 15.0; }
      if r.cholesterol > 180.0 { score := score - 10.0; }
      assert score == 100.0
        - Weight(r.heartRate > 90.0 || r.heartRate < 70.0, 10.0)
        - Weight(r.systolicBP > 130.0 || r.diastolicBP > 85.0, 15.0)
        - Weight(r.bloodSugar > 100.0, 15.0)
        - Weight(r.cholesterol > 180.0, 10.0);
      if EqualsIgnoreCase("Current", r.smokingStatus) { score := score - 25.0; }
      if EqualsIgnoreCase("None", r.exerciseFrequency) { score := score - 10.0; }
      if r.stressLevel > 5 { score := score - Int32Wrap((r.stressLevel - 5) * 2) as real; }
      assert score == RawHealthScore(r);
      if score > 100.0 { score := 100.0; }
      if score < 0.0 { score := 0.0; }
      result := Ok(score);
    }

    /** retrainModel only logs and sleeps: the gate is left as it was. */
    method RetrainModel(trainingData: seq<HealthRecord>)
      ensures modelLoaded == old(modelLoaded)
    {
    }
  }
}
