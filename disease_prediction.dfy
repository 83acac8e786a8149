/** DiseasePredictor: an ordered list of candidate disease labels built from
    threshold rules, two random additions and a sentinel, behind a gate. */
module DiseasePrediction {
  import opened Wrappers
  import opened Text
  import opened HealthData

  const NotLoadedMessage := "DiseasePredictor model not loaded. Call loadModel() first."

  /** The labels predictDiseases can produce, as tags; `LabelText` gives the exact
      string the source adds to its list. */
  datatype Label =
    | NoSufficientData
    | HypertensionRisk | PreHypertension
    | DiabetesType2 | PreDiabetes
    | RespiratoryInfection | GeneralInfection
    | SeasonalAllergies | VitaminDDeficiency
    | NoSpecificRisk

  function LabelText(l: Label): string
  {
    match l
    case NoSufficientData => "No sufficient health data to predict diseases."
    case HypertensionRisk => "Hypertension/Heart Disease Risk"
    case PreHypertension => "Pre-hypertension/Elevated Cholesterol"
    case DiabetesType2 => "Diabetes Mellitus Type 2 (High Sugar)"
    case PreDiabetes => "Pre-diabetes"
    case RespiratoryInfection => "Respiratory Infection (e.g., Flu/Common Cold)"
    case GeneralInfection => "Possible General Infection"
    case SeasonalAllergies => "Seasonal Allergies"
    case VitaminDDeficiency => "Vitamin D Deficiency"
    case NoSpecificRisk => "No specific disease risk predicted based on current data."
  }

  /** The list of strings the source returns for a list of tags. */
  function Texts(labels: seq<Label>): (r: seq<string>)
    ensures |r| == |labels|
    ensures forall i :: 0 <= i < |labels| ==> r[i] == LabelText(labels[i])
  {
    if labels == [] then [] else [LabelText(labels[0])] + Texts(labels[1..])
  }

  // ---------------------------------------------------------------------------
  // The rules, one function per group, in the order they are applied.

  predicate SevereCardiovascular(r: HealthRecord)
  {
    (r.systolicBP > 140.0 && r.diastolicBP > 90.0) || r.cholesterol > 240.0
  }

  predicate ElevatedPressure(r: HealthRecord)
  {
    r.systolicBP > 130.0 || r.diastolicBP > 85.0
  }

  /** Temperature above 38.0 and symptoms that mention a cough in any case. */
  predicate RespiratorySigns(r: HealthRecord)
  {
    r.temperature > 38.0 && r.symptoms.Some? && Contains(Lower(r.symptoms.value), "cough")
  }

  function CardiovascularLabels(r: HealthRecord): seq<Label>
  {
    if SevereCardiovascular(r) then [HypertensionRisk]
    else if ElevatedPressure(r) then [PreHypertension]
    else []
  }

  function SugarLabels(r: HealthRecord): seq<Label>
  {
    if r.bloodSugar > 125.0 then [DiabetesType2]
    else if r.bloodSugar > 100.0 then [PreDiabetes]
    else []
  }

  /** The general-infection rule is skipped exactly when the respiratory rule
      has added its label. */
  function InfectionLabels(r: HealthRecord): seq<Label>
  {
    if RespiratorySigns(r) then [RespiratoryInfection]
    else if r.temperature > 37.8 then [GeneralInfection]
    else []
  }

  /** The two independent random additions, with their draws given. */
  function AllergyLabels(allergyDraw: bool): seq<Label>
  {
    if allergyDraw then [SeasonalAllergies] else []
  }

  function VitaminDLabels(vitaminDDraw: bool): seq<Label>
  {
    if vitaminDDraw then [VitaminDDeficiency] else []
  }

  /** The labels of the five rule groups, in order; each group adds at most
      one, and neither placeholder label comes from a rule. */
  function RuleLabels(r: HealthRecord, allergyDraw: bool, vitaminDDraw: bool): (labels: seq<Label>)
    ensures |labels| <= 5
    ensures NoSufficientData !in labels && NoSpecificRisk !in labels
  {
    CardiovascularLabels(r) + SugarLabels(r) + InfectionLabels(r) + AllergyLabels(allergyDraw) + VitaminDLabels(vitaminDDraw)
  }

  /** predictDiseases on a loaded predictor. `allergyDraw` stands for
      `nextDouble() < 0.1`, `vitaminDDraw` for the second `nextDouble() < 0.05`. */
  function PredictedLabels(record: Option<HealthRecord>, allergyDraw: bool, vitaminDDraw: bool): (labels: seq<Label>)
    ensures |labels| >= 1
    ensures record.None? ==> labels == [NoSufficientData]
  {
    match record
    case None => [NoSufficientData]
    case Some(r) =>
      var found := RuleLabels(r, allergyDraw, vitaminDDraw);
      if found == [] then [NoSpecificRisk] else found
  }

  // ---------------------------------------------------------------------------
  // Properties of the label list.

  /** The position of a label's rule in the fixed rule order; the two labels of
      a paired rule share one position. */
  function Stage(l: Label): nat
  {
    match l
    case HypertensionRisk | PreHypertension => 0
    case DiabetesType2 | PreDiabetes => 1
    case RespiratoryInfection | GeneralInfection => 2
    case SeasonalAllergies => 3
    case VitaminDDeficiency => 4
    case NoSufficientData | NoSpecificRisk => 5
  }

  predicate StrictlyStaged(labels: seq<Label>)
  {
    forall i, j :: 0 <= i < j < |labels| ==> Stage(labels[i]) < Stage(labels[j])
  }

  lemma {:induction false} StagedConcat(a: seq<Label>, b: seq<Label>, n: nat)
    requires StrictlyStaged(a) && StrictlyStaged(b)
    requires forall x :: x in a ==> Stage(x) < n
    requires forall y :: y in b ==> n <= Stage(y)
    ensures StrictlyStaged(a + b)
  {
    forall i, j | 0 <= i < j < |a + b|
      ensures Stage((a + b)[i]) < Stage((a + b)[j])
    {
      if j < |a| {
        assert (a + b)[i] == a[i] && (a + b)[j] == a[j];
      } else if i < |a| {
        assert (a + b)[i] == a[i] && (a + b)[j] == b[j - |a|];
        assert a[i] in a && b[j - |a|] in b;
      } else {
        assert (a + b)[i] == b[i - |a|] && (a + b)[j] == b[j - |a|];
      }
    }
  }

  /** Labels appear in the fixed rule order (blood pressure, sugar, infection,
      allergies, vitamin D), with no two from one rule: the stage strictly
      increases along the list. */
  lemma LabelsFollowRuleOrder(r: HealthRecord, allergyDraw: bool, vitaminDDraw: bool)
    ensures StrictlyStaged(RuleLabels(r, allergyDraw, vitaminDDraw))
  {
    var c, d, f := CardiovascularLabels(r), SugarLabels(r), InfectionLabels(r);
    var x, v := AllergyLabels(allergyDraw), VitaminDLabels(vitaminDDraw);
    assert forall y :: y in c ==> Stage(y) == 0;
    assert forall y :: y in d ==> Stage(y) == 1;
    assert forall y :: y in f ==> Stage(y) == 2;
    assert forall y :: y in x ==> Stage(y) == 3;
    assert forall y :: y in v ==> Stage(y) == 4;
    StagedConcat(c, d, 1);
    StagedConcat(c + d, f, 2);
    StagedConcat(c + d + f, x, 3);
    StagedConcat(c + d + f + x, v, 4);
  }

  /** The rule table, label by label: whether the rules add `l` for record
      `r` and the two draws. */
  predicate Fires(r: HealthRecord, allergyDraw: bool, vitaminDDraw: bool, l: Label)
  {
    match l
    case HypertensionRisk => SevereCardiovascular(r)
    case PreHypertension => !SevereCardiovascular(r) && ElevatedPressure(r)
    case DiabetesType2 => r.bloodSugar > 125.0
    case PreDiabetes => 100.0 < r.bloodSugar <= 125.0
    case RespiratoryInfection => RespiratorySigns(r)
    case GeneralInfection => r.temperature > 37.8 && !RespiratorySigns(r)
    case SeasonalAllergies => allergyDraw
    case VitaminDDeficiency => vitaminDDraw
    case NoSufficientData | NoSpecificRisk => false
  }

  /** The ordered list of rule labels holds exactly the labels the table fires. */
  lemma {:induction false} RuleLabelsMatchTable(r: HealthRecord, allergyDraw: bool, vitaminDDraw: bool, l: Label)
    ensures l in RuleLabels(r, allergyDraw, vitaminDDraw) <==> Fires(r, allergyDraw, vitaminDDraw, l)
  {
    var c, d, f := CardiovascularLabels(r), SugarLabels(r), InfectionLabels(r);
    var x, v := AllergyLabels(allergyDraw), VitaminDLabels(vitaminDDraw);
    assert RuleLabels(r, allergyDraw, vitaminDDraw) == c + d + f + x + v;
    assert l in c + d + f + x + v <==> l in c || l in d || l in f || l in x || l in v;
  }

  /** Some rule fires exactly when the rule list is non-empty. */
  lemma {:induction false} NothingFiredMeansNoRuleLabels(r: HealthRecord, allergyDraw: bool, vitaminDDraw: bool)
    ensures RuleLabels(r, allergyDraw, vitaminDDraw) == [] <==> forall k :: !Fires(r, allergyDraw, vitaminDDraw, k)
  {
    var found := RuleLabels(r, allergyDraw, vitaminDDraw);
    if found == [] {
      forall k
        ensures !Fires(r, allergyDraw, vitaminDDraw, k)
      {
        RuleLabelsMatchTable(r, allergyDraw, vitaminDDraw, k);
      }
    } else {
      RuleLabelsMatchTable(r, allergyDraw, vitaminDDraw, found[0]);
    }
  }

  /** predictDiseases, label by label: without a record only the no-data label;
      with one, the labels the table fires, plus the "no specific risk"
      sentinel exactly when nothing fired. */
  lemma {:induction false} PredictedMatchesTable(record: Option<HealthRecord>, allergyDraw: bool, vitaminDDraw: bool, l: Label)
    ensures l in PredictedLabels(record, allergyDraw, vitaminDDraw) <==>
      match record
      case None => l == NoSufficientData
      case Some(r) =>
        Fires(r, allergyDraw, vitaminDDraw, l)
        || (l == NoSpecificRisk && forall k :: !Fires(r, allergyDraw, vitaminDDraw, k))
  {
    if record.Some? {
      RuleLabelsMatchTable(record.value, allergyDraw, vitaminDDraw, l);
      NothingFiredMeansNoRuleLabels(record.value, allergyDraw, vitaminDDraw);
    }
  }

  /** At most one label of each paired rule and of the two infection rules,
      and the sentinel only on its own. */
  lemma {:induction false} AtMostOnePerRule(record: Option<HealthRecord>, allergyDraw: bool, vitaminDDraw: bool)
    ensures var labels := PredictedLabels(record, allergyDraw, vitaminDDraw);
      && !(HypertensionRisk in labels && PreHypertension in labels)
      && !(DiabetesType2 in labels && PreDiabetes in labels)
      && !(RespiratoryInfection in labels && GeneralInfection in labels)
      && (NoSpecificRisk in labels ==> labels == [NoSpecificRisk])
  {
    NoDuplicateLabels(record, allergyDraw, vitaminDDraw);
    PredictedMatchesTable(record, allergyDraw, vitaminDDraw, HypertensionRisk);
    PredictedMatchesTable(record, allergyDraw, vitaminDDraw, PreHypertension);
    PredictedMatchesTable(record, allergyDraw, vitaminDDraw, DiabetesType2);
    PredictedMatchesTable(record, allergyDraw, vitaminDDraw, PreDiabetes);
    PredictedMatchesTable(record, allergyDraw, vitaminDDraw, RespiratoryInfection);
    PredictedMatchesTable(record, allergyDraw, vitaminDDraw, GeneralInfection);
  }

  /** No label appears twice, and the sentinel, when present, is alone. */
  lemma {:induction false} NoDuplicateLabels(record: Option<HealthRecord>, allergyDraw: bool, vitaminDDraw: bool)
    ensures var labels := PredictedLabels(record, allergyDraw, vitaminDDraw);
      && (forall i, j :: 0 <= i < j < |labels| ==> labels[i] != labels[j])
      && (NoSpecificRisk in labels ==> labels == [NoSpecificRisk])
  {
    if record.Some? {
      var found := RuleLabels(record.value, allergyDraw, vitaminDDraw);
      LabelsFollowRuleOrder(record.value, allergyDraw, vitaminDDraw);
      RuleLabelsMatchTable(record.value, allergyDraw, vitaminDDraw, NoSpecificRisk);
    }
  }

  /** The list never holds more than five labels: one per rule group. */
  lemma {:induction false} AtMostFiveLabels(record: Option<HealthRecord>, allergyDraw: bool, vitaminDDraw: bool)
    ensures |PredictedLabels(record, allergyDraw, vitaminDDraw)| <= 5
  {
    if record.Some? {
      var r := record.value;
      assert |RuleLabels(r, allergyDraw, vitaminDDraw)| ==
        |CardiovascularLabels(r)| + |SugarLabels(r)| + |InfectionLabels(r)|
        + |AllergyLabels(allergyDraw)| + |VitaminDLabels(vitaminDDraw)|;
    }
  }

  /** Blood pressure 150/95 with cholesterol 250 yields the hypertension label,
      not the pre-hypertension one. */
  lemma HighPressureExample(r: HealthRecord, allergyDraw: bool, vitaminDDraw: bool)
    requires r.systolicBP == 150.0 && r.diastolicBP == 95.0 && r.cholesterol == 250.0
    ensures var labels := PredictedLabels(Some(r), allergyDraw, vitaminDDraw);
      HypertensionRisk in labels && PreHypertension !in labels
  {
  }

  /** A temperature of 38.5 with a "dry cough" yields the respiratory label and
      not the general one. */
  lemma {:induction false} DryCoughExample(r: HealthRecord, allergyDraw: bool, vitaminDDraw: bool)
    requires r.temperature == 38.5 && r.symptoms == Some("dry cough")
    ensures var labels := PredictedLabels(Some(r), allergyDraw, vitaminDDraw);
      RespiratoryInfection in labels && GeneralInfection !in labels
  {
    var s := r.symptoms.value;
    LowerKeepsLowercase(s);
    assert s[4..9] == "cough";
    assert OccursAt(Lower(s), "cough", 4);
    PredictedMatchesTable(Some(r), allergyDraw, vitaminDDraw, RespiratoryInfection);
    PredictedMatchesTable(Some(r), allergyDraw, vitaminDDraw, GeneralInfection);
  }

  // ---------------------------------------------------------------------------

  class DiseasePredictor {
    var modelLoaded: bool

    constructor ()
      ensures !modelLoaded
    {
      modelLoaded := false;
    }

    /** loadModel: the simulated load can be interrupted before the flag is set. */
    method LoadModel(interrupted: bool) returns (loaded: bool)
      modifies this
      ensures loaded == !interrupted
      ensures modelLoaded == (old(modelLoaded) || !interrupted)
    {
      if interrupted {
        return false;
      }
      modelLoaded := true;
      loaded := true;
    }

    /** predictDiseases: grows the list rule by rule, checks it for the
        respiratory label before the general-infection rule, and adds the
        sentinel if nothing was added. */
    method PredictDiseases(patient: Patient, latestRecord: Option<HealthRecord>, allergyDraw: bool, vitaminDDraw: bool)
      returns (result: Outcome<seq<Label>>)
      ensures !modelLoaded ==> result == NotReady(NotLoadedMessage)
      ensures modelLoaded ==> result == Ok(PredictedLabels(latestRecord, allergyDraw, vitaminDDraw))
    {
      if !modelLoaded {
        return NotReady(NotLoadedMessage);
      }
      var predicted: seq<Label> := [];
      if latestRecord.None? {
        predicted := predicted + [NoSufficientData];
        assert predicted == [NoSufficientData];
        return Ok(predicted);
      }
      var r := latestRecord.value;
      if (r.systolicBP > 140.0 && r.diastolicBP > 90.0) || r.cholesterol > 240.0 {
        predicted := predicted + [HypertensionRisk];
      } else if r.systolicBP > 130.0 || r.diastolicBP > 85.0 {
        predicted := predicted + [PreHypertension];
      }
      assert predicted == CardiovascularLabels(r);
      if r.bloodSugar > 125.0 {
        predicted := predicted + [DiabetesType2];
      } else if r.bloodSugar > 100.0 {
        predicted := predicted + [PreDiabetes];
      }
      assert predicted == CardiovascularLabels(r) + SugarLabels(r);
      if r.temperature > 38.0 && r.symptoms.Some? && Contains(Lower(r.symptoms.value), "cough") {
        predicted := predicted + [RespiratoryInfection];
      }
      ghost var beforeGeneral := predicted;
      assert RespiratoryInfection in beforeGeneral <==> RespiratorySigns(r);
      if r.temperature > 37.8 && RespiratoryInfection !in predicted {
        predicted := predicted + [GeneralInfection];
      }
      assert predicted == CardiovascularLabels(r) + SugarLabels(r) + InfectionLabels(r);
      if allergyDraw {
        predicted := predicted + [SeasonalAllergies];
      }
      assert predicted == CardiovascularLabels(r) + SugarLabels(r) + InfectionLabels(r) + AllergyLabels(allergyDraw);
      if vitaminDDraw {
        predicted := predicted + [VitaminDDeficiency];
      }
      assert predicted == RuleLabels(r, allergyDraw, vitaminDDraw);
      if predicted == [] {
        predicted := predicted + [NoSpecificRisk];
        assert predicted == [NoSpecificRisk];
      }
      result := Ok(predicted);
    }

    /** retrainModel only logs and sleeps: the gate is left as it was. */
    method RetrainModel(trainingData: seq<HealthRecord>, patientsData: seq<Patient>)
      ensures modelLoaded == old(modelLoaded)
    {
    }
  }
}
