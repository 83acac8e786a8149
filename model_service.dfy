/** The service that loads the three predictors and answers one patient's
    prediction request: the error precedence of getPredictionAndRecommendations,
    the result it assembles, and how predictor failures become error entries. */
module ModelService {
  import opened Wrappers
  import opened Text
  import opened HealthData
  import RiskPrediction
  import DiseasePrediction
  import Recommendation

  const ErrorKey := "error"
  const HealthRiskKey := "healthRisk"
  const HealthScoreKey := "healthScore"
  const PredictedDiseasesKey := "predictedDiseases"
  const RecommendationsKey := "recommendations"

  const NotLoadedError := "ML models not loaded. Please restart application."
  const DatabaseErrorPrefix := "Database error: "
  const NotReadyPrefix := "ML Model not ready: "
  const UnexpectedPrefix := "An unexpected error occurred: "

  /** A storage lookup: the row, no row (null), an SQLException with its
      message, or any other exception with its message (mapping a row can
      throw, for instance when a stored date does not parse). */
  datatype Fetch<+T> = Found(value: T) | Absent | DbError(message: string) | Failed(message: string)

  /** A value of the result map: a string, or a list of strings. */
  datatype Entry = Str(text: string) | StrList(items: seq<string>)

  /** The lookups and predictor calls a request makes, in order. */
  datatype Call =
    | FindPatient(patientId: int)
    | FindLatestRecord(patientId: int)
    | PredictRisk
    | ComputeHealthScore
    | PredictDiseases
    | GenerateRecommendations(riskArgument: real)

  /** Everything a request depends on besides the service's own state: the
      storage, the patient's age on the current date, the two random draws of
      the disease predictor, the recommendation rules and the "%.2f"
      rendering. */
  datatype Environment = Environment(
    patientById: int -> Fetch<Patient>,
    latestRecordOf: int -> Fetch<HealthRecord>,
    ageOf: Patient -> int,
    allergyDraw: bool,
    vitaminDDraw: bool,
    compose: Recommendation.Composer,
    twoDecimals: real -> string)

  /** Whether each predictor has its model loaded. */
  datatype Readiness = Readiness(risk: bool, disease: bool, engine: bool)

  /** The answer to a request, with the calls made while computing it. */
  datatype Evaluation = Evaluation(results: map<string, Entry>, calls: seq<Call>)

  function ErrorOnly(message: string): (m: map<string, Entry>)
    ensures m.Keys == {ErrorKey} && m[ErrorKey] == Str(message)
  {
    map[ErrorKey := Str(message)]
  }

  function PatientNotFound(patientId: int): string
  {
    "Patient not found with ID: " + IntToString(patientId)
  }

  function NoRecordsFound(patientId: int): string
  {
    "No health records found for patient ID: " + IntToString(patientId)
  }

  const SuccessKeys: set<string> := {HealthRiskKey, HealthScoreKey, PredictedDiseasesKey, RecommendationsKey}

  /** The four entries of a successful answer. */
  function Success(risk: string, score: string, diseases: seq<string>, recommendations: seq<string>): (m: map<string, Entry>)
    ensures m.Keys == SuccessKeys
    ensures ErrorKey !in m
    ensures m[HealthRiskKey] == Str(risk) && m[HealthScoreKey] == Str(score)
    ensures m[PredictedDiseasesKey] == StrList(diseases) && m[RecommendationsKey] == StrList(recommendations)
  {
    map[HealthRiskKey := Str(risk), HealthScoreKey := Str(score),
        PredictedDiseasesKey := StrList(diseases), RecommendationsKey := StrList(recommendations)]
  }

  /** getPredictionAndRecommendations, as a function of the service state. */
  function Evaluate(modelsLoaded: bool, ready: Readiness, patientId: int, env: Environment): (e: Evaluation)
  {
    if !modelsLoaded then Evaluation(ErrorOnly(NotLoadedError), [])
    else
      match env.patientById(patientId)
      case DbError(m) => Evaluation(ErrorOnly(DatabaseErrorPrefix + m), [FindPatient(patientId)])
      case Failed(m) => Evaluation(ErrorOnly(UnexpectedPrefix + m), [FindPatient(patientId)])
      case Absent => Evaluation(ErrorOnly(PatientNotFound(patientId)), [FindPatient(patientId)])
      case Found(p) =>
        var lookups := [FindPatient(patientId), FindLatestRecord(patientId)];
        match env.latestRecordOf(patientId)
        case DbError(m) => Evaluation(ErrorOnly(DatabaseErrorPrefix + m), lookups)
        case Failed(m) => Evaluation(ErrorOnly(UnexpectedPrefix + m), lookups)
        case Absent => Evaluation(ErrorOnly(NoRecordsFound(patientId)), lookups)
        case Found(r) =>
          var rest := Predict(ready, p, r, env);
          Evaluation(rest.results, lookups + rest.calls)
  }

  /** The part after both lookups succeeded: the four predictor calls, where
      a not-ready or unexpected failure replaces the whole answer. The
      recommendation engine gets the health score over 100 as its risk
      argument. */
  function Predict(ready: Readiness, p: Patient, r: HealthRecord, env: Environment): (e: Evaluation)
    ensures e.results.Keys == {ErrorKey} || e.results.Keys == SuccessKeys
    ensures 1 <= |e.calls| <= 4 && e.calls[0] == PredictRisk
    ensures ErrorKey !in e.results ==> ready.risk && ready.disease && ready.engine
  {
    if !ready.risk then
      Evaluation(ErrorOnly(NotReadyPrefix + RiskPrediction.NotLoadedMessage), [PredictRisk])
    else
      var assessment := RiskPrediction.Assess(p, Some(r), env.ageOf(p));
      var score := RiskPrediction.HealthScore(Some(r));
      if !ready.disease then
        Evaluation(ErrorOnly(NotReadyPrefix + DiseasePrediction.NotLoadedMessage),
                   [PredictRisk, ComputeHealthScore, PredictDiseases])
      else
        Respond(ready.engine, p, r, env, assessment, score,
                DiseasePrediction.Texts(DiseasePrediction.PredictedLabels(Some(r), env.allergyDraw, env.vitaminDDraw)))
  }

  /** The last step, given the three predictions: the recommendation call,
      then either its error or the four entries. */
  function Respond(engineReady: bool, p: Patient, r: HealthRecord, env: Environment,
                   assessment: RiskPrediction.RiskAssessment, score: real, diseases: seq<string>): (e: Evaluation)
    ensures e.results.Keys == {ErrorKey} || e.results.Keys == SuccessKeys
    ensures ErrorKey !in e.results <==> engineReady && env.compose(p, Some(r), score / 100.0, diseases).Ok?
    ensures |e.calls| == 4 && e.calls[3] == GenerateRecommendations(score / 100.0)
  {
    var calls := [PredictRisk, ComputeHealthScore, PredictDiseases, GenerateRecommendations(score / 100.0)];
    var recommended :=
      if engineReady then env.compose(p, Some(r), score / 100.0, diseases)
      else NotReady(Recommendation.NotLoadedMessage);
    match recommended
    case NotReady(m) => Evaluation(ErrorOnly(NotReadyPrefix + m), calls)
    case Unexpected(m) => Evaluation(ErrorOnly(UnexpectedPrefix + m), calls)
    case Ok(recommendations) =>
      Evaluation(Success(RiskPrediction.Message(assessment, env.twoDecimals), env.twoDecimals(score),
                         diseases, recommendations), calls)
  }

  /** The full sequence of calls a request can make, in order; every request
      makes a prefix of it. */
  function AllCalls(patientId: int, riskArgument: real): seq<Call>
  {
    [FindPatient(patientId), FindLatestRecord(patientId), PredictRisk, ComputeHealthScore, PredictDiseases,
     GenerateRecommendations(riskArgument)]
  }

  // ---------------------------------------------------------------------------
  // Properties of a request.

  /** Without loaded models the answer is the one error entry, and nothing is
      looked up or called. */
  lemma NotLoadedLooksNothingUp(ready: Readiness, patientId: int, env: Environment)
    ensures Evaluate(false, ready, patientId, env) == Evaluation(ErrorOnly(NotLoadedError), [])
  {
  }

  /** An answer is either exactly the error entry or exactly the four result
      entries. */
  lemma {:induction false} ErrorOrFourEntries(modelsLoaded: bool, ready: Readiness, patientId: int, env: Environment)
    ensures var e := Evaluate(modelsLoaded, ready, patientId, env);
      e.results.Keys == {ErrorKey} || e.results.Keys == SuccessKeys
  {
    if modelsLoaded && env.patientById(patientId).Found? && env.latestRecordOf(patientId).Found? {
      var p, r := env.patientById(patientId).value, env.latestRecordOf(patientId).value;
      assert Evaluate(modelsLoaded, ready, patientId, env).results == Predict(ready, p, r, env).results;
    }
  }

  /** A request succeeds exactly when the models are loaded, both lookups find
      a row, every predictor is ready and the composer returns a list. */
  lemma {:induction false} SuccessExactly(modelsLoaded: bool, ready: Readiness, patientId: int, env: Environment)
    ensures var e := Evaluate(modelsLoaded, ready, patientId, env);
      ErrorKey !in e.results <==>
        && modelsLoaded && ready.risk && ready.disease && ready.engine
        && env.patientById(patientId).Found? && env.latestRecordOf(patientId).Found?
        && var p, r := env.patientById(patientId).value, env.latestRecordOf(patientId).value;
           env.compose(p, Some(r), RiskPrediction.HealthScore(Some(r)) / 100.0,
                       DiseasePrediction.Texts(DiseasePrediction.PredictedLabels(Some(r), env.allergyDraw, env.vitaminDDraw))).Ok?
  {
    if modelsLoaded && env.patientById(patientId).Found? && env.latestRecordOf(patientId).Found? {
      var p, r := env.patientById(patientId).value, env.latestRecordOf(patientId).value;
      FoundBothIsPredict(ready, patientId, env, p, r);
      PredictWhenReady(ready.engine, p, r, env);
    }
  }

  /** Once both rows are found, the answer is the predictors' answer after the
      two lookups. */
  lemma FoundBothIsPredict(ready: Readiness, patientId: int, env: Environment, p: Patient, r: HealthRecord)
    requires env.patientById(patientId) == Found(p) && env.latestRecordOf(patientId) == Found(r)
    ensures Evaluate(true, ready, patientId, env)
      == Evaluation(Predict(ready, p, r, env).results,
                    [FindPatient(patientId), FindLatestRecord(patientId)] + Predict(ready, p, r, env).calls)
  {
  }

  /** A missing patient is reported before the latest record is looked up. */
  lemma PatientAbsentStopsBeforeRecord(ready: Readiness, patientId: int, env: Environment)
    requires env.patientById(patientId).Absent?
    ensures Evaluate(true, ready, patientId, env)
         == Evaluation(ErrorOnly(PatientNotFound(patientId)), [FindPatient(patientId)])
  {
  }

  /** A missing record is reported before any predictor is called. */
  lemma RecordAbsentStopsBeforePredictors(ready: Readiness, patientId: int, env: Environment)
    requires env.patientById(patientId).Found? && env.latestRecordOf(patientId).Absent?
    ensures Evaluate(true, ready, patientId, env)
         == Evaluation(ErrorOnly(NoRecordsFound(patientId)), [FindPatient(patientId), FindLatestRecord(patientId)])
  {
  }

  /** A lookup that throws ends the request with an error entry after that
      lookup: "Database error: " for an SQLException, "An unexpected error
      occurred: " for any other exception, each followed by its message. */
  lemma LookupFailuresAreReported(ready: Readiness, patientId: int, env: Environment)
    ensures env.patientById(patientId).DbError? ==>
      (Evaluate(true, ready, patientId, env)
       == Evaluation(ErrorOnly(DatabaseErrorPrefix + env.patientById(patientId).message), [FindPatient(patientId)]))
    ensures env.patientById(patientId).Failed? ==>
      (Evaluate(true, ready, patientId, env)
       == Evaluation(ErrorOnly(UnexpectedPrefix + env.patientById(patientId).message), [FindPatient(patientId)]))
    ensures env.patientById(patientId).Found? && env.latestRecordOf(patientId).DbError? ==>
      (Evaluate(true, ready, patientId, env)
       == Evaluation(ErrorOnly(DatabaseErrorPrefix + env.latestRecordOf(patientId).message),
                     [FindPatient(patientId), FindLatestRecord(patientId)]))
    ensures env.patientById(patientId).Found? && env.latestRecordOf(patientId).Failed? ==>
      (Evaluate(true, ready, patientId, env)
       == Evaluation(ErrorOnly(UnexpectedPrefix + env.latestRecordOf(patientId).message),
                     [FindPatient(patientId), FindLatestRecord(patientId)]))
  {
  }

  /** The calls of any request are a prefix of the fixed order lookups, risk,
      score, diseases, recommendations, and the recommendation engine's risk
      argument is the clamped health score over 100, so it lies in [0, 1]. */
  lemma {:induction false} CallsFollowFixedOrder(modelsLoaded: bool, ready: Readiness, patientId: int, env: Environment)
    ensures var e := Evaluate(modelsLoaded, ready, patientId, env);
      && (env.latestRecordOf(patientId).Found? ==>
            e.calls <= AllCalls(patientId, RiskPrediction.HealthScore(Some(env.latestRecordOf(patientId).value)) / 100.0))
      && (!env.latestRecordOf(patientId).Found? ==> |e.calls| <= 2)
      && forall i :: 0 <= i < |e.calls| && e.calls[i].GenerateRecommendations? ==>
           0.0 <= e.calls[i].riskArgument <= 1.0
  {
    if modelsLoaded && env.patientById(patientId).Found? && env.latestRecordOf(patientId).Found? {
      var p, r := env.patientById(patientId).value, env.latestRecordOf(patientId).value;
      FoundBothIsPredict(ready, patientId, env, p, r);
      PredictorCallsFollowOrder(ready, p, r, env);
    }
  }

  /** The four predictor calls in their fixed order. */
  function PredictorCalls(riskArgument: real): seq<Call>
  {
    [PredictRisk, ComputeHealthScore, PredictDiseases, GenerateRecommendations(riskArgument)]
  }

  /** Past the lookups, the calls are a prefix of the four predictor calls,
      and the recommendation engine gets the clamped score over 100. */
  lemma {:induction false} PredictorCallsFollowOrder(ready: Readiness, p: Patient, r: HealthRecord, env: Environment)
    ensures Predict(ready, p, r, env).calls <= PredictorCalls(RiskPrediction.HealthScore(Some(r)) / 100.0)
  {
    if ready.risk && ready.disease {
      PredictWhenReady(ready.engine, p, r, env);
    }
  }

  /** A predictor that is not ready turns the answer into a "ML Model not
      ready" error carrying that predictor's message: the first one of risk,
      disease, recommendation engine that is not ready wins. */
  lemma NotReadyBecomesError(ready: Readiness, patientId: int, env: Environment)
    requires env.patientById(patientId).Found? && env.latestRecordOf(patientId).Found?
    requires !(ready.risk && ready.disease && ready.engine)
    ensures Evaluate(true, ready, patientId, env).results == ErrorOnly(NotReadyPrefix +
      if !ready.risk then RiskPrediction.NotLoadedMessage
      else if !ready.disease then DiseasePrediction.NotLoadedMessage
      else Recommendation.NotLoadedMessage)
  {
  }

  /** On success the entries carry the risk message, the rendered score, the
      disease labels and the composer's list. */
  lemma SuccessEntries(ready: Readiness, patientId: int, env: Environment, p: Patient, r: HealthRecord,
                       recommendations: seq<string>)
    requires ready == Readiness(true, true, true)
    requires env.patientById(patientId) == Found(p) && env.latestRecordOf(patientId) == Found(r)
    requires env.compose(p, Some(r), RiskPrediction.HealthScore(Some(r)) / 100.0,
                         DiseasePrediction.Texts(DiseasePrediction.PredictedLabels(Some(r), env.allergyDraw, env.vitaminDDraw)))
             == Ok(recommendations)
    ensures Evaluate(true, ready, patientId, env).results
      == Success(RiskPrediction.Message(RiskPrediction.Assess(p, Some(r), env.ageOf(p)), env.twoDecimals),
                 env.twoDecimals(RiskPrediction.HealthScore(Some(r))),
                 DiseasePrediction.Texts(DiseasePrediction.PredictedLabels(Some(r), env.allergyDraw, env.vitaminDDraw)),
                 recommendations)
  {
    PredictWhenReady(true, p, r, env);
  }

  /** With all three predictors ready, the predictions are computed and handed
      to the recommendation step. */
  lemma PredictWhenReady(engineReady: bool, p: Patient, r: HealthRecord, env: Environment)
    ensures Predict(Readiness(true, true, engineReady), p, r, env)
      == Respond(engineReady, p, r, env, RiskPrediction.Assess(p, Some(r), env.ageOf(p)), RiskPrediction.HealthScore(Some(r)),
                 DiseasePrediction.Texts(DiseasePrediction.PredictedLabels(Some(r), env.allergyDraw, env.vitaminDDraw)))
  {
  }

  // ---------------------------------------------------------------------------

  class MLModelService {
    var riskPredictor: RiskPrediction.HealthRiskPredictor?
    var diseasePredictor: DiseasePrediction.DiseasePredictor?
    var recommendationEngine: Recommendation.RecommendationEngine?
    var modelsLoaded: bool

    /** Once the models count as loaded the three predictors exist. */
    ghost predicate Valid()
      reads this
    {
      modelsLoaded ==> riskPredictor != null && diseasePredictor != null && recommendationEngine != null
    }

    function Ready(): Readiness
      reads this, riskPredictor, diseasePredictor, recommendationEngine
    {
      Readiness(riskPredictor != null && riskPredictor.modelLoaded,
                diseasePredictor != null && diseasePredictor.modelLoaded,
                recommendationEngine != null && recommendationEngine.modelLoaded)
    }

    constructor ()
      ensures !modelsLoaded && Valid()
      ensures riskPredictor == null && diseasePredictor == null && recommendationEngine == null
    {
      riskPredictor := null;
      diseasePredictor := null;
      recommendationEngine := null;
      modelsLoaded := false;
    }

    /** loadModels: three fresh predictors, loaded in turn; an interrupted
        load ends the attempt, and only a complete one sets modelsLoaded. A
        failed attempt leaves an earlier true flag in place, over the new and
        partly unloaded predictors. */
    method LoadModels(riskInterrupted: bool, diseaseInterrupted: bool, engineInterrupted: bool)
      modifies this
      ensures riskPredictor != null && diseasePredictor != null && recommendationEngine != null
      ensures fresh(riskPredictor) && fresh(diseasePredictor) && fresh(recommendationEngine)
      ensures riskPredictor.modelLoaded == !riskInterrupted
      ensures diseasePredictor.modelLoaded == (!riskInterrupted && !diseaseInterrupted)
      ensures recommendationEngine.modelLoaded == (!riskInterrupted && !diseaseInterrupted && !engineInterrupted)
      ensures modelsLoaded == (old(modelsLoaded) || (!riskInterrupted && !diseaseInterrupted && !engineInterrupted))
      ensures Valid()
    {
      var risk := new RiskPrediction.HealthRiskPredictor();
      var disease := new DiseasePrediction.DiseasePredictor();
      var engine := new Recommendation.RecommendationEngine();
      riskPredictor, diseasePredictor, recommendationEngine := risk, disease, engine;
      var loaded := risk.LoadModel(riskInterrupted);
      if !loaded {
        return;
      }
      loaded := disease.LoadModel(diseaseInterrupted);
      if !loaded {
        return;
      }
      loaded := engine.LoadModel(engineInterrupted);
      if !loaded {
        return;
      }
      modelsLoaded := true;
    }

    /** getPredictionAndRecommendations: the result map and the calls made,
        exactly as Evaluate describes them. */
    method GetPredictionAndRecommendations(patientId: int, env: Environment)
      returns (results: map<string, Entry>, calls: seq<Call>)
      requires Valid()
      ensures Evaluation(results, calls) == Evaluate(modelsLoaded, Ready(), patientId, env)
    {
      calls := [];
      if !modelsLoaded {
        results := ErrorOnly(NotLoadedError);
        return;
      }
      calls := calls + [FindPatient(patientId)];
      var patient := env.patientById(patientId);
      if patient.DbError? {
        results := ErrorOnly(DatabaseErrorPrefix + patient.message);
        return;
      }
      if patient.Failed? {
        results := ErrorOnly(UnexpectedPrefix + patient.message);
        return;
      }
      if patient.Absent? {
        results := ErrorOnly(PatientNotFound(patientId));
        return;
      }
      calls := calls + [FindLatestRecord(patientId)];
      var latestRecord := env.latestRecordOf(patientId);
      if latestRecord.DbError? {
        results := ErrorOnly(DatabaseErrorPrefix + latestRecord.message);
        return;
      }
      if latestRecord.Failed? {
        results := ErrorOnly(UnexpectedPrefix + latestRecord.message);
        return;
      }
      if latestRecord.Absent? {
        results := ErrorOnly(NoRecordsFound(patientId));
        return;
      }
      var predictorCalls;
      results, predictorCalls := CallPredictors(patient.value, latestRecord.value, env);
      calls := calls + predictorCalls;
    }

    /** The try block past the two lookups: the four predictor calls, a
        failure of any of them caught and turned into the error entry. */
    method CallPredictors(p: Patient, r: HealthRecord, env: Environment)
      returns (results: map<string, Entry>, calls: seq<Call>)
      requires Valid() && modelsLoaded
      ensures Evaluation(results, calls) == Predict(Ready(), p, r, env)
    {
      ghost var ready := Ready();
      calls := [PredictRisk];
      var healthRisk := riskPredictor.PredictRisk(p, Some(r), env.ageOf(p));
      if healthRisk.NotReady? {
        results := ErrorOnly(NotReadyPrefix + healthRisk.message);
        assert Evaluation(results, calls) == Predict(ready, p, r, env);
        return;
      }
      calls := calls + [ComputeHealthScore];
      var healthScore := riskPredictor.GetHealthScore(Some(r));
      assert healthScore.value == RiskPrediction.HealthScore(Some(r));
      calls := calls + [PredictDiseases];
      var predicted := diseasePredictor.PredictDiseases(p, Some(r), env.allergyDraw, env.vitaminDDraw);
      if predicted.NotReady? {
        results := ErrorOnly(NotReadyPrefix + predicted.message);
        assert Evaluation(results, calls) == Predict(ready, p, r, env);
        return;
      }
      var predictedDiseases := DiseasePrediction.Texts(predicted.value);
      results, calls := Recommend(p, r, env, healthRisk.value, healthScore.value, predictedDiseases);
    }

    /** The recommendation call and the entries built from its answer. */
    method Recommend(p: Patient, r: HealthRecord, env: Environment,
                     assessment: RiskPrediction.RiskAssessment, score: real, diseases: seq<string>)
      returns (results: map<string, Entry>, calls: seq<Call>)
      requires Valid() && modelsLoaded
      ensures Evaluation(results, calls) == Respond(Ready().engine, p, r, env, assessment, score, diseases)
    {
      calls := [PredictRisk, ComputeHealthScore, PredictDiseases, GenerateRecommendations(score / 100.0)];
      var recommendations := recommendationEngine.GenerateRecommendations(
        p, Some(r), score / 100.0, diseases, env.compose);
      if recommendations.NotReady? {
        results := ErrorOnly(NotReadyPrefix + recommendations.message);
        return;
      }
      if recommendations.Unexpected? {
        results := ErrorOnly(UnexpectedPrefix + recommendations.message);
        return;
      }
      results := Success(RiskPrediction.Message(assessment, env.twoDecimals), env.twoDecimals(score),
                         diseases, recommendations.value);
    }
  }
}
