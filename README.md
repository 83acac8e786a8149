# SmartHealth prediction core and appointment store, in Dafny

SmartHealth is a desktop application for patients, health records and
appointments. This project models its core:

- The three rule-based "ML" components:
  - `HealthRiskPredictor`: a weighted risk value, capped and put into three
    classes, plus a health score out of 100.
  - `DiseasePredictor`: an ordered list of disease labels.
  - The load gate in front of the `RecommendationEngine`.
- The `MLModelService` orchestrator. It loads the three models, then looks up
  a patient and their latest record, calls the predictors and puts the
  answers into a result map, or returns an `"error"` entry.
- The `AppointmentService` store and the `Appointment` entity. The store is a
  list of appointments plus a `nextAppointmentId` counter. It adds, updates,
  cancels and completes appointments, and answers queries, statistics and
  revenue questions over the list.

Files:

- `wrappers.dfy` (`Option`, `Outcome`).
- `java_int.dfy`: the range and the wrap-around of Java's 32-bit `int`.
- `text.dfy`: ASCII case folding, substring search and decimal rendering of
  ids.
- `health_data.dfy`: the `Patient` and `HealthRecord` values.
- `risk_prediction.dfy`, `disease_prediction.dfy` and `recommendation.dfy`:
  one module per predictor. Each has a class with the `modelLoaded` flag.
  Beside the class, each has the pure rule functions that specify it.
- `model_service.dfy`: the orchestrator. The reference function `Evaluate`
  gives the result map and the trace of calls to the collaborators. The
  class method `GetPredictionAndRecommendations` is proved equal to it.
- `appointment.dfy`: the `Appointment` class.
- `appointment_service.dfy`: the store class, with the stream queries as
  functions on the list.

Conventions:

- Vitals, scores and fees are exact `real`s.
- A `LocalDateTime` is an integer count of minutes, and a `LocalDate` is the
  day it falls on (`DateOf`).
- A nullable Java value becomes an `Option`.
- A Java `int` that the core computes with is an `Int32`, and `+`, `-` and
  `*` on it wrap modulo 2^32 through `JavaInt.Int32Wrap`.
- An `IllegalStateException` from a predictor becomes `Outcome.NotReady`.

The clock, the random draws, interruption, storage and string formatting are
all parameters:

- `now` stands for the clock.
- `age` stands for `Period.between(...).getYears()`.
- The two random draws are booleans: `allergyDraw` and `vitaminDDraw`.
- Interruption of a simulated load is the `interrupted` flag.
- Storage is an `Environment` of lookup functions that return `Found`,
  `Absent` (null), `DbError` (an `SQLException`) or `Failed` (any other
  exception, such as a stored date that does not parse), a `SaveOutcome`,
  and `updated` flags.
- `twoDecimals` stands for `String.format("%.2f", …)`, and `render` for the
  date formatter.

## Model

| member | source | states |
|---|---|---|
| RiskPrediction.HealthRiskPredictor.constructor | src/healthprediction/ml/HealthRiskPredictor.java:12-17 | a new predictor is not loaded |
| RiskPrediction.HealthRiskPredictor.LoadModel | src/healthprediction/ml/HealthRiskPredictor.java:19-27 | the flag becomes set unless the load is interrupted before the assignment; an interrupted load leaves the flag as it was |
| RiskPrediction.HealthRiskPredictor.PredictRisk | src/healthprediction/ml/HealthRiskPredictor.java:29-99 | an unloaded predictor fails with the exact not-loaded message; a loaded one returns the assessment `Assess` (no record: "no health data"; otherwise the capped risk value and its class) |
| RiskPrediction.HealthRiskPredictor.AccumulateRisk | src/healthprediction/ml/HealthRiskPredictor.java:42-86 | the step-by-step `+=` sum equals `RawRisk`, the sum of the weights of exactly the rules that fire |
| RiskPrediction.HealthRiskPredictor.AccumulateRecordRisk | src/healthprediction/ml/HealthRiskPredictor.java:43-65 | the eight record rules, added one `if` at a time, sum to `RecordRisk` |
| RiskPrediction.HealthRiskPredictor.GetHealthScore | src/healthprediction/ml/HealthRiskPredictor.java:101-123 | not loaded: the not-loaded error; loaded: `HealthScore` of the record, with the stress penalty computed in 32-bit `int`; the result lies in [0, 100] |
| RiskPrediction.HealthRiskPredictor.RetrainModel | src/healthprediction/ml/HealthRiskPredictor.java:125-141 | retraining never changes the loaded flag |
| RiskPrediction.RecordRisk | src/healthprediction/ml/HealthRiskPredictor.java:43-65 | the record's rules add between 0 and 1.55 |
| RiskPrediction.AgeWeight | src/healthprediction/ml/HealthRiskPredictor.java:71-78 | age ≥ 60 adds 0.2, 40 ≤ age < 60 adds 0.1, a younger patient or an unknown birth date adds nothing |
| RiskPrediction.RawRisk | src/healthprediction/ml/HealthRiskPredictor.java:42-86 | no rule subtracts, so the raw sum lies in [0, 1.9] |
| RiskPrediction.RiskValue | src/healthprediction/ml/HealthRiskPredictor.java:89 | after `Math.min(1.0, …)` the value lies in [0, 1], is at most the raw sum, and is either 1.0 or the raw sum |
| RiskPrediction.Classify | src/healthprediction/ml/HealthRiskPredictor.java:92-98 | "High Risk" exactly when > 0.7, "Moderate Risk" exactly when in (0.4, 0.7], "Low Risk" exactly when ≤ 0.4, so exactly one class applies |
| RiskPrediction.Assess | src/healthprediction/ml/HealthRiskPredictor.java:34-98 | there is no assessment exactly when the record is null; an assessed value lies in [0, 1] and carries its own classification |
| RiskPrediction.Message | src/healthprediction/ml/HealthRiskPredictor.java:34-98 | no data gives "No health data available for prediction."; otherwise the message starts with the category name |
| RiskPrediction.StressPenalty | src/healthprediction/ml/HealthRiskPredictor.java:120 | `(s - 5) * 2` in `int` arithmetic: zero when s ≤ 5; the positive 2·(s−5) for 5 < s < 2^30 + 5; from 2^30 + 5 on the product wraps to the negative 2·(s−5) − 2^32 |
| RiskPrediction.RawHealthScore | src/healthprediction/ml/HealthRiskPredictor.java:112-120 | 100 minus the penalties: at most 100 while the stress product does not wrap, at least 15 when stress ≤ 5, and above 15 (up to 100 + 2^31) once it wraps |
| RiskPrediction.HealthScore | src/healthprediction/ml/HealthRiskPredictor.java:105-122 | always in [0, 100]; 0 with no record; the raw score when it lies in [0, 100], 0 when it is negative and 100 when it exceeds 100 |
| RiskPrediction.AllNormalIsLowRisk | src/healthprediction/ml/HealthRiskPredictor.java:45-98 | a record inside every normal range, for a patient without age, allergy or medication weight, has value 0 and is "Low Risk" |
| RiskPrediction.BloodSugarStep | src/healthprediction/ml/HealthRiskPredictor.java:51-53 | crossing the 120 blood-sugar threshold, with everything else fixed, adds exactly 0.25 |
| RiskPrediction.EveryRuleFiredSaturates | src/healthprediction/ml/HealthRiskPredictor.java:42-98 | with every rule firing the raw sum is 1.9, capped to 1.0 and "High Risk" |
| RiskPrediction.MaxStressScoresHundred | src/healthprediction/ml/HealthRiskPredictor.java:112-122 | a stress level of `Integer.MAX_VALUE` on an otherwise normal record wraps the penalty to −12, so the raw score is 112 and the clamp gives 100 |
| RiskPrediction.NoPenaltyScoresHundred | src/healthprediction/ml/HealthRiskPredictor.java:112-122 | a record that crosses no penalty threshold scores exactly 100 |
| RiskPrediction.SmokingAndExerciseIgnoreCase | src/healthprediction/ml/HealthRiskPredictor.java:57-62 | "CURRENT" smoking and "none" exercise still fire: the tests ignore case |
| DiseasePrediction.DiseasePredictor.constructor | src/healthprediction/ml/DiseasePredictor.java:13-18 | a new predictor is not loaded |
| DiseasePrediction.DiseasePredictor.LoadModel | src/healthprediction/ml/DiseasePredictor.java:20-25 | the flag becomes set unless the load is interrupted |
| DiseasePrediction.DiseasePredictor.PredictDiseases | src/healthprediction/ml/DiseasePredictor.java:36-90 | not loaded: the exact not-loaded error; loaded: the list the imperative `add`/`contains` steps build equals `PredictedLabels` |
| DiseasePrediction.DiseasePredictor.RetrainModel | src/healthprediction/ml/DiseasePredictor.java:92-103 | retraining never changes the loaded flag |
| DiseasePrediction.LabelText | src/healthprediction/ml/DiseasePredictor.java:44-86 | the exact string `predictDiseases` adds for each label |
| DiseasePrediction.Texts | src/healthprediction/ml/DiseasePredictor.java:44-86 | each label renders as its exact string, in the same order and number |
| DiseasePrediction.PredictedLabels | src/healthprediction/ml/DiseasePredictor.java:43-87 | the list is never empty; a null record gives exactly the one "No sufficient health data" label |
| DiseasePrediction.RuleLabels | src/healthprediction/ml/DiseasePredictor.java:51-83 | the five rule groups in order: at most five labels, and neither the no-data label nor the sentinel |
| DiseasePrediction.Fires | src/healthprediction/ml/DiseasePredictor.java:51-83 | the rule table, label by label: severe pressure or cholesterol; else elevated pressure; sugar above 125, else above 100; fever with a cough, else a temperature above 37.8; and the two draws |
| DiseasePrediction.PredictedMatchesTable | src/healthprediction/ml/DiseasePredictor.java:43-87 | a label is in the list exactly when its rule fires (for the null record, exactly the no-data label; the sentinel exactly when no rule fired) |
| DiseasePrediction.RuleLabelsMatchTable | src/healthprediction/ml/DiseasePredictor.java:51-83 | before the sentinel step, a label is present exactly when its row of the rule table fires, including each random label exactly when its draw is true |
| DiseasePrediction.NothingFiredMeansNoRuleLabels | src/healthprediction/ml/DiseasePredictor.java:85-87 | the list is empty before the sentinel step exactly when no rule fires |
| DiseasePrediction.AtMostOnePerRule | src/healthprediction/ml/DiseasePredictor.java:51-87 | at most one of each pair (hypertension/pre-hypertension, diabetes/pre-diabetes, respiratory/general infection); the sentinel never appears with another label |
| DiseasePrediction.NoDuplicateLabels | src/healthprediction/ml/DiseasePredictor.java:43-87 | no label appears twice, and the sentinel appears only alone |
| DiseasePrediction.AtMostFiveLabels | src/healthprediction/ml/DiseasePredictor.java:51-87 | the list holds at most five labels, since the sentinel only appears alone and each of the five rule groups adds at most one |
| DiseasePrediction.LabelsFollowRuleOrder | src/healthprediction/ml/DiseasePredictor.java:51-83 | labels appear in the fixed rule order: blood pressure, sugar, infection, allergies, vitamin D |
| DiseasePrediction.StagedConcat | src/healthprediction/ml/DiseasePredictor.java:51-83 | appending a later group of rules keeps the order strict |
| DiseasePrediction.HighPressureExample | src/healthprediction/ml/DiseasePredictor.java:51-56 | 150/95 with cholesterol 250 yields the hypertension label and not the pre-hypertension one |
| DiseasePrediction.DryCoughExample | src/healthprediction/ml/DiseasePredictor.java:66-74 | 38.5 °C with "dry cough" yields the respiratory label and excludes the general-infection one |
| Recommendation.RecommendationEngine.constructor | src/healthprediction/service/MLModelService.java:36 | a new engine is not loaded (its flag starts false, RecommendationEngine.java lines 13-17) |
| Recommendation.RecommendationEngine.LoadModel | src/healthprediction/service/MLModelService.java:40 | the engine's flag becomes set unless its load is interrupted (RecommendationEngine.java lines 19-24) |
| Recommendation.RecommendationEngine.GenerateRecommendations | src/healthprediction/service/MLModelService.java:78-80 | an unloaded engine fails as not ready, and a loaded one gives what the composer gives for the same four arguments (the gate at RecommendationEngine.java line 41) |
| ModelService.MLModelService.constructor | src/healthprediction/service/MLModelService.java:15-23 | a new service holds no predictors and has not loaded its models |
| ModelService.MLModelService.LoadModels | src/healthprediction/service/MLModelService.java:32-48 | three fresh predictors; each later load runs only if the earlier ones completed; `modelsLoaded` becomes true only if all three complete, and is never reset |
| ModelService.MLModelService.GetPredictionAndRecommendations | src/healthprediction/service/MLModelService.java:50-101 | the map built by `put`s and early returns, and the calls made, equal the reference `Evaluate` |
| ModelService.MLModelService.CallPredictors | src/healthprediction/service/MLModelService.java:71-99 | the predictor stage equals the reference `Predict` (gates in call order, exceptions mapped to error entries) |
| ModelService.MLModelService.Recommend | src/healthprediction/service/MLModelService.java:78-99 | the recommendation stage equals the reference `Respond` |
| ModelService.Evaluate | src/healthprediction/service/MLModelService.java:50-101 | the reference definition of a request: the not-loaded check, then the patient lookup, then the record lookup, each ending the request on null or an exception, then `Predict` |
| ModelService.Predict | src/healthprediction/service/MLModelService.java:71-99 | either exactly the error entry or exactly the four entries; one to four predictor calls, starting with predictRisk; no error only when all three predictors are ready |
| ModelService.Respond | src/healthprediction/service/MLModelService.java:78-99 | either exactly the error entry or exactly the four entries; no error exactly when the engine is ready and the composer returns a list; always four calls, the last with healthScore/100 |
| ModelService.ErrorOnly | src/healthprediction/service/MLModelService.java:52-99 | an error result has the single key "error", holding the message |
| ModelService.Success | src/healthprediction/service/MLModelService.java:82-85 | a success result has exactly the keys healthRisk, healthScore, predictedDiseases and recommendations, holding the given values, and no "error" key |
| ModelService.NotLoadedLooksNothingUp | src/healthprediction/service/MLModelService.java:51-55 | without loaded models the result holds only the not-loaded error, and no lookup or predictor call happens |
| ModelService.PatientAbsentStopsBeforeRecord | src/healthprediction/service/MLModelService.java:58-62 | an absent patient gives "Patient not found with ID: …" after only the patient lookup |
| ModelService.RecordAbsentStopsBeforePredictors | src/healthprediction/service/MLModelService.java:64-68 | an absent record gives "No health records found for patient ID: …" after the two lookups and before any predictor |
| ModelService.LookupFailuresAreReported | src/healthprediction/service/MLModelService.java:57-99 | a lookup that throws ends the request right after that lookup, with "Database error: " for an `SQLException` and "An unexpected error occurred: " for any other exception, followed by its message |
| ModelService.FoundBothIsPredict | src/healthprediction/service/MLModelService.java:57-80 | once both rows are found, the answer is the predictors' answer and the calls are the two lookups followed by the predictors' calls |
| ModelService.PredictWhenReady | src/healthprediction/service/MLModelService.java:71-80 | with the risk and disease predictors ready, the three predictions are computed and handed to the recommendation step |
| ModelService.PredictorCallsFollowOrder | src/healthprediction/service/MLModelService.java:71-80 | past the lookups, the calls are a prefix of risk, score, diseases, recommendations with healthScore/100 as the risk argument |
| ModelService.ErrorOrFourEntries | src/healthprediction/service/MLModelService.java:50-101 | every result is either exactly one "error" entry or exactly the four success entries |
| ModelService.SuccessExactly | src/healthprediction/service/MLModelService.java:71-85 | the result is a success exactly when the models are loaded, both lookups find their values, all three predictors are ready and the composer succeeds |
| ModelService.CallsFollowFixedOrder | src/healthprediction/service/MLModelService.java:58-80 | calls are a prefix of patient, record, risk, score, diseases, recommendations; the recommendation risk argument is healthScore/100, within [0, 1] by the clamp at HealthRiskPredictor.java line 122 |
| ModelService.NotReadyBecomesError | src/healthprediction/service/MLModelService.java:91-94 | a predictor that is not ready gives an "error" entry "ML Model not ready: " followed by its message, never an escaping failure |
| ModelService.SuccessEntries | src/healthprediction/service/MLModelService.java:71-85 | on success the result is exactly the four entries: the risk message, the two-decimal score, the label strings and the composer's recommendations |
| Appointments.DateOf | src/healthprediction/model/Appointment.java:121-122 | a point in time falls inside the day `DateOf` returns |
| Appointments.PlusDays | src/healthprediction/service/AppointmentService.java:185 | adding n days moves the date by exactly n |
| Appointments.Appointment.constructor | src/healthprediction/model/Appointment.java:27-33 | a new appointment is "Scheduled", lasts 30 minutes, is not an emergency, is created and modified now, and every other field is empty or zero |
| Appointments.Appointment.WithDetails | src/healthprediction/model/Appointment.java:35-43 | the same defaults, plus exactly the five given fields |
| Appointments.Appointment.SetAppointmentId | src/healthprediction/model/Appointment.java:47 | only the id changes |
| Appointments.Appointment.SetStatus | src/healthprediction/model/Appointment.java:74 | only the status changes |
| Appointments.Appointment.FormattedDate | src/healthprediction/model/Appointment.java:100-105 | "N/A" without a date, otherwise the formatter's rendering of the date |
| Appointments.Appointment.IsCompleted | src/healthprediction/model/Appointment.java:107-109 | `"Completed".equalsIgnoreCase(status)`: a completed appointment has a status of that length (the full case-insensitive equality is `StatusTestsIgnoreCase`) |
| Appointments.Appointment.IsCancelled | src/healthprediction/model/Appointment.java:111-113 | `"Cancelled".equalsIgnoreCase(status)`: a cancelled appointment has a status of that length |
| Appointments.Appointment.IsScheduled | src/healthprediction/model/Appointment.java:115-117 | `"Scheduled".equalsIgnoreCase(status)`: a scheduled appointment has a status of that length |
| Appointments.Appointment.IsToday | src/healthprediction/model/Appointment.java:119-124 | only a dated appointment is today, and one dated exactly now is |
| Appointments.Appointment.IsPast | src/healthprediction/model/Appointment.java:126-131 | a past appointment is dated, not in the future, and on or before today |
| Appointments.Appointment.IsFuture | src/healthprediction/model/Appointment.java:133-138 | a future appointment is dated on or after today |
| Appointments.Appointment.Equals | src/healthprediction/model/Appointment.java:146-153 | equals holds exactly for a non-null appointment with the same id |
| Appointments.Appointment.HashCode | src/healthprediction/model/Appointment.java:155-158 | `Objects.hash(id)`, that is 31 + id in 32-bit arithmetic, and so within the int range |
| JavaInt.Int32Wrap | src/healthprediction/model/Appointment.java:155-158 | the result is in the int range, congruent to the input modulo 2^32, and equal to it when it already fits |
| Appointments.StatusesExclusive | src/healthprediction/model/Appointment.java:107-117 | at most one of completed, cancelled and scheduled holds, and a null status passes none of them |
| Appointments.StatusTestsIgnoreCase | src/healthprediction/model/Appointment.java:107-117 | each status test holds exactly when the status equals its literal ignoring case |
| Appointments.DateTestsPartition | src/healthprediction/model/Appointment.java:119-138 | without a date none of today/past/future holds; past and future never both hold; a dated appointment is past, future or exactly now |
| Appointments.EqualsIsEquivalence | src/healthprediction/model/Appointment.java:146-153 | equals is reflexive, symmetric and transitive |
| Appointments.EqualsAgreesWithHashCode | src/healthprediction/model/Appointment.java:146-158 | equal appointments have equal hash codes |
| AppointmentStore.AppointmentService.constructor | src/healthprediction/service/AppointmentService.java:17-22 | an empty list and a counter at 1 |
| AppointmentStore.AppointmentService.LoadAppointmentsFromDatabase | src/healthprediction/service/AppointmentService.java:77-91 | the list is replaced by what storage returned and the counter becomes `IdAfterLoad`; a failed read leaves an empty list and the counter unchanged |
| AppointmentStore.IdAfterLoad | src/healthprediction/service/AppointmentService.java:81-86 | 1 for an empty list; otherwise `max + 1` in `int` arithmetic: while every id is below `Integer.MAX_VALUE` it exceeds every loaded id and is one more than a loaded id; a loaded `Integer.MAX_VALUE` wraps it to `Integer.MIN_VALUE` |
| AppointmentStore.MaxId | src/healthprediction/service/AppointmentService.java:83-85 | an upper bound of every id that some appointment has |
| AppointmentStore.AppointmentService.AddAppointment | src/healthprediction/service/AppointmentService.java:93-102 | the counter grows by 1 in `int` arithmetic (`Integer.MAX_VALUE` wraps to `Integer.MIN_VALUE`) whether or not the save succeeds; the id is the generated key or the old counter; the appointment is appended at the end only if the save did not throw |
| AppointmentStore.AppointmentService.GetAppointmentById | src/healthprediction/service/AppointmentService.java:104-109 | null exactly when no appointment has the id; otherwise a listed appointment with that id |
| AppointmentStore.FirstIndexWithId | src/healthprediction/service/AppointmentService.java:105-108 | the first position with the id, or none when no position has it |
| AppointmentStore.AppointmentService.GetAllAppointments | src/healthprediction/service/AppointmentService.java:111-115 | a copy with the same elements in the same order |
| AppointmentStore.AppointmentService.AppointmentsForPatient | src/healthprediction/service/AppointmentService.java:117-121 | only listed appointments of that patient, and every one of them |
| AppointmentStore.AppointmentService.AppointmentsForDoctor | src/healthprediction/service/AppointmentService.java:123-127 | only listed appointments of that doctor, and every one of them |
| AppointmentStore.Holds | src/healthprediction/service/AppointmentService.java:117-229 | the filter of each query; whatever passes the upcoming or overdue filter is scheduled, upcoming is in the future and overdue in the past; a revenue-period hit is completed and its period is not empty |
| AppointmentStore.Select | src/healthprediction/service/AppointmentService.java:117-211 | a filter keeps exactly the elements that satisfy the criterion, and no more of them than there are |
| AppointmentStore.SelectConcat | src/healthprediction/service/AppointmentService.java:117-127 | filtering keeps the original order: it distributes over concatenation |
| AppointmentStore.SelectIdempotent | src/healthprediction/service/AppointmentService.java:117-127 | filtering twice is filtering once |
| AppointmentStore.AppointmentService.UpdateAppointment | src/healthprediction/service/AppointmentService.java:129-138 | with a successful database update the list becomes `ReplaceById`; otherwise nothing changes |
| AppointmentStore.ReplaceById | src/healthprediction/service/AppointmentService.java:133 | the length is kept, every element with the same id is replaced, and the others are unchanged |
| AppointmentStore.ReplaceKeepsLookups | src/healthprediction/service/AppointmentService.java:133 | replacing keeps the first position of every id |
| AppointmentStore.UpdateIsVisibleAndIdempotent | src/healthprediction/service/AppointmentService.java:133 | after the update, lookup by the id finds the new appointment, and updating twice is updating once |
| AppointmentStore.AppointmentService.MarkStatus | src/healthprediction/service/AppointmentService.java:140-164 | with a successful database update only the first matching appointment gets the status; others are unchanged; a missing id or a failed update changes nothing |
| AppointmentStore.AppointmentService.CancelAppointment | src/healthprediction/service/AppointmentService.java:140-151 | the first matching appointment becomes "Cancelled" and nothing else changes |
| AppointmentStore.AppointmentService.CompleteAppointment | src/healthprediction/service/AppointmentService.java:153-164 | the first matching appointment becomes "Completed" and nothing else changes |
| AppointmentStore.Upcoming | src/healthprediction/service/AppointmentService.java:181-188 | a result exactly when every appointment has a date (otherwise the stream would throw); the window ends at `now.plusDays(daysAhead + 1)` with the `int` sum wrapping |
| AppointmentStore.LargestWindowIsEmpty | src/healthprediction/service/AppointmentService.java:181-188 | with `daysAhead = Integer.MAX_VALUE` the sum wraps to `Integer.MIN_VALUE`, the window ends before now, and no appointment is upcoming |
| AppointmentStore.NothingHoldsSelectsNothing | src/healthprediction/service/AppointmentService.java:117-211 | a filter that no element passes yields the empty list |
| AppointmentStore.Overdue | src/healthprediction/service/AppointmentService.java:190-195 | a result exactly when every appointment has a date |
| AppointmentStore.Stats | src/healthprediction/service/AppointmentService.java:168-179 | statistics exist exactly when every appointment has a date |
| AppointmentStore.StatsMap | src/healthprediction/service/AppointmentService.java:168-179 | exactly the seven keys total, scheduled, completed, cancelled, today, upcoming and overdue, with total, upcoming and overdue holding those statistics |
| AppointmentStore.StatusCountsWithinTotal | src/healthprediction/service/AppointmentService.java:168-173 | scheduled + completed + cancelled ≤ total |
| AppointmentStore.UpcomingOverdueWithinScheduled | src/healthprediction/service/AppointmentService.java:174-175 | upcoming + overdue ≤ scheduled |
| AppointmentStore.StatsBounds | src/healthprediction/service/AppointmentService.java:168-179 | every statistic is within the total, and the status counts sum to at most the total |
| AppointmentStore.UpcomingAndOverdueAreScheduled | src/healthprediction/service/AppointmentService.java:181-195 | every upcoming appointment is scheduled and after now, every overdue one is scheduled and before now, and none is both |
| AppointmentStore.GroupKeys | src/healthprediction/service/AppointmentService.java:197-211 | one key per appointment when no key is null |
| AppointmentStore.Tally | src/healthprediction/service/AppointmentService.java:199-202 | the keys of the count map are exactly the keys that occur, each mapped to its number of occurrences |
| AppointmentStore.CountsBy | src/healthprediction/service/AppointmentService.java:197-211 | a count map exactly when no grouping key is null (`groupingBy` throws on one) |
| AppointmentStore.SumValuesRemove | src/healthprediction/service/AppointmentService.java:199-202 | a map's value sum is any key's count plus the sum over the other keys |
| AppointmentStore.SumValuesIncrement | src/healthprediction/service/AppointmentService.java:199-202 | counting one more occurrence of a key adds exactly 1 to the sum |
| AppointmentStore.TallySumsToLength | src/healthprediction/service/AppointmentService.java:199-202 | the counts of a key sequence sum to its length |
| AppointmentStore.GroupCountsSumToSize | src/healthprediction/service/AppointmentService.java:197-211 | the per-type (or per-doctor) counts sum to the list size, and each is the key's number of occurrences |
| AppointmentStore.TotalRevenue | src/healthprediction/service/AppointmentService.java:213-218 | the sum of the fees of the completed appointments |
| AppointmentStore.FeesWhereConcat | src/healthprediction/service/AppointmentService.java:213-229 | a fee sum over a concatenation is the sum of the two parts |
| AppointmentStore.RevenueCountsOnlyCompleted | src/healthprediction/service/AppointmentService.java:213-218 | the total revenue is 0 for no appointments, and an appointment adds its fee exactly when it is completed |
| AppointmentStore.RevenueByPeriod | src/healthprediction/service/AppointmentService.java:220-229 | a result exactly when every completed appointment has a date |
| AppointmentStore.FeesSplit | src/healthprediction/service/AppointmentService.java:220-229 | with inclusive bounds, the revenue over [start, end] is the revenue over [start, mid] plus that over [mid+1, end] |
| AppointmentStore.RevenueSplitsAtDay | src/healthprediction/service/AppointmentService.java:220-229 | the same split for the revenue-by-period result |
| AppointmentStore.PeriodRevenueWithinTotal | src/healthprediction/service/AppointmentService.java:213-229 | with non-negative fees, the revenue of any period is between 0 and the total revenue |
| Text.Lower | src/healthprediction/ml/DiseasePredictor.java:67 | `toLowerCase` keeps the length and lowers every character |
| Text.EqualsIgnoreCase | src/healthprediction/ml/HealthRiskPredictor.java:57-60 | `literal.equalsIgnoreCase(s)`: false for null, otherwise the same length and equal characters once lowered |
| Text.EqualsIgnoreCaseIsLowerEquality | src/healthprediction/ml/HealthRiskPredictor.java:57-60 | equalsIgnoreCase against a literal is equality after lowering both |
| Text.Contains | src/healthprediction/ml/DiseasePredictor.java:67 | `s.contains(sub)`: `sub` occurs at some position of `s` |

## Left out

- Floating point: vitals, scores and fees are exact reals. Java's `double` sums can land on the other side of the 0.4 and 0.7 class boundaries. Fee sums can also differ in the last digits.
- RiskPrediction.Message: `String.format("%.2f", …)` is the parameter `twoDecimals`, so the contract fixes the category prefix and leaves the digits open. The healthScore entry is likewise `twoDecimals(score)`.
- `java.util.Random`: each `nextDouble() < p` draw is a boolean parameter. The probabilities 0.1 and 0.05 are not modelled.
- `Thread.sleep` is not modelled (timing only). Its `InterruptedException` is the `interrupted` flag. The retrain methods' logging is not modelled either.
- `LocalDate.now()`, `LocalDateTime.now()` and `Period.between`: `now` and `age` are parameters. The statistics pass one `now` to every count. The source reads the clock once per stream in getUpcomingAppointments and getOverdueAppointments, and once per element in isToday, isPast and isFuture (Appointment.java lines 121, 128 and 135), so counts taken across a day or minute boundary may use different instants.
- Case folding and `contains` are ASCII only (Java's `toLowerCase` and `equalsIgnoreCase` are full Unicode).
- The recommendation rules of RecommendationEngine.java (from line 43 on) are the `Composer` parameter. Only its constructor, `loadModel`, its load gate and its place in the call order are modelled.
- `DatabaseService` (SQL, JDBC, sample data) is not modelled. It appears only as lookup functions, as `SaveOutcome` (a generated key, or a thrown exception) and as the `updated` flags. A failed `getAllAppointments` read is `None`.
- `initializeSampleAppointments`, the GUI, `SmartHealthApp` and the `getInstance` singletons are not modelled. The store's constructor stops before the sample data is added.
- Java `int` fields the core does no arithmetic on (patient, doctor and record ids, the duration) are unbounded integers. `Math.toIntExact` on the grouped counts never throws, since a count is at most the list size, so the counts are exact. The range of `LocalDateTime` is not modelled; `plusDays` of any `int` from a present-day `now` stays inside it.
- Appointments.Appointment.IsCompleted: its own ensures gives only the status length. The full case-insensitive equality is the lemma `StatusTestsIgnoreCase`, kept apart because on the predicate it makes every proof about the revenue filters far more expensive.
- Appointments.Appointment.IsCancelled: only the status length, as for IsCompleted; `StatusTestsIgnoreCase` states the equality.
- Appointments.Appointment.IsScheduled: only the status length, as for IsCompleted; `StatusTestsIgnoreCase` states the equality.
- Appointments.Appointment.IsToday, IsPast and IsFuture: their ensures give consequences of the date tests. The partition into past, future and now is the lemma `DateTestsPartition`.
- RiskPrediction.HealthRiskPredictor.PredictRisk returns the assessment, not the string. `Message` gives the string that the orchestrator stores.
- DiseasePrediction.DiseasePredictor.PredictDiseases returns label tags, and `Texts` gives their exact strings.
- A null patient passed to `predictRisk` (a `NullPointerException` in the source) is not modelled: `Patient` is a value.
- A null argument to `updateAppointment` is not modelled either.
- The plain getters, setters and `toString` of `Appointment`, `Patient` and `HealthRecord` are not modelled. Their fields are fields of the class or datatype.
- By-type, by-doctor, upcoming, overdue, statistics and revenue are functions on the list. They model the streams, which do not change state. Where a stream hits a null date or key and throws, they return `None`.
