/** The recommendation engine as the orchestrator sees it: a load gate in
    front of a composer whose rules are not part of this model. */
module Recommendation {
  import opened Wrappers
  import opened HealthData

  const NotLoadedMessage := "RecommendationEngine model not loaded. Call loadModel() first."

  /** What generateRecommendations computes once past its gate, given the
      patient, the latest record, the risk argument and the predicted labels;
      an exception it raises is `NotReady` (IllegalStateException) or
      `Unexpected` (any other). */
  type Composer = (Patient, Option<HealthRecord>, real, seq<string>) -> Outcome<seq<string>>

  class RecommendationEngine {
    var modelLoaded: bool

    constructor ()
      ensures !modelLoaded
    {
      modelLoaded := false;
    }

    /** loadModel: the simulated load can be interrupted before the flag is set. */
    method LoadModel(interrupted: bool) returns (loaded: bool)
      modifies this
      ensures loaded == !interrupted
      ensures modelLoaded == (old(modelLoaded) || !interrupted)
    {
      if interrupted {
        return false;
      }
      modelLoaded := true;
      loaded := true;
    }

    /** generateRecommendations: refuses to run before loadModel, otherwise
        hands over to the composer. */
    method GenerateRecommendations(patient: Patient, latestRecord: Option<HealthRecord>, riskScore: real,
                                   predictedDiseases: seq<string>, compose: Composer)
      returns (result: Outcome<seq<string>>)
      ensures !modelLoaded ==> result == NotReady(NotLoadedMessage)
      ensures modelLoaded ==> result == compose(patient, latestRecord, riskScore, predictedDiseases)
    {
      if !modelLoaded {
        return NotReady(NotLoadedMessage);
      }
      result := compose(patient, latestRecord, riskScore, predictedDiseases);
    }
  }
}
