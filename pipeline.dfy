/**
  The flow of the `/predict` endpoint (backend/main.py): build the one-row
  frame from the request, engineer its features, predict, recommend. The
  trained model is not part of this model: its prediction is a parameter.
 */
module Pipeline {

  import opened Records
  import opened Features
  import opened Recommendations

  /** Recommendations for one request and the model's calorie prediction. */
  method PredictRecommendations(data: UserInput, caloriesPred: real) returns (rec: RecommendationSet)
    requires data.maxBpm != 0
    ensures rec == GenerateRecommendations(Enrich(data), caloriesPred)
    ensures rec.weightGoal == GoalOf(rec.workoutType)
  {
    var df := new Frame(data);
    df := FeatureEngineering(df);
    rec := GenerateRecommendations(df.Row(), caloriesPred);
  }
}
