# Calories-burned recommendations: feature engineering and rule engine

This project models the logic of the calories-burned prediction API
(`backend/main.py`). The API takes one workout request and builds a one-row
DataFrame from it. It then adds three engineered heart-rate columns, asks a
trained regression model for the calories burned, and turns the row and the
prediction into six pieces of fitness advice.

The model covers these parts:

- `records.dfy` (module `Records`) holds the request record `UserInput`. Its
  fields follow the API schema: integer fields stay `int`, and float fields
  become exact `real`s. The module also holds the three derived columns
  (`Derived`) and the engineered row (`Enriched`). `Derive` gives heart-rate
  reserve, intensity ratio and workout load. `WellFormed` holds for a row
  whose derived columns are the ones its request yields.
- `features.dfy` (module `Features`) models `feature_engineering`. The
  DataFrame is a class `Frame` whose engineered columns are absent (`None`)
  until assigned. `FeatureEngineering` assigns them in place and returns the
  same frame. It leaves the request's own columns unchanged.
- `recommendations.dfy` (module `Recommendations`) models
  `generate_recommendations`. It has one datatype per advice category. Each
  value carries the exact advice string. There is one function per rule, the
  whole engine `GenerateRecommendations`, and the returned dictionary
  `ToDict`.
- `properties.dfy` (module `RecommendationProperties`) holds the lemmas:
  - boundary values;
  - monotonicity in the ratio, the calories and the training frequency;
  - the experience-level fallback;
  - agreement of the two BMI rules;
  - the recovery rule reusing the stored ratio, and its consequence for
    the intensity advice;
  - integer-only forms of the ratio thresholds;
  - which recommendation sets can occur at all (`Achievable`);
  - the worked end-to-end request;
  - the shape of the returned dictionary and that it loses nothing.
- `pipeline.dfy` (module `Pipeline`) models the endpoint's flow: build the
  frame, engineer it, recommend. The model's prediction is a parameter.

The system's design describes the feature step as a pure function that
raises a division error, and gives a worked example. The code differs on
three points, and the model follows the code:

- The code's `feature_engineering` writes the three columns into the
  caller's DataFrame and returns it. It does not build a fresh record, so it
  is modelled as a method that modifies a `Frame`.
- With a maximum heart rate of 0, the code does not raise a division error:
  pandas and numpy produce infinity or NaN. The model puts a
  `maxBpm != 0` precondition on every member that divides (see "Left out").
  A negative maximum divides normally in the code, so it is allowed here.
- The hydration rule tests `duration > 1` strictly (backend/main.py:92). So
  a session of exactly one hour with one litre of water gets "Hydration level
  is adequate", not the advice to drink more that the design's worked example
  expects. `EndToEndScenario` follows the code.

## Model

| member | source | states |
|---|---|---|
| `Records.IntensityRatio` | backend/main.py:41 | the ratio times the maximum rate gives back the average rate, and it is positive exactly when both rates are non-zero with the same sign |
| `Records.Derive` | backend/main.py:40-42 | the reserve plus the resting rate is the maximum rate, the ratio times the maximum is the average, and the load divided by a non-zero session length is the average rate, and the load is 0 for a session of length 0 |
| `Records.PhysiologicalRanges` | backend/main.py:40-42 | when 0 < resting <= average <= maximum and the duration is non-negative: reserve >= average - resting >= 0, ratio in (0, 1], and load between resting x duration and maximum x duration |
| `Records.DerivedExample` | backend/main.py:40-41 | maximum 180, resting 60, average 140 gives reserve 120 and ratio 7/9 (about 0.7778) |
| `Features.Frame.constructor` | backend/main.py:120-135 | a new frame holds the request's columns and no engineered column |
| `Features.FeatureEngineering` | backend/main.py:39-43 | returns the same frame; the request's columns are unchanged; all three engineered columns are present, and the row read back from the frame equals `Records.Enrich` of the old request, that is the request plus its derived columns, so it is well formed |
| `Recommendations.IntensityAdvice` | backend/main.py:61-66 | "Increase" iff ratio < 0.6, "Maintain" iff 0.6 <= ratio <= 0.8 (both ends included), "Reduce" iff ratio > 0.8 |
| `Recommendations.CalorieTarget` | backend/main.py:69-74 | target 350 iff level 1, 500 iff level 2, 700 iff any other level |
| `Recommendations.CalorieGoalStatus` | backend/main.py:76-81 | "Below target" iff calories < target, "On track" iff target <= calories <= target + 100, "Above target" iff calories > target + 100 |
| `Recommendations.RecommendedWorkoutType` | backend/main.py:84-89 | cardio/HIIT iff BMI > 25, strength iff BMI < 18.5, balanced iff 18.5 <= BMI <= 25 |
| `Recommendations.HydrationAdvice` | backend/main.py:92-95 | more water iff duration > 1 h and water < 2 l; adequate iff duration <= 1 or water >= 2 |
| `Recommendations.RecoveryAdvice` | backend/main.py:98-101 | rest day iff average/maximum > 0.85 or frequency >= 6; frequency >= 6 alone is enough |
| `Recommendations.WeightGoalFor` | backend/main.py:104-109 | fat loss iff BMI > 25, muscle gain iff BMI < 18.5, maintenance iff 18.5 <= BMI <= 25 |
| `Recommendations.GenerateRecommendations` | backend/main.py:48-111 | total whenever the maximum rate is non-zero, and the recommended workout type and the weight goal always agree |
| `Recommendations.ToDict` | backend/main.py:49-111 | the returned dictionary has exactly the six keys Intensity_Recommendation, Calorie_Goal_Status, Recommended_Workout_Type, Hydration_Advice, Recovery_Advice, Weight_Goal |
| `RecommendationProperties.ThresholdBoundaries` | backend/main.py:61-95 | ratio 0.6 and 0.8 give "Maintain"; BMI 25 and 18.5 give balanced / maintenance; level 2 gives on track at 500 and 600, above at 601, below at 499.9; hydration stays adequate at exactly 1 h or 2 l |
| `RecommendationProperties.IntensityMonotone` | backend/main.py:61-66 | a higher ratio never yields an advice nearer to "Increase" |
| `RecommendationProperties.CalorieStatusMonotone` | backend/main.py:69-81 | more calories never move the status towards "Below target" |
| `RecommendationProperties.ExperienceFallback` | backend/main.py:69-74 | any level other than 1 or 2 is judged exactly as level 3 |
| `RecommendationProperties.BmiRulesAgree` | backend/main.py:84-89 | the weight goal is the goal of the recommended workout type: cardio/HIIT iff fat loss, strength iff muscle gain, balanced iff maintenance (backend/main.py:104-109 is the second rule) |
| `RecommendationProperties.RecoveryMonotoneInFrequency` | backend/main.py:98-101 | training more days a week never withdraws the rest-day advice |
| `RecommendationProperties.RecoveryReadsStoredRatio` | backend/main.py:98-101 | on an engineered row, the ratio the recovery rule recomputes equals the stored Intensity_Ratio column (computed at backend/main.py:41) |
| `RecommendationProperties.RestDayImpliesReduce` | backend/main.py:61-66 | on an engineered row with frequency < 6, advising a rest day (backend/main.py:98-101) forces the intensity advice "Reduce" |
| `RecommendationProperties.RatioCompare` | backend/main.py:41 | comparing the ratio avg/max with a constant c/d is the integer comparison of d·avg·max with c·max·max, for either sign of max |
| `RecommendationProperties.IntensityAdviceOnRatesAgrees` | backend/main.py:61-66 | the intensity rule equals an integer-only rule on the raw rates: Increase iff 5·a·m < 3·m², Maintain iff 3·m² <= 5·a·m <= 4·m² |
| `RecommendationProperties.RecoveryAdviceOnRatesAgrees` | backend/main.py:98-101 | the recovery rule equals the integer rule: rest day iff 20·a·m > 17·m² or frequency >= 6 |
| `RecommendationProperties.Achievable` | backend/main.py:48-111 | every recommendation set whose workout type and weight goal agree is produced by some engineered row and calorie count, so this agreement is the only constraint between the six rules |
| `RecommendationProperties.EndToEndScenario` | backend/main.py:39-111 | the worked request (BMI 22, rates 180/140/60, 1 h, 1 l, 3 days, level 2, 520 kcal) gives Maintain, On track, Balanced, adequate hydration, normal recovery, Weight maintenance |
| `RecommendationProperties.ResponseValuesClosed` | backend/main.py:61-109 | each dictionary value is one of its rule's listed advice strings |
| `RecommendationProperties.IntensityTextInjective` | backend/main.py:62-66 | the three intensity advice strings are pairwise distinct |
| `RecommendationProperties.CalorieStatusTextInjective` | backend/main.py:77-81 | the three calorie status strings are pairwise distinct |
| `RecommendationProperties.WorkoutTypeTextInjective` | backend/main.py:85-89 | the three workout type strings are pairwise distinct |
| `RecommendationProperties.HydrationTextInjective` | backend/main.py:93-95 | the two hydration strings are distinct |
| `RecommendationProperties.RecoveryTextInjective` | backend/main.py:99-101 | the two recovery strings are distinct |
| `RecommendationProperties.WeightGoalTextInjective` | backend/main.py:105-109 | the three weight goal strings are pairwise distinct |
| `RecommendationProperties.ToDictInjective` | backend/main.py:49-111 | two recommendation sets with the same dictionary are equal, so the dictionary loses nothing |
| `Pipeline.PredictRecommendations` | backend/main.py:138-144 | for any model prediction, the endpoint's recommendations are those of the engineered request, and the workout type and weight goal agree |

## Left out

- FeatureEngineering: requires a non-zero maximum heart rate. With a maximum of 0, pandas stores infinity or NaN as the ratio instead of raising. IEEE infinities and NaN are not modelled. The UI bounds the maximum to 100-220 (frontend/app.py:17).
- GenerateRecommendations: requires a non-zero maximum heart rate for the same reason. The division in the recovery rule would otherwise give infinity or NaN.
- The same precondition is on `IntensityRatio`, `Derive`, `Enrich`, `RecoveryAdvice` and `PredictRecommendations`, for the same reason.
- Floating point: the source's floats and numpy's float64 are exact reals here. So the two computations of the ratio (lines 41 and 98) are identical by construction, and thresholds compare without rounding.
- Integer width: pandas stores the integer columns as 64-bit. Overflow of `Max_BPM - Resting_BPM` is not modelled, since it needs rates near 2^63.
- The trained model (`joblib.load`, `model.predict`, lines 9 and 141) is opaque. Its prediction is the `caloriesPred` parameter of `PredictRecommendations`.
- The FastAPI app, the `/predict` route and pydantic validation (lines 11-35, 116-117) are HTTP plumbing. Only the record's field set is modelled.
- The DataFrame's column labels (such as "Session_Duration (hours)", lines 120-135) are not modelled. The frame is one row with named fields, and the engine reads the row through `Frame.Row`.
- Rounding to two decimals in the response (lines 147-152) is display formatting and is left out. So is the response wrapper around the recommendations.
- The Streamlit front end (frontend/app.py) is UI and an HTTP client. It is left out.
