/**
  What the rule engine of backend/main.py promises, stated over the rules of
  module Recommendations: boundary values, monotonicity, agreement between
  rules, integer forms of the ratio thresholds, which recommendation sets can
  occur at all, and the shape of the returned dictionary.
 */
module RecommendationProperties {

  import opened Records
  import opened Recommendations

  /** The documented boundary values fall in the middle band. */
  lemma ThresholdBoundaries()
    ensures IntensityAdvice(0.6) == Maintain && IntensityAdvice(0.8) == Maintain
    ensures RecommendedWorkoutType(25.0) == Balanced && RecommendedWorkoutType(18.5) == Balanced
    ensures WeightGoalFor(25.0) == WeightMaintenance && WeightGoalFor(18.5) == WeightMaintenance
    ensures CalorieGoalStatus(2, 500.0) == OnTrack && CalorieGoalStatus(2, 600.0) == OnTrack
    ensures CalorieGoalStatus(2, 601.0) == AboveTarget && CalorieGoalStatus(2, 499.9) == BelowTarget
    ensures HydrationAdvice(1.0, 1.0) == HydrationAdequate && HydrationAdvice(1.5, 2.0) == HydrationAdequate
  {
  }

  /** A higher ratio never asks for more intensity. */
  lemma IntensityMonotone(r1: real, r2: real)
    requires r1 <= r2
    ensures IntensityAdvice(r1).Rank() <= IntensityAdvice(r2).Rank()
  {
  }

  /** More calories never move the status towards "Below target". */
  lemma CalorieStatusMonotone(experienceLevel: int, c1: real, c2: real)
    requires c1 <= c2
    ensures CalorieGoalStatus(experienceLevel, c1).Rank() <= CalorieGoalStatus(experienceLevel, c2).Rank()
  {
  }

  /** Any experience level other than 1 or 2 (0, negative, 4, ...) is judged
      exactly as level 3. */
  lemma ExperienceFallback(experienceLevel: int, calories: real)
    requires experienceLevel != 1 && experienceLevel != 2
    ensures CalorieGoalStatus(experienceLevel, calories) == CalorieGoalStatus(3, calories)
  {
  }

  /** The two BMI rules agree band for band, in both directions. */
  lemma BmiRulesAgree(bmi: real)
    ensures WeightGoalFor(bmi) == GoalOf(RecommendedWorkoutType(bmi))
    ensures RecommendedWorkoutType(bmi) == CardioOrHiit <==> WeightGoalFor(bmi) == FatLoss
    ensures RecommendedWorkoutType(bmi) == StrengthTraining <==> WeightGoalFor(bmi) == MuscleGain
    ensures RecommendedWorkoutType(bmi) == Balanced <==> WeightGoalFor(bmi) == WeightMaintenance
  {
  }

  /** Training more often never withdraws the rest-day advice. */
  lemma RecoveryMonotoneInFrequency(avgBpm: int, maxBpm: int, f1: int, f2: int)
    requires maxBpm != 0 && f1 <= f2
    requires RecoveryAdvice(avgBpm, maxBpm, f1) == TakeRestDay
    ensures RecoveryAdvice(avgBpm, maxBpm, f2) == TakeRestDay
  {
  }

  /** On a row that has been through feature engineering, the ratio rule 5
      recomputes is the stored Intensity_Ratio column. */
  lemma RecoveryReadsStoredRatio(e: Enriched)
    requires WellFormed(e)
    ensures RecoveryAdvice(e.input.avgBpm, e.input.maxBpm, e.input.workoutFrequencyDaysPerWeek) == TakeRestDay
            <==> e.derived.intensityRatio > 0.85 || e.input.workoutFrequencyDaysPerWeek >= 6
  {
  }

  /** Without the frequency trigger, a rest day is only advised when the
      intensity advice is "Reduce"; equivalently, "Increase" and "Maintain"
      come with normal recovery unless training six or more days. */
  lemma RestDayImpliesReduce(e: Enriched, calories: real)
    requires WellFormed(e)
    requires e.input.workoutFrequencyDaysPerWeek < 6
    requires GenerateRecommendations(e, calories).recovery == TakeRestDay
    ensures GenerateRecommendations(e, calories).intensity == Reduce
  {
    RecoveryReadsStoredRatio(e);
  }

  /** The ratio a / m compared with a constant c / d, in integers alone:
      both sides are scaled by d * m * m, which is positive whatever the sign
      of m. */
  lemma RatioCompare(a: int, m: int, c: int, d: int)
    requires m != 0 && d > 0
    ensures IntensityRatio(a, m) < (c as real) / (d as real) <==> d * a * m < c * m * m
    ensures IntensityRatio(a, m) == (c as real) / (d as real) <==> d * a * m == c * m * m
  {
    var r := IntensityRatio(a, m);
    var q := (c as real) / (d as real);
    var k := (d * m * m) as real;
    assert m * m > 0;
    assert k > 0.0;
    assert r * (m as real) == a as real;
    assert q * (d as real) == c as real;
    calc {
      r * k;
      r * (m as real) * (d as real) * (m as real);
      ((d * a * m) as real);
    }
    calc {
      q * k;
      q * (d as real) * (m as real) * (m as real);
      ((c * m * m) as real);
    }
    assert r < q <==> r * k < q * k;
    assert r == q <==> r * k == q * k;
  }

  /** Rule 1 on the raw heart rates, with integer arithmetic only: the ratio
      is below 0.6 iff 5 a m < 3 m m, and at most 0.8 iff 5 a m <= 4 m m. */
  function IntensityAdviceOnRates(avgBpm: int, maxBpm: int): Intensity
  {
    var scaled, square := 5 * avgBpm * maxBpm, maxBpm * maxBpm;
    if scaled < 3 * square then Increase
    else if scaled <= 4 * square then Maintain
    else Reduce
  }

  /** The integer form of rule 1 agrees with the real one on every pair of
      rates with a non-zero maximum. */
  lemma IntensityAdviceOnRatesAgrees(avgBpm: int, maxBpm: int)
    requires maxBpm != 0
    ensures IntensityAdvice(IntensityRatio(avgBpm, maxBpm)) == IntensityAdviceOnRates(avgBpm, maxBpm)
  {
    RatioCompare(avgBpm, maxBpm, 3, 5);
    RatioCompare(avgBpm, maxBpm, 4, 5);
    assert 0.6 == (3 as real) / (5 as real);
    assert 0.8 == (4 as real) / (5 as real);
  }

  /** Rule 5 on the raw heart rates: the ratio exceeds 0.85 iff
      20 a m > 17 m m. */
  function RecoveryAdviceOnRates(avgBpm: int, maxBpm: int, frequency: int): Recovery
  {
    if 20 * avgBpm * maxBpm > 17 * maxBpm * maxBpm || frequency >= 6 then TakeRestDay
    else RecoveryNormal
  }

  lemma RecoveryAdviceOnRatesAgrees(avgBpm: int, maxBpm: int, frequency: int)
    requires maxBpm != 0
    ensures RecoveryAdvice(avgBpm, maxBpm, frequency) == RecoveryAdviceOnRates(avgBpm, maxBpm, frequency)
  {
    RatioCompare(avgBpm, maxBpm, 17, 20);
    assert 0.85 == (17 as real) / (20 as real);
  }

  /** Every recommendation set whose workout type and weight goal agree is
      produced by some engineered row and calorie count; with the agreement
      GenerateRecommendations guarantees, that is exactly the set of possible
      results, so the other four rules are independent of one another. */
  lemma Achievable(rec: RecommendationSet) returns (e: Enriched, calories: real)
    requires rec.weightGoal == GoalOf(rec.workoutType)
    ensures WellFormed(e)
    ensures GenerateRecommendations(e, calories) == rec
  {
    // Rule 1 is driven by the average rate alone (maximum 180) ...
    var avgBpm := match rec.intensity
      case Increase => 90     // ratio 0.5
      case Maintain => 126    // ratio 0.7
      case Reduce => 150;     // ratio 5/6, still not above 0.85
    // ... and rule 5 then by the frequency alone.
    var frequency := if rec.recovery == TakeRestDay then 6 else 3;
    calories := match rec.calorieGoalStatus
      case BelowTarget => 400.0
      case OnTrack => 520.0
      case AboveTarget => 650.0;
    var bmi := match rec.workoutType
      case CardioOrHiit => 30.0
      case StrengthTraining => 17.0
      case Balanced => 22.0;
    var duration := if rec.hydration == IncreaseWater then 1.5 else 1.0;
    var u := UserInput(25, "Male", 70.0, 1.75, bmi, 20.0, 180, avgBpm, 60,
                       duration, 1.0, frequency, 2, "Cardio");
    e := Enrich(u);
    assert IntensityRatio(avgBpm, 180) <= 0.85 by {
      RatioCompare(avgBpm, 180, 17, 20);
      assert 0.85 == (17 as real) / (20 as real);
    }
    assert IntensityAdvice(IntensityRatio(avgBpm, 180)) == rec.intensity by {
      IntensityAdviceOnRatesAgrees(avgBpm, 180);
    }
  }

  /** The worked end-to-end request: a 25-year-old at BMI 22, rates
      180 / 140 / 60, one hour, one litre, three days a week, level 2, and a
      prediction of 520 calories. A session of exactly one hour is not over an
      hour, so hydration is judged adequate. */
  lemma EndToEndScenario()
    ensures
      var u := UserInput(25, "Male", 70.0, 1.75, 22.0, 20.0, 180, 140, 60,
                         1.0, 1.0, 3, 2, "Cardio");
      GenerateRecommendations(Enrich(u), 520.0)
        == RecommendationSet(Maintain, OnTrack, Balanced, HydrationAdequate, RecoveryNormal, WeightMaintenance)
  {
  }

  /** Every value of the returned dictionary comes from its rule's closed set. */
  lemma ResponseValuesClosed(rec: RecommendationSet)
    ensures ToDict(rec)["Intensity_Recommendation"] in
      {"Increase workout intensity", "Maintain current workout intensity",
       "Reduce workout intensity to avoid overtraining"}
    ensures ToDict(rec)["Calorie_Goal_Status"] in {"Below target", "On track", "Above target"}
    ensures ToDict(rec)["Recommended_Workout_Type"] in
      {"Cardio or HIIT for fat loss", "Strength training for muscle gain",
       "Balanced workout (Cardio + Strength)"}
    ensures ToDict(rec)["Hydration_Advice"] in
      {"Increase water intake during workouts", "Hydration level is adequate"}
    ensures ToDict(rec)["Recovery_Advice"] in
      {"Take at least one rest day this week", "Recovery level is normal"}
    ensures ToDict(rec)["Weight_Goal"] in {"Fat loss", "Muscle gain", "Weight maintenance"}
  {
  }

  // Within each rule the advice texts are pairwise distinct.

  lemma IntensityTextInjective(a: Intensity, b: Intensity)
    requires a.Text() == b.Text()
    ensures a == b
  {
  }

  lemma CalorieStatusTextInjective(a: CalorieStatus, b: CalorieStatus)
    requires a.Text() == b.Text()
    ensures a == b
  {
  }

  lemma WorkoutTypeTextInjective(a: WorkoutType, b: WorkoutType)
    requires a.Text() == b.Text()
    ensures a == b
  {
  }

  lemma HydrationTextInjective(a: Hydration, b: Hydration)
    requires a.Text() == b.Text()
    ensures a == b
  {
  }

  lemma RecoveryTextInjective(a: Recovery, b: Recovery)
    requires a.Text() == b.Text()
    ensures a == b
  {
  }

  lemma WeightGoalTextInjective(a: WeightGoal, b: WeightGoal)
    requires a.Text() == b.Text()
    ensures a == b
  {
  }

  /** Distinct recommendation sets give distinct dictionaries: no two advice
      texts of one rule coincide, so the dictionary loses nothing. */
  lemma ToDictInjective(r1: RecommendationSet, r2: RecommendationSet)
    requires ToDict(r1) == ToDict(r2)
    ensures r1 == r2
  {
    IntensityTextInjective(r1.intensity, r2.intensity);
    CalorieStatusTextInjective(r1.calorieGoalStatus, r2.calorieGoalStatus);
    WorkoutTypeTextInjective(r1.workoutType, r2.workoutType);
    HydrationTextInjective(r1.hydration, r2.hydration);
    RecoveryTextInjective(r1.recovery, r2.recovery);
    WeightGoalTextInjective(r1.weightGoal, r2.weightGoal);
  }
}
