/**
  `generate_recommendations` (backend/main.py): a rule engine that maps an
  engineered row and a predicted calorie count to six pieces of advice, each
  drawn from a small closed set by threshold comparisons.
 */
module Recommendations {

  import opened Records

  /** Rule 1: how hard to train, from the intensity ratio. */
  datatype Intensity = Increase | Maintain | Reduce {
    function Text(): string {
      match this
      case Increase => "Increase workout intensity"
      case Maintain => "Maintain current workout intensity"
      case Reduce => "Reduce workout intensity to avoid overtraining"
    }

    /** Position along the ratio axis: Increase below Maintain below Reduce. */
    function Rank(): nat {
      match this
      case Increase => 0
      case Maintain => 1
      case Reduce => 2
    }
  }

  /** Rule 2: the predicted calories against the experience-level target. */
  datatype CalorieStatus = BelowTarget | OnTrack | AboveTarget {
    function Text(): string {
      match this
      case BelowTarget => "Below target"
      case OnTrack => "On track"
      case AboveTarget => "Above target"
    }

    /** Position along the calorie axis. */
    function Rank(): nat {
      match this
      case BelowTarget => 0
      case OnTrack => 1
      case AboveTarget => 2
    }
  }

  /** Rule 3: the kind of workout to do, from BMI. */
  datatype WorkoutType = CardioOrHiit | StrengthTraining | Balanced {
    function Text(): string {
      match this
      case CardioOrHiit => "Cardio or HIIT for fat loss"
      case StrengthTraining => "Strength training for muscle gain"
      case Balanced => "Balanced workout (Cardio + Strength)"
    }
  }

  /** Rule 4: whether to drink more. */
  datatype Hydration = IncreaseWater | HydrationAdequate {
    function Text(): string {
      match this
      case IncreaseWater => "Increase water intake during workouts"
      case HydrationAdequate => "Hydration level is adequate"
    }
  }

  /** Rule 5: whether to rest. */
  datatype Recovery = TakeRestDay | RecoveryNormal {
    function Text(): string {
      match this
      case TakeRestDay => "Take at least one rest day this week"
      case RecoveryNormal => "Recovery level is normal"
    }
  }

  /** Rule 6: the weight goal, from BMI. */
  datatype WeightGoal = FatLoss | MuscleGain | WeightMaintenance {
    function Text(): string {
      match this
      case FatLoss => "Fat loss"
      case MuscleGain => "Muscle gain"
      case WeightMaintenance => "Weight maintenance"
    }
  }

  /** The six recommendations, one per rule. */
  datatype RecommendationSet = RecommendationSet(
    intensity: Intensity,
    calorieGoalStatus: CalorieStatus,
    workoutType: WorkoutType,
    hydration: Hydration,
    recovery: Recovery,
    weightGoal: WeightGoal
  )

  // ---------------------------------------------------------------------
  // The six rules
  // ---------------------------------------------------------------------

  /** Rule 1: the ratio is split at 0.6 and 0.8, both boundaries falling in
      the middle band. */
  function IntensityAdvice(ratio: real): (a: Intensity)
    ensures a == Increase <==> ratio < 0.6
    ensures a == Maintain <==> 0.6 <= ratio <= 0.8
    ensures a == Reduce <==> ratio > 0.8
  {
    if ratio < 0.6 then Increase
    else if ratio <= 0.8 then Maintain
    else Reduce
  }

  /** The calorie target of an experience level: 350 for level 1, 500 for
      level 2 and 700 for every other value, valid or not. */
  function CalorieTarget(experienceLevel: int): (target: int)
    ensures target == 350 <==> experienceLevel == 1
    ensures target == 500 <==> experienceLevel == 2
    ensures target == 700 <==> experienceLevel != 1 && experienceLevel != 2
  {
    if experienceLevel == 1 then 350
    else if experienceLevel == 2 then 500
    else 700
  }

  /** Rule 2: below the target, within 100 above it (both ends included), or
      beyond that. */
  function CalorieGoalStatus(experienceLevel: int, calories: real): (s: CalorieStatus)
    ensures s == BelowTarget <==> calories < CalorieTarget(experienceLevel) as real
    ensures s == OnTrack <==>
              CalorieTarget(experienceLevel) as real <= calories <= (CalorieTarget(experienceLevel) + 100) as real
    ensures s == AboveTarget <==> calories > (CalorieTarget(experienceLevel) + 100) as real
  {
    var target := CalorieTarget(experienceLevel);
    if calories < target as real then BelowTarget
    else if calories <= (target + 100) as real then OnTrack
    else AboveTarget
  }

  /** Rule 3: BMI above 25, below 18.5, or in between (both ends included). */
  function RecommendedWorkoutType(bmi: real): (w: WorkoutType)
    ensures w == CardioOrHiit <==> bmi > 25.0
    ensures w == StrengthTraining <==> bmi < 18.5
    ensures w == Balanced <==> 18.5 <= bmi <= 25.0
  {
    if bmi > 25.0 then CardioOrHiit
    else if bmi < 18.5 then StrengthTraining
    else Balanced
  }

  /** Rule 4: more water only for a session over an hour with under two
      litres drunk. */
  function HydrationAdvice(durationHours: real, waterLiters: real): (h: Hydration)
    ensures h == IncreaseWater <==> durationHours > 1.0 && waterLiters < 2.0
    ensures h == HydrationAdequate <==> durationHours <= 1.0 || waterLiters >= 2.0
  {
    if durationHours > 1.0 && waterLiters < 2.0 then IncreaseWater
    else HydrationAdequate
  }

  /** Rule 5: a rest day when the heart-rate ratio, recomputed from the two
      rates, exceeds 0.85, or when training six or more days a week. */
  function RecoveryAdvice(avgBpm: int, maxBpm: int, frequency: int): (r: Recovery)
    requires maxBpm != 0
    ensures r == TakeRestDay <==> IntensityRatio(avgBpm, maxBpm) > 0.85 || frequency >= 6
    ensures frequency >= 6 ==> r == TakeRestDay
  {
    if (avgBpm as real) / (maxBpm as real) > 0.85 || frequency >= 6 then TakeRestDay
    else RecoveryNormal
  }

  /** Rule 6: the BMI bands of rule 3 read as a weight goal. */
  function WeightGoalFor(bmi: real): (g: WeightGoal)
    ensures g == FatLoss <==> bmi > 25.0
    ensures g == MuscleGain <==> bmi < 18.5
    ensures g == WeightMaintenance <==> 18.5 <= bmi <= 25.0
  {
    if bmi > 25.0 then FatLoss
    else if bmi < 18.5 then MuscleGain
    else WeightMaintenance
  }

  /** The weight goal each recommended workout type serves. */
  function GoalOf(w: WorkoutType): WeightGoal
  {
    match w
    case CardioOrHiit => FatLoss
    case StrengthTraining => MuscleGain
    case Balanced => WeightMaintenance
  }

  /** The whole engine. Rule 1 reads the stored ratio column; rule 5 divides
      the two rates again. The workout type and the weight goal always agree. */
  function GenerateRecommendations(e: Enriched, calories: real): (rec: RecommendationSet)
    requires e.input.maxBpm != 0
    ensures rec.weightGoal == GoalOf(rec.workoutType)
  {
    RecommendationSet(
      IntensityAdvice(e.derived.intensityRatio),
      CalorieGoalStatus(e.input.experienceLevel, calories),
      RecommendedWorkoutType(e.input.bmi),
      HydrationAdvice(e.input.sessionDurationHours, e.input.waterIntakeLiters),
      RecoveryAdvice(e.input.avgBpm, e.input.maxBpm, e.input.workoutFrequencyDaysPerWeek),
      WeightGoalFor(e.input.bmi))
  }

  // ---------------------------------------------------------------------
  // The response dictionary
  // ---------------------------------------------------------------------

  /** The six keys of the returned dictionary. */
  const ResponseKeys: set<string> := {
    "Intensity_Recommendation", "Calorie_Goal_Status", "Recommended_Workout_Type",
    "Hydration_Advice", "Recovery_Advice", "Weight_Goal"
  }

  /** The recommendations as the dictionary the engine returns: exactly six
      keys, each holding the advice text of its rule. */
  function ToDict(rec: RecommendationSet): (d: map<string, string>)
    ensures d.Keys == ResponseKeys && |d| == 6
  {
    map[
      "Intensity_Recommendation" := rec.intensity.Text(),
      "Calorie_Goal_Status" := rec.calorieGoalStatus.Text(),
      "Recommended_Workout_Type" := rec.workoutType.Text(),
      "Hydration_Advice" := rec.hydration.Text(),
      "Recovery_Advice" := rec.recovery.Text(),
      "Weight_Goal" := rec.weightGoal.Text()
    ]
  }
}
