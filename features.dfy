/**
  `feature_engineering` (backend/main.py): assigns the three engineered
  columns into the caller's one-row DataFrame, in place, and hands the same
  DataFrame back.
 */
module Features {

  import opened Wrappers
  import opened Records

  /** The one-row DataFrame built from a request. The request's own columns
      are `input`; each engineered column is `None` until it is assigned. */
  class Frame {
    var input: UserInput
    var hrReserve: Option<int>
    var intensityRatio: Option<real>
    var workoutLoad: Option<real>

    /** A frame holding the request's columns only. */
    constructor (input: UserInput)
      ensures this.input == input
      ensures hrReserve == None && intensityRatio == None && workoutLoad == None
    {
      this.input := input;
      hrReserve, intensityRatio, workoutLoad := None, None, None;
    }

    /** All three engineered columns are present. */
    predicate Engineered()
      reads this
    {
      hrReserve.Some? && intensityRatio.Some? && workoutLoad.Some?
    }

    /** The frame's single row, once it has every column. */
    function Row(): Enriched
      reads this
      requires Engineered()
    {
      Enriched(input, Derived(hrReserve.value, intensityRatio.value, workoutLoad.value))
    }
  }

  /** Adds HR_Reserve, Intensity_Ratio and Workout_Load to `df` (overwriting
      them if present) and returns `df` itself; the request's columns are left
      as they were. */
  method FeatureEngineering(df: Frame) returns (r: Frame)
    requires df.input.maxBpm != 0
    modifies df
    ensures r == df
    ensures df.input == old(df.input)
    ensures df.Engineered() && df.Row() == Enrich(old(df.input))
    ensures WellFormed(df.Row())
  {
    df.hrReserve := Some(df.input.maxBpm - df.input.restingBpm);
    df.intensityRatio := Some((df.input.avgBpm as real) / (df.input.maxBpm as real));
    df.workoutLoad := Some((df.input.avgBpm as real) * df.input.sessionDurationHours);
    r := df;
  }
}
