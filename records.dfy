/**
  The request record of the calories-burned API and the record that feature
  engineering makes of it (backend/main.py).

  Fields the API schema declares as `int` stay `int`; fields it declares as
  `float` are exact reals, so every threshold compares without rounding.
  `gender` and `workoutType` are free strings, as the schema declares them.
 */
module Records {

  /** One validated request, field for field as `UserInput` declares it. */
  datatype UserInput = UserInput(
    age: int,
    gender: string,
    weightKg: real,
    heightM: real,
    bmi: real,
    fatPercentage: real,
    maxBpm: int,
    avgBpm: int,
    restingBpm: int,
    sessionDurationHours: real,
    waterIntakeLiters: real,
    workoutFrequencyDaysPerWeek: int,
    experienceLevel: int,
    workoutType: string
  )

  /** The three engineered columns. */
  datatype Derived = Derived(hrReserve: int, intensityRatio: real, workoutLoad: real)

  /** A request together with its engineered columns: the row the model and the
      recommendation engine read. */
  datatype Enriched = Enriched(input: UserInput, derived: Derived)

  /** Average over maximum heart rate, a true (not integer) division. */
  function IntensityRatio(avgBpm: int, maxBpm: int): (ratio: real)
    requires maxBpm != 0
    ensures ratio * (maxBpm as real) == avgBpm as real
    ensures ratio > 0.0 <==> (avgBpm > 0 <==> maxBpm > 0) && avgBpm != 0
  {
    (avgBpm as real) / (maxBpm as real)
  }

  /** The engineered columns of one request: heart-rate reserve, intensity
      ratio and workout load. */
  function Derive(u: UserInput): (d: Derived)
    requires u.maxBpm != 0
    ensures d.hrReserve + u.restingBpm == u.maxBpm
    ensures d.intensityRatio * (u.maxBpm as real) == u.avgBpm as real
    ensures u.sessionDurationHours != 0.0 ==>
              d.workoutLoad / u.sessionDurationHours == u.avgBpm as real
    ensures u.sessionDurationHours == 0.0 ==> d.workoutLoad == 0.0
  {
    Derived(u.maxBpm - u.restingBpm,
            IntensityRatio(u.avgBpm, u.maxBpm),
            (u.avgBpm as real) * u.sessionDurationHours)
  }

  /** True of a row whose engineered columns are the ones its request yields,
      i.e. a row that has been through feature engineering. */
  predicate WellFormed(e: Enriched)
  {
    e.input.maxBpm != 0 && e.derived == Derive(e.input)
  }

  /** The row that feature engineering makes of a request. */
  function Enrich(u: UserInput): Enriched
    requires u.maxBpm != 0
  {
    Enriched(u, Derive(u))
  }

  /** Under the physiological ordering resting <= average <= maximum (which the
      API does not check), the reserve is at least average minus resting, the
      ratio lies in (0, 1], and the load lies between the resting and the
      maximum rate times the session length. */
  lemma PhysiologicalRanges(u: UserInput)
    requires 0 < u.restingBpm <= u.avgBpm <= u.maxBpm
    requires u.sessionDurationHours >= 0.0
    ensures Derive(u).hrReserve >= u.avgBpm - u.restingBpm >= 0
    ensures 0.0 < Derive(u).intensityRatio <= 1.0
    ensures (u.restingBpm as real) * u.sessionDurationHours <= Derive(u).workoutLoad
    ensures Derive(u).workoutLoad <= (u.maxBpm as real) * u.sessionDurationHours
  {
    var d := Derive(u);
    var a, m, h := u.avgBpm as real, u.maxBpm as real, u.sessionDurationHours;
    assert d.intensityRatio * m == a;
    assert (a - u.restingBpm as real) * h >= 0.0;
    assert (m - a) * h >= 0.0;
  }

  /** The worked example: maximum 180, resting 60, average 140 gives a reserve
      of 120 and a ratio of 7/9 (about 0.7778). */
  lemma DerivedExample(u: UserInput)
    requires u.maxBpm == 180 && u.restingBpm == 60 && u.avgBpm == 140
    ensures Derive(u).hrReserve == 120
    ensures Derive(u).intensityRatio == 7.0 / 9.0
    ensures 0.7777 < Derive(u).intensityRatio < 0.7778
  {
  }
}
