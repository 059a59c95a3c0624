/**
 Properties of the workout formulas: running calories in the step count,
 swimming's independence from the stroke count, how the results move
 with the step count, the walking threshold below which the speed term
 vanishes, and the three sample packages of the source's driver.
 */
module Properties {
  import opened Training
  import opened Dispatch
  import opened RealFacts

  /** Distance is the step count times the variant's step length, in km,
      and adding steps adds their distances. */
  lemma DistanceIsLinear(w: Workout, a: real, b: real)
    ensures Distance(w) * MetresInKm == w.action * LenStep(w)
    ensures Distance(WithAction(w, a + b)) == Distance(WithAction(w, a)) + Distance(WithAction(w, b))
  {
  }

  /** More steps never mean less distance, for every variant. */
  lemma DistanceMonotone(w: Workout, a1: real, a2: real)
    requires a1 <= a2
    ensures Distance(WithAction(w, a1)) <= Distance(WithAction(w, a2))
  {
  }

  /** Running and walking speed is distance over time, so with a positive
      duration it never decreases as the step count grows. */
  lemma MeanSpeedMonotone(w: Workout, a1: real, a2: real)
    requires !w.Swimming? && w.duration > 0.0 && a1 <= a2
    ensures MeanSpeed(WithAction(w, a1)) <= MeanSpeed(WithAction(w, a2))
  {
  }

  /** Swimming speed and calories come from the pool geometry alone: the
      stroke count changes neither. */
  lemma SwimmingIgnoresAction(w: Workout, a: real)
    requires w.Swimming? && w.duration != 0.0
    ensures MeanSpeed(WithAction(w, a)) == MeanSpeed(w)
    ensures Calories(WithAction(w, a)) == Calories(w)
  {
  }

  /** Running calories in the step count: 0.000702 kcal per step and kg. */
  lemma RunningCaloriesFromSteps(w: Workout)
    requires w.Running? && w.duration != 0.0
    ensures Calories(w) == w.weight * (0.000702 * w.action - 1.2 * w.duration)
  {
  }

  /** With a positive duration and a non-negative weight, more steps never
      mean fewer calories when running. */
  lemma RunningCaloriesMonotone(w: Workout, a1: real, a2: real)
    requires w.Running? && w.duration > 0.0 && w.weight >= 0.0 && a1 <= a2
    ensures Calories(WithAction(w, a1)) <= Calories(WithAction(w, a2))
  {
  }

  /** The speed term of walking calories vanishes exactly when the squared
      speed is below the height, leaving 0.035 kcal per minute and kg. */
  lemma WalkingSpeedTermVanishes(w: Workout)
    requires w.SportsWalking? && Computable(w) && w.height > 0.0
    requires w.weight != 0.0
    ensures Calories(w) == 2.1 * w.weight * w.duration <==>
              MeanSpeed(w) * MeanSpeed(w) < w.height
  {
    SpeedBandZero(MeanSpeed(w), w.height);
    ExtraTermZero(SpeedBand(MeanSpeed(w), w.height), w.weight, w.duration);
  }

  /** With a positive duration, height, a non-negative weight and a
      non-negative step count, more steps never mean fewer calories when
      walking: the speed grows, and so does its floored ratio to the height. */
  lemma WalkingCaloriesMonotone(w: Workout, a1: real, a2: real)
    requires w.SportsWalking? && w.duration > 0.0 && w.height > 0.0 && w.weight >= 0.0
    requires 0.0 <= a1 <= a2
    ensures Calories(WithAction(w, a1)) <= Calories(WithAction(w, a2))
  {
    var w1, w2 := WithAction(w, a1), WithAction(w, a2);
    WalkingBandMonotone(w, a1, a2);
    ExtraTermMonotone(SpeedBand(MeanSpeed(w1), w.height), SpeedBand(MeanSpeed(w2), w.height), w.weight, w.duration);
  }

  /** The band grows with the step count: the speed does, and so do its
      square and the floored ratio of the square to the height. */
  lemma WalkingBandMonotone(w: Workout, a1: real, a2: real)
    requires w.SportsWalking? && w.duration > 0.0 && w.height > 0.0
    requires 0.0 <= a1 <= a2
    ensures SpeedBand(MeanSpeed(WithAction(w, a1)), w.height) <= SpeedBand(MeanSpeed(WithAction(w, a2)), w.height)
  {
    var w1, w2 := WithAction(w, a1), WithAction(w, a2);
    MeanSpeedMonotone(w, a1, a2);
    SpeedNonNegative(w1);
    SpeedBandMonotone(MeanSpeed(w1), MeanSpeed(w2), w.height);
  }

  /** The band grows with the speed and is never negative. */
  lemma SpeedBandMonotone(s1: real, s2: real, h: real)
    requires 0.0 <= s1 <= s2 && h > 0.0
    ensures 0.0 <= SpeedBand(s1, h) <= SpeedBand(s2, h)
  {
    SquareMonotone(s1, s2);
    FloorDivMonotone(s1 * s1, s2 * s2, h);
  }

  /** The band is zero exactly when the squared speed is below the height. */
  lemma SpeedBandZero(s: real, h: real)
    requires h > 0.0
    ensures SpeedBand(s, h) == 0.0 <==> s * s < h
  {
    FloorDivBelowOne(s * s, h);
  }

  /** Running and walking speed is non-negative for a non-negative step
      count and a positive duration. */
  lemma SpeedNonNegative(w: Workout)
    requires !w.Swimming? && w.duration > 0.0 && w.action >= 0.0
    ensures MeanSpeed(w) >= 0.0
  {
  }

  /** The walking speed term is zero exactly when its band is zero. */
  lemma ExtraTermZero(k: real, m: real, d: real)
    requires m != 0.0 && d != 0.0
    ensures WalkingReference(k, m, d) == 2.1 * m * d <==> k == 0.0
  {
  }

  /** A higher band never lowers walking calories. */
  lemma ExtraTermMonotone(k1: real, k2: real, m: real, d: real)
    requires k1 <= k2 && m >= 0.0 && d > 0.0
    ensures WalkingReference(k1, m, d) <= WalkingReference(k2, m, d)
  {
  }

  /** The summary names the variant, and the name alone tells which. */
  lemma SummaryNamesVariant(w: Workout, v: Workout)
    requires Computable(w) && Computable(v)
    ensures ShowTrainingInfo(w).trainingType == ShowTrainingInfo(v).trainingType
            <==> Code(w) == Code(v)
  {
  }

  /** The swimming sample of the driver: 25 m pool, 40 laps in an hour. */
  lemma SwimmingSample()
    ensures ReadPackage("SWM", [720.0, 1.0, 80.0, 25.0, 40.0]).Success?
    ensures var w := ReadPackage("SWM", [720.0, 1.0, 80.0, 25.0, 40.0]).value;
            Computable(w) &&
            ShowTrainingInfo(w) == Summary("Swimming", 1.0, 0.9936, 1.0, 336.0)
  {
  }

  /** The running sample: 15000 steps in an hour at 75 kg. */
  lemma RunningSample()
    ensures ReadPackage("RUN", [15000.0, 1.0, 75.0]).Success?
    ensures var w := ReadPackage("RUN", [15000.0, 1.0, 75.0]).value;
            Computable(w) &&
            ShowTrainingInfo(w) == Summary("Running", 1.0, 9.75, 9.75, 699.75)
  {
  }

  /** The walking sample: 9000 steps in an hour at 75 kg and 180 cm; the
      squared speed 34.2225 is below the height, so the speed term drops. */
  lemma WalkingSample()
    ensures ReadPackage("WLK", [9000.0, 1.0, 75.0, 180.0]).Success?
    ensures var w := ReadPackage("WLK", [9000.0, 1.0, 75.0, 180.0]).value;
            Computable(w) &&
            ShowTrainingInfo(w) == Summary("SportsWalking", 1.0, 5.85, 5.85, 157.5)
  {
  }
}
