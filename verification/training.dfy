/**
 Workout formulas of the fitness tracker: distance, mean speed and spent
 calories for the three kinds of training, and the summary that collects them.

 Every reading is a `real`, and the formulas are exact rational arithmetic in
 place of the source's floating point. The class hierarchy (a base training
 with three subclasses that forward most methods to the base) becomes one sum
 type whose operations match on the variant.
 */
module Training {
  import opened RealFacts

  /** One recorded training. `action` counts steps (running, walking) or
      strokes (swimming); `duration` is in hours, `weight` in kg. */
  datatype Workout =
    | Running(action: real, duration: real, weight: real)
    | SportsWalking(action: real, duration: real, weight: real, height: real)
    | Swimming(action: real, duration: real, weight: real,
               lengthPool: real, countPool: real)

  /** The five values reported for a training, in the order they are shown. */
  datatype Summary = Summary(
    trainingType: string,
    duration: real,
    distance: real,
    speed: real,
    calories: real)

  /** Metres in a kilometre, shared by every variant. */
  const MetresInKm: real := 1000.0
  /** Minutes in an hour, used by the per-minute calorie rates. */
  const MinutesInHour: real := 60.0

  /** Length of one step (running, walking) or stroke (swimming), in metres. */
  const StepLength: real := 0.65
  const StrokeLength: real := 1.38

  const RunCalorieFactor: real := 18.0
  const RunCalorieShift: real := 20.0
  const WalkWeightFactor: real := 0.035
  const WalkSpeedFactor: real := 0.029
  const SwimSpeedShift: real := 1.1
  const SwimWeightFactor: real := 2.0

  /** The variant's step length: swimming overrides the shared one. */
  function LenStep(w: Workout): (r: real)
    ensures r > 0.0
    ensures r == StrokeLength <==> w.Swimming?
    ensures r == StepLength <==> !w.Swimming?
  {
    if w.Swimming? then StrokeLength else StepLength
  }

  /** The name of the variant, as the source's class name reports it. */
  function TypeName(w: Workout): (name: string)
    ensures w.Running? <==> name == "Running"
    ensures w.SportsWalking? <==> name == "SportsWalking"
    ensures w.Swimming? <==> name == "Swimming"
  {
    match w
    case Running(_, _, _) => "Running"
    case SportsWalking(_, _, _, _) => "SportsWalking"
    case Swimming(_, _, _, _, _) => "Swimming"
  }

  /** The readings for which every formula is defined: the source divides
      by the duration (mean speed) and by the height (walking calories). */
  predicate Computable(w: Workout)
  {
    && w.duration != 0.0
    && (w.SportsWalking? ==> w.height != 0.0)
  }

  /** Distance in km covered by `action` steps or strokes. */
  function Distance(w: Workout): (r: real)
    ensures r == 0.0 <==> w.action == 0.0
    ensures w.action >= 0.0 ==> r >= 0.0
  {
    w.action * LenStep(w) / MetresInKm
  }

  /** Mean speed in km/h. Swimming measures it from the pool geometry and
      ignores the stroke count; the other two divide distance by time. */
  function MeanSpeed(w: Workout): (r: real)
    requires w.duration != 0.0
    ensures !w.Swimming? ==> r * w.duration == Distance(w)
    ensures w.Swimming? ==> r * w.duration * MetresInKm == w.lengthPool * w.countPool
  {
    match w
    case Swimming(_, duration, _, lengthPool, countPool) =>
      lengthPool * countPool / MetresInKm / duration
    case _ =>
      Distance(w) / w.duration
  }

  /** The same training with a different step or stroke count; every
      other reading is kept. */
  function WithAction(w: Workout, a: real): (v: Workout)
    ensures v.action == a && v.duration == w.duration && v.weight == w.weight
    ensures v.Running? == w.Running? && v.SportsWalking? == w.SportsWalking?
    ensures v.Swimming? == w.Swimming?
    ensures w.SportsWalking? ==> v.height == w.height
    ensures w.Swimming? ==> v.lengthPool == w.lengthPool && v.countPool == w.countPool
  {
    match w
    case Running(_, d, m) => Running(a, d, m)
    case SportsWalking(_, d, m, h) => SportsWalking(a, d, m, h)
    case Swimming(_, d, m, l, c) => Swimming(a, d, m, l, c)
  }

  /** The walking formula's floored quotient of the squared speed by the
      height (the source's `speed ** 2 // height`). */
  function SpeedBand(speed: real, height: real): (k: real)
    requires height != 0.0
    ensures k == k.Floor as real
    ensures k <= speed * speed / height < k + 1.0
  {
    FloorDiv(speed * speed, height)
  }

  /** Walking calories for band `k`, weight `m` and duration `d`, with the
      per-minute coefficients multiplied out to per-hour ones. */
  function WalkingReference(k: real, m: real, d: real): real
  {
    2.1 * m * d + 1.74 * k * m * d
  }

  /** Calories spent, by the variant's own formula. Each variant's result
      is given in a closed form: running at 1.08 kcal per km and kg less
      1.2 kcal per hour and kg; walking at 2.1 kcal per hour and kg plus
      1.74 for every whole height in the squared speed; swimming at 2 kcal
      per km/h and kg plus 2.2 kcal per kg. */
  function Calories(w: Workout): (r: real)
    requires Computable(w)
    ensures w.Running? ==> r == w.weight * (1.08 * Distance(w) - 1.2 * w.duration)
    ensures w.SportsWalking? ==>
              r == WalkingReference(SpeedBand(MeanSpeed(w), w.height), w.weight, w.duration)
    ensures w.Swimming? ==> r == 2.0 * w.weight * MeanSpeed(w) + 2.2 * w.weight
  {
    match w
    case Running(_, duration, weight) =>
      RunningCancellation(MeanSpeed(w), duration, weight, Distance(w));
      (RunCalorieFactor * MeanSpeed(w) - RunCalorieShift) * weight / MetresInKm
      * (duration * MinutesInHour)
    case SportsWalking(_, duration, weight, height) =>
      (WalkWeightFactor * weight + SpeedBand(MeanSpeed(w), height) * WalkSpeedFactor * weight)
      * duration * MinutesInHour
    case Swimming(_, _, weight, _, _) =>
      (MeanSpeed(w) + SwimSpeedShift) * SwimWeightFactor * weight
  }

  /** The running formula with speed times duration replaced by distance. */
  lemma RunningCancellation(s: real, d: real, m: real, dist: real)
    requires s * d == dist
    ensures (RunCalorieFactor * s - RunCalorieShift) * m / MetresInKm * (d * MinutesInHour)
            == m * (1.08 * dist - 1.2 * d)
  {
  }

  /** The summary every variant reports, built once for all three. */
  function ShowTrainingInfo(w: Workout): (r: Summary)
    requires Computable(w)
    ensures r.trainingType == "Running" <==> w.Running?
    ensures r.trainingType == "SportsWalking" <==> w.SportsWalking?
    ensures r.trainingType == "Swimming" <==> w.Swimming?
    ensures r.duration == w.duration
    ensures r.distance == Distance(w) && r.speed == MeanSpeed(w) && r.calories == Calories(w)
    ensures !w.Swimming? ==> r.speed * r.duration == r.distance
    ensures w.Swimming? ==> r.calories == (r.speed + 1.1) * 2.0 * w.weight
  {
    Summary(TypeName(w), w.duration, Distance(w), MeanSpeed(w), Calories(w))
  }
}
