# Fitness tracker workout formulas, in Dafny

A Dafny model of the calculation core of a small fitness tracker
(`homework.py`). The tracker reads a workout code and a flat list of sensor
readings, builds one of three trainings (running, sports walking,
swimming), and reports five values: the training's type name, duration,
distance, mean speed and spent calories.

- `training.dfy`, module `Training`: the `Workout` sum type (one constructor
  per training class), the shared constants, and the formulas `Distance`,
  `MeanSpeed`, `Calories` and the summary `ShowTrainingInfo`. Swimming's
  own speed formula and each variant's calorie formula are branches of one
  `match`. The source's inherited methods and `super()` forwarding become
  shared code.
- `dispatch.dfy`, module `Dispatch`: `ReadPackage`, the code-to-constructor
  table. It returns a `Result` and fails with `UnknownWorkoutType` or
  `InvalidReadingArity` where the source raises `KeyError` or `TypeError`.
  Its partners are `Code` and `Readings`, which take a workout back to its
  code and its readings in constructor order.
- `properties.dfy`, module `Properties`: running calories in the step
  count, monotonicity in the step count, the walking threshold, swimming's
  independence from the stroke count, and the three sample packages of the
  driver.
- `realfacts.dfy`, module `RealFacts`: Python's float `//` as `FloorDiv`,
  plus the order facts about division and floor that the proofs cite.

Modelling choices:

- Every reading is a `real`, and the formulas are exact rational arithmetic
  in place of IEEE-754 floats. The reader receives an untyped list, so the
  step count and pool sizes are reals too.
- The source divides by the duration (mean speed) and by the height (the
  walking `//`) without checking either. Both divisions raise
  `ZeroDivisionError` only for zero, so the preconditions are
  `duration != 0.0` and, for walking, `height != 0.0` (predicate
  `Training.Computable`). Negative readings are accepted, as in the source.
  The monotonicity lemmas add their own hypotheses: positive duration and
  height, non-negative weight, and for walking a non-negative step count
  (squaring does not preserve order for negative speeds).
- Building a training does no arithmetic, so `ReadPackage` has no
  precondition. The code is looked up before the readings are counted, so an
  unknown code is reported whatever the readings are.

## Model

| member | source | states |
|---|---|---|
| `Training.Distance` | homework.py:43-46 | distance is zero exactly when the step count is zero, and non-negative for a non-negative count |
| `Training.LenStep` | homework.py:29 | the step length is positive; it is the stroke length (1.38, homework.py:129) exactly for swimming and the shared step length (0.65) otherwise; these values come from its body and reach callers through `Properties.DistanceIsLinear` |
| `Properties.DistanceIsLinear` | homework.py:43-46 | distance times 1000 is the count times the variant's step length (0.65, or 1.38 for swimming); the distance of a sum of counts is the sum of the distances |
| `Properties.DistanceMonotone` | homework.py:43-46 | for every variant, more steps never give less distance |
| `Training.MeanSpeed` | homework.py:48-51 | running and walking speed times duration gives back the distance; swimming speed (homework.py:148-150) times duration times 1000 gives pool length times lap count, whatever the stroke count |
| `Properties.MeanSpeedMonotone` | homework.py:48-51 | with a positive duration, running and walking speed never decreases as the step count grows |
| `Properties.SwimmingIgnoresAction` | homework.py:148-154 | changing the stroke count changes neither swimming speed nor swimming calories |
| `Training.Calories` | homework.py:85-88 | each variant's calories in closed form: running equals weight * (1.08 * distance - 1.2 * duration), with speed and duration cancelled; walking (homework.py:116-120) equals the per-hour reference 2.1 * weight * duration + 1.74 * band * weight * duration, where band is the floored squared speed over height; swimming (homework.py:152-154) equals 2 * weight * speed + 2.2 * weight |
| `Properties.RunningCaloriesFromSteps` | homework.py:85-88 | running calories equal weight * (0.000702 * steps - 1.2 * duration) |
| `Properties.RunningCaloriesMonotone` | homework.py:85-88 | with positive duration and non-negative weight, more steps never give fewer running calories |
| `RealFacts.FloorDiv` | homework.py:118 | the floored quotient is a whole number r with r <= x / y < r + 1 |
| `Training.SpeedBand` | homework.py:118 | the band of squared speed over height is a whole number k with k <= speed * speed / height < k + 1, for a height of either sign |
| `Properties.WalkingSpeedTermVanishes` | homework.py:116-120 | for positive height and non-zero weight, walking calories equal 2.1 * weight * duration (0.035 * weight * duration * 60) exactly when speed squared is below the height |
| `Properties.WalkingBandMonotone` | homework.py:118 | for a non-negative step count, positive duration and height, the floored squared-speed band never decreases as steps grow |
| `Properties.WalkingCaloriesMonotone` | homework.py:116-120 | with positive duration and height and non-negative weight and steps, more steps never give fewer walking calories |
| `Training.TypeName` | homework.py:59 | the name is "Running", "SportsWalking" or "Swimming" exactly when the training is of that class |
| `Training.ShowTrainingInfo` | homework.py:57-63 | the summary carries the training's own class name, the unchanged input duration, and the training's distance, speed and calories, in that order; for running and walking its speed times duration is its distance; for swimming its calories are (speed + 1.1) * 2 * weight |
| `Properties.SummaryNamesVariant` | homework.py:59 | two summaries carry the same type name exactly when the trainings have the same workout code |
| `Dispatch.Readings` | homework.py:73-76 | the readings of a running workout (this constructor), a walking one (homework.py:102-106) or a swimming one (homework.py:135-140) number the arity of its code and list steps, duration, weight, then height for walking or pool length and lap count for swimming, in constructor order |
| `Dispatch.ReadPackage` | homework.py:157-166 | fails with UnknownWorkoutType exactly when the code is not RUN, WLK or SWM; fails with InvalidReadingArity exactly when the code is known but the reading count is not 3, 4 or 5 respectively; every failure carries the offending code, and an arity failure also carries the expected and the given reading counts; on success the workout's code and readings are the inputs |
| `Dispatch.ReadPackageRoundTrip` | homework.py:157-166 | reading back the code and readings of any workout rebuilds that workout |
| `Dispatch.ReadPackageSucceedsExactly` | homework.py:157-166 | a package is read exactly when the code is known and the arity matches, and then the result is the unique workout with that code and those readings |
| `Properties.SwimmingSample` | homework.py:177 | package SWM (720, 1, 80, 25, 40) gives distance 0.9936, speed 1.0 and calories 336 |
| `Properties.RunningSample` | homework.py:178 | package RUN (15000, 1, 75) gives distance 9.75, speed 9.75 and calories 699.75 |
| `Properties.WalkingSample` | homework.py:179 | package WLK (9000, 1, 75, 180) gives distance 5.85, speed 5.85 and calories 157.5, because the band is 0 |

## Left out

- `InfoMessage` and `get_message` (homework.py:1-22): `"%.3f"` rendering and fixed labels. This is text formatting with nothing to prove beyond the field order, which the `Summary` datatype keeps.
- `main` and the `__main__` loop (homework.py:169-184): printing and I/O. Its three packages appear as the sample lemmas.
- The base `Training.get_spent_calories`, which returns `None` (homework.py:53-55): a bare base training cannot be built in the sum type, so this path cannot be reached.
- IEEE-754 rounding: all quantities are exact reals.
- Validation of readings that the source never performs (non-positive weight, duration or height): such readings are accepted, except that zero duration and zero walking height are ruled out by preconditions, where the source would raise `ZeroDivisionError`.
- Python's runtime type errors for non-numeric readings: the model's readings are always numbers.
