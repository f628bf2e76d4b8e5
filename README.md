# Fitness tracker metrics, modelled in Dafny

The repository is one Python module, `homework.py`. It computes metrics for a
workout from raw sensor readings: the number of actions (steps or strokes),
the duration in hours and the body weight in kg. The results are distance
(km), mean speed (km/h) and calories burned. A base class `Training` provides
distance and mean speed. Three subclasses, `Running`, `SportsWalking` (which
adds height in cm) and `Swimming` (which adds pool length in m and the number
of pool lengths), each supply their own calorie formula. Some of them also
replace the distance or speed formula. `show_training_info` packs the class
name and the metrics into an `InfoMessage`. `read_package` maps the codes
`SWM`, `RUN` and `WLK` to a class and builds it from a list of values.

The model:

- `Wrappers.dfy`: `Option` and `Result`.
- `Training.dfy` (module `Training`): the class constants, the `InfoMessage`
  record, the closed datatype `Workout` (one constructor per subclass, with the
  constructor's fields), and the metric functions. Dynamic dispatch becomes a
  `match`. Every constant in the source is an exact decimal, so all
  quantities are exact `real`s. A division by zero becomes a precondition of
  the formula that divides. `ShowTrainingInfo` returns `Failure(ZeroDivisionError)`
  exactly when one of the formulas it calls would raise. That is when the
  duration is zero, or when a walk's height is zero.
- `TrainingFacts.dfy` (module `TrainingFacts`): the walking calorie formula
  rewritten as a closed form over the raw fields alone, the sign of each
  formula, and the fact that swimming ignores the stroke count for speed and
  calories. The running and swimming closed forms are the postconditions of
  `Calories` itself.
- `Packages.dfy` (module `Packages`): `training_type_dict`, the positional
  constructor call, `read_package`, its round trip, and the three sample
  packages of the module's driver, each evaluated exactly.
- `Driver.dfy` (module `Driver`): `main`, with its catch-all handler, as a
  function from a training to an outcome. The outcome is either the message
  record or the "moving on" notice. The `__main__` loop becomes a method that
  collects one outcome per package instead of printing it.

The closed forms make each formula easy to check:

- running: `weight * (0.000702 * action + 0.1074 * duration)`. The duration
  cancels out of the speed term.
- sports walking: `weight * (2.1 * duration + 0.00000568153326 * action^2 / (duration * height))`.
- swimming: `weight * (0.002 * length_pool * count_pool + 2.2 * duration)`.

Three facts about the code:

- The running sample `('RUN', [15000, 1, 75])` gives exactly 797.805 kcal
  (`SampleRunning`).
- An unknown code gives no workout, after a printed message. Nothing is
  raised.
- The code never checks that duration, weight or height are positive. Only
  zero divisors fail.

## Model

| member | source | states |
|---|---|---|
| `Training.ClassName` | homework.py:60 | the training type is one of `Running`, `SportsWalking`, `Swimming`, and each name belongs to exactly one kind of workout |
| `Training.BaseDistance` | homework.py:45-47 | distance in km times 1000 is the number of actions times the 0.65 m stride; the distance is non-negative exactly when the action count is |
| `Training.BaseMeanSpeed` | homework.py:49-51 | speed times duration is the base distance; the duration must be non-zero |
| `Training.Distance` | homework.py:45-118 | running and walking use the base distance of lines 45-47 unchanged; for swimming (lines 116-118), metres are actions times the 1.38 m stroke, which depends on the action count only |
| `Training.MeanSpeed` | homework.py:49-124 | running (base speed, lines 49-51) and walking (override, lines 91-93) speed times duration is their distance; swimming speed (lines 121-124) times duration times 1000 is pool length times pool count, whatever the stroke count |
| `Training.WalkingSpeedIsBaseSpeed` | homework.py:91-93 | the walking override `action * 0.65 / duration / 1000` equals the inherited `get_distance() / duration` |
| `Training.ShowTrainingInfo` | homework.py:58-66 | succeeds exactly when no divisor is zero, else fails with ZeroDivisionError; on success the record holds the class name, the duration unchanged, and that kind's own distance, speed and calories |
| `Training.Calories` | homework.py:74-129 | running calories, computed from the base mean speed, equal `weight * (0.000702 * action + 0.1074 * duration)`; swimming calories, computed from the pool speed, equal `weight * (0.002 * length_pool * count_pool + 2.2 * duration)`; the walking closed form and the sign of all three are the lemmas `TrainingFacts.WalkingCaloriesClosedForm`, `RunningCaloriesPositive`, `WalkingCaloriesPositive` and `SwimmingCaloriesPositive` |
| `TrainingFacts.WalkingCaloriesClosedForm` | homework.py:95-101 | walking calories, computed from the speed in m/s and the height in m, equal `weight * (2.1 * duration + 0.00000568153326 * action^2 / (duration * height))` |
| `TrainingFacts.RunningCaloriesPositive` | homework.py:74-77 | running calories are positive for a non-negative action count, positive weight and positive duration |
| `TrainingFacts.WalkingCaloriesPositive` | homework.py:95-101 | walking calories are positive for positive weight, height and duration, whatever the action count |
| `TrainingFacts.SwimmingCaloriesPositive` | homework.py:127-129 | swimming calories are positive for positive weight and duration and a non-negative pool length and count |
| `TrainingFacts.SwimmingIgnoresStrokes` | homework.py:121-129 | two swims that differ only in the stroke count have the same speed and the same calories |
| `Packages.Construct` | homework.py:141 | the positional call builds a workout of the chosen class whose fields, in constructor order, are the given values |
| `Packages.CodeOf` | homework.py:134-136 | every class has a code under which the dispatch table holds it |
| `Packages.ReadPackage` | homework.py:132-141 | yields a workout exactly for `SWM`, `RUN` and `WLK`, built as Swimming, Running and SportsWalking from the values in order; yields None for every other code |
| `Packages.ReadPackageRoundTrip` | homework.py:132-141 | every workout is what `read_package` returns for its class's code and its own constructor values |
| `Packages.ReadPackageInverse` | homework.py:132-141 | a workout returned by `read_package` gives back the code and the values it was read from |
| `Packages.ReadPackageClassName` | homework.py:132-141 | the class name of the workout read follows its code: `SWM` to Swimming, `RUN` to Running, `WLK` to SportsWalking |
| `Driver.MainOutcome` | homework.py:144-150 | the message is printed exactly when there is a training and none of its divisors is zero, and it is then the record `show_training_info` returns; a None training from an unknown code and a ZeroDivisionError both lead to "moving on" |
| `Driver.Process` | homework.py:160-162 | one round of the loop prints a message exactly when the code is known and the workout built from the values has no zero divisor |
| `Driver.RunPackages` | homework.py:160-162 | one outcome per package, in order, each determined by its own package alone, so a failing package does not stop the rest |
| `Driver.RunSamples` | homework.py:153-162 | the three sample packages yield the records Swimming 0.9936 km, 1.0 km/h, 336 kcal; Running 9.75 km, 9.75 km/h, 797.805 kcal; SportsWalking 5.85 km, 5.85 km/h, 349.251747525 kcal |
| `Packages.SampleSwimming` | homework.py:155 | `('SWM', [720, 1, 80, 25, 40])` gives distance 0.9936 km, speed 1.0 km/h, 336 kcal; this speed is not distance / duration |
| `Packages.SampleRunning` | homework.py:156 | `('RUN', [15000, 1, 75])` gives distance 9.75 km, speed 9.75 km/h, 797.805 kcal |
| `Packages.SampleWalking` | homework.py:157 | `('WLK', [9000, 1, 75, 180])` gives distance 5.85 km, speed 5.85 km/h, 349.251747525 kcal |

## Left out

- `InfoMessage.get_message` and the `MESSAGE` template (homework.py:20-27): string formatting of floats to three decimals.
- Every `print`: the message for an unknown code and the one in the base `get_spent_calories`. The model records what `main` prints as an `Outcome` value, with a record in place of the rendered text.
- Which exception `main`'s handler catches is not modelled. An unknown code (an `AttributeError` on None) and a zero divisor both become `MovingOn`.
- The abstract `Training.get_spent_calories`, which raises `NotImplementedError`. The datatype has only the three concrete kinds, so this case does not occur.
- Packages.ReadPackage: a wrong number of values for a known code raises Python's `TypeError` at the constructor call. The model requires the right count instead.
- Driver.RunPackages: that `TypeError` arises outside `main`'s handler and would stop the loop. The model requires every package to be well formed instead.
- IEEE floating point: rounding, `inf` and `nan` are not modelled. Every quantity is an exact real, so the exact values in the sample lemmas may differ from the floats the program computes in the last bits.
- Integer annotations: the source annotates the raw values as `int` but does not enforce that. The model takes every raw value as a real, which includes the integers.
