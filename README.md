# Fitness tracker workout model

A Dafny model of the fitness tracker's calculation core (`homework.py`). A
workout is built from raw sensor readings: the number of actions (steps or
strokes), the duration in hours, the body weight in kg, and for some kinds the
height in cm or the pool length and lap count. From these readings the tracker
derives the distance in km, the mean speed in km/h and the calories spent, and
collects them into a five-field summary record. A dispatcher turns a
three-letter code (`RUN`, `WLK`, `SWM`) and a list of readings into a workout.

The source is a pure computation: objects are built once and every method is a
single arithmetic expression. The model is therefore datatypes, functions and
lemmas over exact `real` arithmetic:

- `workouts.dfy`, module `Workouts`. The `Workout` datatype has one
  constructor per class. `Training` is the base class: Python can build it,
  but it has no calorie formula. `Running`, `SportsWalking` and `Swimming`
  are the subclasses. The module also holds the class constants, the
  `Distance`, `MeanSpeed` and `SpentCalories` formulas with the overrides of
  each class, the `InfoMessage` record, `ShowTrainingInfo`, and the
  properties of the formulas.
- `packages.dfy`, module `Packages`: `ReadPackage`, the dispatcher, with its
  inverse (`Code`, `Fields`), the text of its lookup fault, and the three
  sample packages of the driver.

Faults are values of `Result<T>`:

- `UnknownWorkout(code)` is the dispatcher's `KeyError`.
- `WrongFieldCount` is the `TypeError` that Python's positional binding raises
  on a list of the wrong length.
- `NotImplemented("Training")` is the base class's `NotImplementedError`.

Division by zero is a precondition, `Computable`: the duration is non-zero,
and for sports walking the height is too. The source does not check these
values; it crashes on them.

Properties worth noting:

- Swimming keeps the shared distance formula but swaps in a 1.38 m stroke.
  Its speed, though, comes from pool length × lap count and ignores the
  stroke count. So the reported distance and speed disagree:
  `SwimmingSpeedMatchesDistanceIff` says exactly when they agree, and
  `SwimmingDistanceDisagreesWithSpeed` shows the sample package, where they
  do not.
- For running and swimming, the duration inside the speed cancels. The
  calories are then a closed form of distance (or pool distance), duration and
  weight.
- Every calorie formula is proportional to body weight.
- Every formula is non-negative for plausible readings.

The sample package values follow the code. Walking 9000 steps in one hour at
75 kg and 180 cm gives exactly 349.251747525 kcal. Running 15000 steps in one
hour at 75 kg gives 797.805 kcal. Swimming 720 strokes gives 0.9936 km.

## Model

| member | source | states |
|---|---|---|
| `Workouts.Distance` | homework.py:37-39 | distance in metres (km × 1000) is actions × the class's step length (0.65 m, 1.38 m for swimming); non-negative for a non-negative action count |
| `Workouts.MeanSpeed` | homework.py:41-123 | needs a non-zero duration; for the base formula, speed × duration is the distance; for swimming, speed × duration × 1000 is pool length × lap count |
| `Workouts.SpentCalories` | homework.py:45-128 | defined exactly for the three subclasses; the base class fails with the not-implemented fault naming `Training`, for any readings |
| `Workouts.BaseClassHasNoCalories` | homework.py:45-49 | the base class's calorie fault is raised whatever the readings, a zero duration included |
| `Workouts.TypeName` | homework.py:53 | the reported type name is the class name, and each of the four names belongs to exactly one class |
| `Workouts.StepLength` | homework.py:28-108 | the step length is positive: 1.38 m for swimming, which overrides the shared 0.65 m |
| `Workouts.ShowTrainingInfo` | homework.py:51-57 | a record of type name, the duration unchanged, distance, speed and calories, in that order; fails exactly for the base class, with its calorie fault |
| `Workouts.InheritedDistanceAndSpeed` | homework.py:60-99 | running and sports walking compute distance and speed exactly as the base class does |
| `Workouts.MeanSpeedNonNegative` | homework.py:41-43 | mean speed of every kind is non-negative for plausible readings |
| `Workouts.SwimmingSpeedIgnoresAction` | homework.py:120-123 | two swimming workouts that differ only in stroke count have the same speed |
| `Workouts.SwimmingSpeedMatchesDistanceIff` | homework.py:102-123 | the swimming speed equals distance / duration if and only if strokes × 1.38 equals pool length × lap count |
| `Workouts.SwimmingDistanceDisagreesWithSpeed` | homework.py:102-128 | for 720 strokes, 1 h, 40 laps of 25 m: distance 0.9936 km, speed 1 km/h, so distance / duration differs from the speed |
| `Workouts.RunningCaloriesClosedForm` | homework.py:63-74 | running calories are (18 × distance + 1.79 × duration) × weight × 60 / 1000 |
| `Workouts.SwimmingCaloriesClosedForm` | homework.py:125-128 | swimming calories are (pool length × laps / 1000 + 1.1 × duration) × 2 × weight |
| `Workouts.CaloriesNonNegative` | homework.py:66-128 | every subclass's calories are non-negative for plausible readings |
| `Workouts.WalkingCaloriesAboveBaseline` | homework.py:93-99 | sports-walking calories are at least 0.035 × weight × duration × 60, with equality when no steps were taken |
| `Workouts.WalkingCaloriesProportionalToWeight` | homework.py:93-99 | scaling the weight by k scales the sports-walking calories by k, whatever the speed and height |
| `Workouts.CaloriesProportionalToWeight` | homework.py:66-128 | scaling the weight by k scales every subclass's calories by k |
| `Workouts.InfoNonNegative` | homework.py:51-57 | for plausible readings of a subclass the summary exists and all four numbers in it are non-negative |
| `Packages.ReadPackage` | homework.py:131-141 | an unknown code fails with that code; a known code with the wrong count (3 RUN, 4 WLK, 5 SWM) fails with the binding fault; otherwise the workout is a subclass whose code is the given code and whose fields are the readings in order |
| `Packages.FieldCount` | homework.py:32-118 | a known code takes 3 readings exactly for RUN, 4 exactly for WLK and 5 exactly for SWM |
| `Packages.FieldCountIsArity` | homework.py:131-141 | the count a code's constructor takes equals the number of fields of every workout of that kind |
| `Packages.ReadPackageRoundTrip` | homework.py:131-141 | reading back the code and fields of any subclass workout rebuilds exactly that workout |
| `Packages.DispatchedSummaryExists` | homework.py:45-57 | a workout the dispatcher builds always has a summary: the not-implemented fault is unreachable through it |
| `Packages.UnknownWorkoutMessage` | homework.py:140 | the lookup fault's text ends with the offending code |
| `Packages.UnknownCodeIsReported` | homework.py:137-140 | any unknown code, whatever the readings, gives the lookup fault carrying that code, and its message contains it |
| `Packages.SampleSwimming` | homework.py:152 | the sample swimming package summarises to Swimming, 1 h, 0.9936 km, 1 km/h, 336 kcal |
| `Packages.SampleRunning` | homework.py:153 | the sample running package summarises to Running, 1 h, 9.75 km, 9.75 km/h, 797.805 kcal |
| `Packages.SampleWalking` | homework.py:154 | the sample walking package summarises to SportsWalking, 1 h, 5.85 km, 5.85 km/h, 349.251747525 kcal |

## Left out

- `InfoMessage.get_message` and its message template (homework.py:13-22) are not modelled. They render each number with three decimals, which is float-to-decimal formatting with rounding; only the record's fields are kept.
- Float arithmetic and rounding are not modelled: every number is an exact `real`. This includes the fields the source annotates as integers (action count, height, pool length, lap count), since the data list carries plain numbers.
- `main` and the `__main__` driver loop (homework.py:144-159) are not modelled: they print to the console. Their three sample packages appear in the sample lemmas.
- Division by zero (zero duration, or zero height for sports walking) is a precondition of the formulas, not a modelled `ZeroDivisionError`.
- The text of Python's own `TypeError` (wrong number of readings) and of the `NotImplementedError` are not modelled; the faults are kept as values. Readings that are not numbers are outside the model, since the data list is a sequence of reals.
- The class name comes from `self.__class__.__name__` in the source; here it is an explicit label per constructor (`TypeName`).
