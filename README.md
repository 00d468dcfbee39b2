# Fitness tracker workouts, modelled in Dafny

This project models the calculation core of a small fitness tracker
(`homework.py`). The tracker receives packages from a sensor: a workout
code (`SWM`, `RUN` or `WLK`) and a positional list of readings.
It builds a workout from them: running, sports walking or swimming.
From the workout it computes distance (km), mean speed (km/h) and spent
calories, and collects these into a summary record.

Modules:

- `Results` (`results.dfy`): `Option` and `Result`, for lookups that miss and for raised errors.
- `Workouts` (`workouts.dfy`): the per-class constants, the closed datatype `Training` with one variant per subclass, and the formulas for distance, mean speed and calories. It also holds the `InfoMessage` record and `ShowTrainingInfo`, which builds it.
- `Packages` (`packages.dfy`): the code-to-class dictionary, kept as an ordered association list so that the error message lists the codes in order. It also holds `ReadPackage` and its error variants.
- `Samples` (`samples.dfy`): the driver's three sample packages, read and summarised, with their exact expected figures.

All quantities are Dafny `real`s, so every formula is exact.
The walking formula's `speed ** 2 // height` is Python floor division on floats.
It is modelled as `FloorDiv`: the floor of the real quotient, converted back to a real.
Each calorie formula is a function on plain reals (`RunningCalories`, `WalkingCalories`, `SwimmingCalories`).
`SpentCalories` dispatches on the variant.

`ReadPackage` checks, in this order:

1. the code is in the dictionary;
2. no reading equals zero;
3. the list is not empty;
4. the number of readings matches the class's constructor.

The fourth check is implicit in the source: `workout_generator[workout_type](*data)` raises `TypeError` on a wrong argument count.
The model makes it the explicit error `ArityMismatch(expected, given)`.
A success therefore always carries non-zero readings.
So the duration, the walking height and the pool figures are non-zero, and every formula is defined (`ReadPackage` ensures `Admissible`).

Two consequences of the code, stated in the model:

- The running sample `(15000, 1, 75)` burns `(18 * 9.75 - 20) * 75 / 1000 * 1 * 60 = 699.75` calories (`Samples.RunningSample`).
- A zero reading is refused before the empty-list check and before the argument count is looked at (`Packages.ReadPackageNullItem`, `Packages.ReadPackageArity`).

## Model

| member | source | states |
|---|---|---|
| `Workouts.TypeName` | homework.py:54 | the class name reported in the summary is one of `Running`, `SportsWalking`, `Swimming` |
| `Workouts.TypeNameInjective` | homework.py:52-54 | the class name reported in the summary tells the three workout kinds apart |
| `Workouts.Distance` | homework.py:40-42 | distance is positive exactly when the action count is, and zero exactly when it is |
| `Workouts.LenStep` | homework.py:28-111 | the step length is positive for every class; it is 0.65 m for the base class, running and walking (lines 28, 63, 86) and is overridden to 1.38 m for swimming (line 111) |
| `Workouts.DistanceAdditive` | homework.py:139-141 | within one step length, the distance of a sum of action counts is the sum of their distances |
| `Workouts.DistanceMonotone` | homework.py:40-42 | within one step length, distance depends only on the action count and grows with it |
| `Workouts.MeanSpeed` | homework.py:44-46 | for running and walking, speed times duration is the distance; for swimming, speed times duration times 1000 is pool length times laps |
| `Workouts.SwimmingSpeedIgnoresAction` | homework.py:121-126 | swimming speed is `length_pool * count_pool / 1000 / duration`; neither it nor the calories change with the stroke count |
| `Workouts.FloorDiv` | homework.py:101 | the floor quotient is the integer `q` with `q <= x / y < q + 1` |
| `Workouts.FloorDivByBounds` | homework.py:101 | for a positive divisor, `q * h <= x < (q + 1) * h` pins the floor quotient to `q` |
| `Workouts.RunningCalories` | homework.py:69-81 | running calories are `1.08 * (speed - 20/18) * weight * duration`: proportional to weight, duration and the speed's excess over 20/18 km/h |
| `Workouts.WalkingCalories` | homework.py:95-106 | with positive height and duration and non-negative weight, the floor term never lowers walking calories below `0.035 * weight * duration * 60` |
| `Workouts.SwimmingCalories` | homework.py:128-137 | at non-negative speed and weight, swimming calories are at least `2.2 * weight` |
| `Workouts.SpentCalories` | homework.py:69-137 | no ensures of its own: it dispatches to the three subclass formulas (lines 69-81, 95-106, 128-137); `RunningCaloriesFromDistance`, `WalkingCaloriesSlow` and `SwimmingCaloriesFormula` state what it gives per class |
| `Workouts.RunningCaloriesFromDistance` | homework.py:69-81 | running calories equal `(18 * distance - 20 * duration) * weight * 0.06`: the duration cancels against the speed's divisor |
| `Workouts.RunningCaloriesPositive` | homework.py:71-81 | for positive weight and duration, a run burns calories if and only if its speed exceeds 20/18 km/h |
| `Workouts.WalkingCaloriesByQuotient` | homework.py:95-106 | with quotient `q` bracketing speed squared by height, walking calories are `(0.035 * weight + q * 0.029 * weight) * duration * 60` |
| `Workouts.WalkingCaloriesSlow` | homework.py:97-106 | when `0 <= speed^2 < height`, walking calories reduce to `0.035 * weight * duration * 60` |
| `Workouts.SwimmingCaloriesFormula` | homework.py:128-137 | swimming calories are `(speed + 1.1) * 2 * weight`, at least `2.2 * weight` when speed and weight are non-negative |
| `Workouts.ShowTrainingInfo` | homework.py:52-58 | the summary carries the class name, duration, distance, speed and calories; for running and walking, its speed times its duration is its distance |
| `Packages.Lookup` | homework.py:147-154 | the lookup misses exactly when no entry has the key, and a hit returns the class of the first entry with that key |
| `Packages.Keys` | homework.py:157-158 | the keys of the dictionary, one per entry, in entry order |
| `Packages.LookupWorkoutCode` | homework.py:147-152 | the dictionary knows exactly `SWM`, `RUN`, `WLK`, bound to swimming, running and walking |
| `Packages.Join` | homework.py:157-159 | no ensures of its own: `', '.join(...)`; `JoinSnoc` states how it grows part by part |
| `Packages.JoinSnoc` | homework.py:157-159 | joining one more part appends a separator and that part, so the parts appear in order with one separator between neighbours |
| `Packages.UnknownTypeMessage` | homework.py:155-160 | the unknown-code message is `Invalid training type. Available types: SWM, RUN, WLK` |
| `Packages.KindOf` | homework.py:61-119 | the class of a workout is running, walking or swimming exactly when its summary reports `Running`, `SportsWalking` or `Swimming` |
| `Packages.Arity` | homework.py:30-119 | every class takes at least the three base arguments action, duration and weight (lines 30-34); walking adds the height (line 91), swimming the pool length and lap count (line 116) |
| `Packages.HasZero` | homework.py:162-166 | the null-reading scan fires exactly when some reading equals zero |
| `Packages.Fields` | homework.py:30-119 | a workout's readings in constructor order (homework.py:30-38, 91-93, 116-119): action, duration, weight, then the walking height, or the pool length and lap count |
| `Packages.Construct` | homework.py:173 | building a class from its readings gives a workout of that class whose readings are exactly those given |
| `Packages.CodeOf` | homework.py:147-152 | every class has a code that the dictionary maps back to it |
| `Packages.ReadPackage` | homework.py:144-173 | on success the code is known, the readings are the workout's fields in order and all non-zero, and every formula's divisor is non-zero |
| `Packages.ReadPackageUnknownType` | homework.py:154-160 | an unknown code fails with the code error and its fixed message, whatever the readings; only an unknown code gives this error |
| `Packages.ReadPackageNullItem` | homework.py:162-166 | the null-item error arises exactly for a known code with some zero reading |
| `Packages.ReadPackageEmpty` | homework.py:168-171 | the invalid-data error arises exactly for a known code with an empty list |
| `Packages.ReadPackageArity` | homework.py:173 | for a known code, the arity error arises exactly for a non-empty, zero-free list of the wrong length |
| `Packages.ReadPackageSuccess` | homework.py:162-173 | reading succeeds exactly for a known code with 5, 3 or 4 non-zero readings, and the workout takes them positionally |
| `Packages.ReadPackageRoundTrip` | homework.py:144-173 | a workout with no zero reading is rebuilt from its own code and readings |
| `Samples.SwimmingSample` | homework.py:183 | the swimming sample reads to distance 0.9936, speed 1.0 and 336 calories |
| `Samples.RunningSample` | homework.py:184 | the running sample reads to distance and speed 9.75 and 699.75 calories |
| `Samples.WalkingSample` | homework.py:185 | the walking sample reads to distance and speed 5.85 and 157.5 calories, its floor term being 0 |
| `Samples.UnknownCodeSample` | homework.py:154-160 | code `XYZ` is refused before its zero reading is examined |

## Left out

- `InfoMessage.get_message` and its message template (homework.py:14-22): the fixed-point decimal rendering through Python string formatting is not modelled. `InfoMessage` is kept as a plain record.
- `main` and the `__main__` driver loop (homework.py:176-190) only print to standard output. Their sample packages appear as the lemmas in `Samples`.
- Floating-point rounding: every quantity is an exact real, so binary-float error in the printed figures is not reproduced.
- `type(self).__name__` (homework.py:54) is replaced by a fixed name per variant (`TypeName`).
- The base class's `NotImplementedError` (homework.py:48-50) cannot arise: `Training` is a closed datatype and every variant has a calorie formula.
- The unused attribute `self.calories = None` (homework.py:35) carries no behaviour and is not modelled.
- Python's exception classes (`KeyError`, `IndexError`, `TypeError`) become the variants of `PackageError`. The exception objects and tracebacks are not modelled.
- Readings are reals. The source's `int` annotation on `action` is not enforced by Python and is not modelled, nor are non-numeric list elements.
- `Workouts.MeanSpeed`, `Workouts.SpentCalories`, `Workouts.ShowTrainingInfo`, `Workouts.WalkingCalories` and `Workouts.FloorDiv` require their divisors to be non-zero. `MeanSpeed` requires only a non-zero duration; the others require `Admissible` or a non-zero height. In Python the constructors never divide (homework.py:30-38, 91-93, 116-119). A zero duration raises `ZeroDivisionError` in `get_mean_speed` (homework.py:46, 125). A zero walking height raises it only at the `//` in `get_spent_calories` (homework.py:101), after distance and speed have been computed. These raising paths are not modelled. Every workout that `ReadPackage` returns meets all of these preconditions.
