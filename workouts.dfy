/**
  The three workout kinds of the fitness tracker and the formulas that turn
  raw sensor readings (step or stroke count, duration in hours, weight in kg
  and the kind-specific extras) into distance (km), mean speed (km/h) and
  spent calories, plus the summary record built from them.
*/
module Workouts {

  // Class attributes of `Training` and its subclasses, one canonical copy each.
  const MetersPerKm: real := 1000.0
  const StepLength: real := 0.65       // metres per step, running and walking
  const StrokeLength: real := 1.38     // metres per stroke, swimming
  const MinutesPerHour: real := 60.0
  const RunSpeedFactor: real := 18.0
  const RunSpeedShift: real := 20.0
  const WalkWeightFactor: real := 0.035
  const WalkSpeedFactor: real := 0.029
  const SwimSpeedShift: real := 1.1
  const SwimWeightFactor: real := 2.0

  /** A workout as it leaves the sensor: the subclass picks the variant. */
  datatype Training =
    | Running(action: real, duration: real, weight: real)
    | SportsWalking(action: real, duration: real, weight: real, height: real)
    | Swimming(action: real, duration: real, weight: real, lengthPool: real, countPool: real)

  /** The class name that the summary reports for each variant. */
  function TypeName(t: Training): (name: string)
    ensures name == "Running" || name == "SportsWalking" || name == "Swimming"
  {
    match t
    case Running(_, _, _) => "Running"
    case SportsWalking(_, _, _, _) => "SportsWalking"
    case Swimming(_, _, _, _, _) => "Swimming"
  }

  /** Every division the formulas perform has a non-zero divisor. */
  predicate Admissible(t: Training) {
    t.duration != 0.0 && (t.SportsWalking? ==> t.height != 0.0)
  }

  /** The per-kind length of one step or stroke, in metres. */
  function LenStep(t: Training): (r: real)
    ensures r > 0.0
  {
    if t.Swimming? then StrokeLength else StepLength
  }

  /** Distance covered in km; its sign is that of the action count. */
  function Distance(t: Training): (r: real)
    ensures r > 0.0 <==> t.action > 0.0
    ensures r == 0.0 <==> t.action == 0.0
  {
    t.action * LenStep(t) / MetersPerKm
  }

  /**
    Mean speed in km/h. Running and walking divide the distance by the
    duration; swimming overrides this with the pool length times the number
    of laps, ignoring the stroke count.
  */
  function MeanSpeed(t: Training): (r: real)
    requires t.duration != 0.0
    ensures !t.Swimming? ==> r * t.duration == Distance(t)
    ensures t.Swimming? ==> r * t.duration * MetersPerKm == t.lengthPool * t.countPool
  {
    if t.Swimming? then t.lengthPool * t.countPool / MetersPerKm / t.duration
    else Distance(t) / t.duration
  }

  /** Python's `x // y` on floats: the largest integer not above x / y. */
  function FloorDiv(x: real, y: real): (q: int)
    requires y != 0.0
    ensures q as real <= x / y < q as real + 1.0
  {
    (x / y).Floor
  }

  /**
    Running calories from the mean speed, duration and weight. They are
    proportional to weight, duration and the speed's excess over 20/18 km/h.
  */
  function RunningCalories(speed: real, duration: real, weight: real): (r: real)
    ensures r == 1.08 * (speed - 20.0 / 18.0) * weight * duration
  {
    (RunSpeedFactor * speed - RunSpeedShift) * weight / MetersPerKm * duration * MinutesPerHour
  }

  /**
    Walking calories from the mean speed, duration, weight and height; the
    speed term uses the floor quotient of speed squared by height, and with a
    positive height it never lowers the calories below the weight-only term.
  */
  function WalkingCalories(speed: real, duration: real, weight: real, height: real): (r: real)
    requires height != 0.0
    ensures duration > 0.0 && height > 0.0 && weight >= 0.0 ==> r >= 0.035 * weight * duration * 60.0
  {
    (WalkWeightFactor * weight + (FloorDiv(speed * speed, height) as real) * WalkSpeedFactor * weight)
    * duration * MinutesPerHour
  }

  /**
    Swimming calories from the mean speed and weight; the duration enters
    only through the speed. At a non-negative speed they are at least
    2.2 kcal per kg.
  */
  function SwimmingCalories(speed: real, weight: real): (r: real)
    ensures speed >= 0.0 && weight >= 0.0 ==> r >= 2.2 * weight
  {
    (speed + SwimSpeedShift) * SwimWeightFactor * weight
  }

  /** Calories spent: `get_spent_calories` dispatched to each subclass's formula. */
  function SpentCalories(t: Training): real
    requires Admissible(t)
  {
    match t
    case Running(_, duration, weight) => RunningCalories(MeanSpeed(t), duration, weight)
    case SportsWalking(_, duration, weight, height) => WalkingCalories(MeanSpeed(t), duration, weight, height)
    case Swimming(_, _, weight, _, _) => SwimmingCalories(MeanSpeed(t), weight)
  }

  /** The summary of one workout, without its text rendering. */
  datatype InfoMessage = InfoMessage(
    trainingType: string,
    duration: real,
    distance: real,
    speed: real,
    calories: real)

  /** The summary record a workout reports about itself. */
  function ShowTrainingInfo(t: Training): (m: InfoMessage)
    requires Admissible(t)
    ensures m.trainingType == TypeName(t) && m.duration == t.duration
    ensures m.distance == Distance(t) && m.speed == MeanSpeed(t) && m.calories == SpentCalories(t)
    ensures !t.Swimming? ==> m.speed * m.duration == m.distance
  {
    InfoMessage(TypeName(t), t.duration, Distance(t), MeanSpeed(t), SpentCalories(t))
  }

  // ---------------------------------------------------------------------
  // Properties of the formulas

  /** The class names tell the three variants apart. */
  lemma TypeNameInjective(t: Training, u: Training)
    ensures TypeName(t) == TypeName(u) <==> (t.Running? == u.Running? && t.Swimming? == u.Swimming?)
  {
  }

  /** Distance is additive in the action count within one step length. */
  lemma DistanceAdditive(t: Training, u: Training, v: Training)
    requires t.Swimming? == u.Swimming? == v.Swimming?
    requires t.action == u.action + v.action
    ensures Distance(t) == Distance(u) + Distance(v)
  {
  }

  /**
    Distance depends on nothing but the kind and the action count, and grows
    with the action count.
  */
  lemma DistanceMonotone(t: Training, u: Training)
    requires t.Swimming? == u.Swimming?
    requires t.action <= u.action
    ensures Distance(t) <= Distance(u)
    ensures t.action == u.action ==> Distance(t) == Distance(u)
  {
  }

  /** Swimming speed is the pool distance over the duration, whatever the stroke count. */
  lemma SwimmingSpeedIgnoresAction(t: Training, a: real)
    requires t.Swimming? && t.duration != 0.0
    ensures MeanSpeed(t) == t.lengthPool * t.countPool / 1000.0 / t.duration
    ensures var u := Swimming(a, t.duration, t.weight, t.lengthPool, t.countPool);
      MeanSpeed(u) == MeanSpeed(t) && SpentCalories(u) == SpentCalories(t)
  {
  }

  /**
    Running calories written without the mean speed: the duration cancels
    against the speed's divisor.
  */
  lemma RunningCaloriesFromDistance(t: Training)
    requires t.Running? && t.duration != 0.0
    ensures SpentCalories(t) == (18.0 * MeanSpeed(t) - 20.0) * t.weight / 1000.0 * t.duration * 60.0
    ensures SpentCalories(t) == (18.0 * Distance(t) - 20.0 * t.duration) * t.weight * 0.06
  {
  }

  /**
    For a positive weight and duration a run burns calories exactly when its
    mean speed exceeds 20/18 km/h.
  */
  lemma RunningCaloriesPositive(speed: real, duration: real, weight: real)
    requires duration > 0.0 && weight > 0.0
    ensures RunningCalories(speed, duration, weight) > 0.0 <==> speed > 20.0 / 18.0
  {
  }

  /**
    Walking calories when the floor quotient of speed squared by height is
    the integer q, characterised without floor division.
  */
  lemma WalkingCaloriesByQuotient(speed: real, duration: real, weight: real, height: real, q: int)
    requires height > 0.0
    requires q as real * height <= speed * speed < (q as real + 1.0) * height
    ensures WalkingCalories(speed, duration, weight, height)
      == (0.035 * weight + q as real * 0.029 * weight) * duration * 60.0
  {
    FloorDivByBounds(speed * speed, height, q);
  }

  /** Floor division is pinned down by the integer that brackets the dividend. */
  lemma FloorDivByBounds(x: real, h: real, q: int)
    requires h > 0.0
    requires q as real * h <= x < (q as real + 1.0) * h
    ensures FloorDiv(x, h) == q
  {
    var p := q as real;
    QuotientAtLeast(x, h, p);
    QuotientBelow(x, h, p + 1.0);
    var f := FloorDiv(x, h);
    assert f as real <= x / h;
    assert x / h < f as real + 1.0;
    assert f as real < p + 1.0 && p < f as real + 1.0;
    assert f < q + 1 && q < f + 1;
  }

  /** Dividing by a positive number keeps a lower bound. */
  lemma QuotientAtLeast(x: real, h: real, c: real)
    requires h > 0.0 && c * h <= x
    ensures c <= x / h
  {
    var z := x / h;
    assert z * h == x;
    assert (z - c) * h == x - c * h;
    SignOfFactor(z - c, h);
  }

  /** Dividing by a positive number keeps a strict upper bound. */
  lemma QuotientBelow(x: real, h: real, c: real)
    requires h > 0.0 && x < c * h
    ensures x / h < c
  {
    var z := x / h;
    assert z * h == x;
    assert (z - c) * h == x - c * h;
    SignOfFactor(z - c, h);
  }

  /** A walk whose squared speed stays below the height gets no speed term. */
  lemma WalkingCaloriesSlow(t: Training)
    requires t.SportsWalking? && t.duration != 0.0
    requires 0.0 <= MeanSpeed(t) * MeanSpeed(t) < t.height
    ensures SpentCalories(t) == 0.035 * t.weight * t.duration * 60.0
  {
    WalkingCaloriesByQuotient(MeanSpeed(t), t.duration, t.weight, t.height, 0);
  }

  /** Swimming calories with the constants written out, and their minimum at rest. */
  lemma SwimmingCaloriesFormula(t: Training)
    requires t.Swimming? && t.duration != 0.0
    ensures SpentCalories(t) == (MeanSpeed(t) + 1.1) * 2.0 * t.weight
    ensures t.weight >= 0.0 && MeanSpeed(t) >= 0.0 ==> SpentCalories(t) >= 2.2 * t.weight
  {
  }

  /** The sign of a product with a positive factor is the sign of the other factor. */
  lemma SignOfFactor(a: real, b: real)
    requires b > 0.0
    ensures a * b >= 0.0 ==> a >= 0.0
    ensures a * b < 0.0 ==> a < 0.0
  {
  }
}
