/**
 The workout model of the fitness tracker: one datatype for the base workout
 and its three kinds (running, sports walking, swimming), the per-kind
 distance, mean-speed and calorie formulas over exact `real` arithmetic, the
 five-field summary record, and the properties those formulas promise.
 */
module Workouts {

  /** The faults the tracker can raise (other than division by zero, which is a precondition here). */
  datatype Error =
    | UnknownWorkout(code: string)                               // KeyError from the dispatcher
    | WrongFieldCount(code: string, expected: nat, given: nat)   // TypeError from positional binding
    | NotImplemented(className: string)                          // the base class has no calorie formula

  datatype Result<T> = Ok(value: T) | Err(error: Error)

  // Constants shared by every workout.
  const LenStep: real := 0.65      // metres per step
  const MInKm: real := 1000.0      // metres in a kilometre
  const MInHour: real := 60.0      // minutes in an hour

  // Running calorie coefficients.
  const SpentCal1: real := 18.0
  const SpentCal2: real := 1.79

  // Sports-walking calorie coefficients and unit conversions.
  const SwCoef1: real := 0.035
  const SwCoef2: real := 0.029
  const KmhInMsec: real := 0.278   // km/h to m/s
  const CmInM: real := 100.0       // centimetres in a metre

  // Swimming calorie coefficients and its own stroke length.
  const SwimCoef1: real := 1.1
  const SwimCoef2: real := 2.0
  const SwimLenStep: real := 1.38  // metres per stroke

  /**
   A workout as built from sensor readings. `Training` is the base class,
   which can be built but has no calorie formula; the other three are its
   subclasses. Fields are set once and never change.
   */
  datatype Workout =
    | Training(action: real, duration: real, weight: real)
    | Running(action: real, duration: real, weight: real)
    | SportsWalking(action: real, duration: real, weight: real, height: real)
    | Swimming(action: real, duration: real, weight: real, lengthPool: real, countPool: real)

  /** The summary record of one workout, fields in the order the report prints them. */
  datatype InfoMessage = InfoMessage(
    trainingType: string,
    duration: real,     // hours
    distance: real,     // km
    speed: real,        // km/h
    calories: real)     // kcal

  /** The class name a workout reports as its type. */
  function TypeName(w: Workout): (r: string)
    ensures r == "Training" <==> w.Training?
    ensures r == "Running" <==> w.Running?
    ensures r == "SportsWalking" <==> w.SportsWalking?
    ensures r == "Swimming" <==> w.Swimming?
  {
    match w
    case Training(_, _, _) => "Training"
    case Running(_, _, _) => "Running"
    case SportsWalking(_, _, _, _) => "SportsWalking"
    case Swimming(_, _, _, _, _) => "Swimming"
  }

  /** The step length in metres a workout uses: swimming overrides the shared one. */
  function StepLength(w: Workout): (r: real)
    ensures r > 0.0
    ensures w.Swimming? ==> r == SwimLenStep
    ensures !w.Swimming? ==> r == LenStep
  {
    if w.Swimming? then SwimLenStep else LenStep
  }

  /** Sensor readings a real workout can produce: nothing negative, time and height positive. */
  predicate Plausible(w: Workout)
  {
    && w.action >= 0.0 && w.duration > 0.0 && w.weight >= 0.0
    && (w.SportsWalking? ==> w.height > 0.0)
    && (w.Swimming? ==> w.lengthPool >= 0.0 && w.countPool >= 0.0)
  }

  /** What every formula divides by: the duration, and for sports walking the height. */
  predicate Computable(w: Workout)
  {
    w.duration != 0.0 && (w.SportsWalking? ==> w.height != 0.0)
  }

  /** Distance in kilometres: actions times the step length, converted from metres. */
  function Distance(w: Workout): (r: real)
    ensures r * MInKm == w.action * StepLength(w)
    ensures w.action >= 0.0 ==> r >= 0.0
  {
    w.action * StepLength(w) / MInKm
  }

  /**
   Mean speed in km/h. The shared formula divides the distance by the
   duration; swimming overrides it with pool length times lap count and never
   looks at the action count.
   */
  function MeanSpeed(w: Workout): (r: real)
    requires w.duration != 0.0
    ensures !w.Swimming? ==> r * w.duration == Distance(w)
    ensures w.Swimming? ==> r * w.duration * MInKm == w.lengthPool * w.countPool
  {
    match w
    case Swimming(_, duration, _, lengthPool, countPool) =>
      lengthPool * countPool / MInKm / duration
    case _ =>
      Distance(w) / w.duration
  }

  /** Calories spent, per kind; the base class has no formula and fails. */
  function SpentCalories(w: Workout): (r: Result<real>)
    requires w.Training? || Computable(w)
    ensures r.Ok? <==> !w.Training?
    ensures w.Training? ==> r == Err(NotImplemented("Training"))
  {
    match w
    case Training(_, _, _) =>
      Err(NotImplemented("Training"))
    case Running(_, duration, weight) =>
      Ok((SpentCal1 * MeanSpeed(w) + SpentCal2) * weight / MInKm * duration * MInHour)
    case SportsWalking(_, duration, weight, height) =>
      var ms := MeanSpeed(w) * KmhInMsec;
      Ok((SwCoef1 * weight + (ms * ms / (height / CmInM)) * SwCoef2 * weight) * duration * MInHour)
    case Swimming(_, duration, weight, _, _) =>
      Ok((MeanSpeed(w) + SwimCoef1) * SwimCoef2 * weight * duration)
  }

  /**
   The summary of a workout: its type name, the duration unchanged, then
   distance, speed and calories. The base class fails with the calorie fault.
   */
  function ShowTrainingInfo(w: Workout): (r: Result<InfoMessage>)
    requires Computable(w)
    ensures r.Ok? <==> !w.Training?
    ensures r.Err? ==> r == Err(NotImplemented("Training"))
    ensures r.Ok? ==> r.value == InfoMessage(TypeName(w), w.duration, Distance(w), MeanSpeed(w), SpentCalories(w).value)
  {
    match SpentCalories(w)
    case Err(e) => Err(e)
    case Ok(calories) => Ok(InfoMessage(TypeName(w), w.duration, Distance(w), MeanSpeed(w), calories))
  }

  /** The same workout with another body weight. */
  function WithWeight(w: Workout, kg: real): Workout
  {
    match w
    case Training(action, duration, _) => Training(action, duration, kg)
    case Running(action, duration, _) => Running(action, duration, kg)
    case SportsWalking(action, duration, _, height) => SportsWalking(action, duration, kg, height)
    case Swimming(action, duration, _, lengthPool, countPool) => Swimming(action, duration, kg, lengthPool, countPool)
  }

  // ---------------------------------------------------------------------
  // Properties of the formulas.

  /** The base class fails to give calories whatever its readings, a zero duration included: it divides by nothing. */
  lemma BaseClassHasNoCalories(action: real, duration: real, weight: real)
    ensures SpentCalories(Training(action, duration, weight)) == Err(NotImplemented("Training"))
  {
  }

  /** Running and sports walking inherit distance and speed from the base class unchanged. */
  lemma InheritedDistanceAndSpeed(w: Workout)
    requires w.Running? || w.SportsWalking?
    requires w.duration != 0.0
    ensures Distance(w) == Distance(Training(w.action, w.duration, w.weight))
    ensures MeanSpeed(w) == MeanSpeed(Training(w.action, w.duration, w.weight))
  {
  }

  /** The mean speed of every kind is non-negative for plausible readings. */
  lemma MeanSpeedNonNegative(w: Workout)
    requires Plausible(w)
    ensures MeanSpeed(w) >= 0.0
  {
  }

  /** Swimming speed depends only on pool length, lap count and duration: changing the stroke count leaves it as it is. */
  lemma SwimmingSpeedIgnoresAction(action1: real, action2: real, duration: real, weight: real, lengthPool: real, countPool: real)
    requires duration != 0.0
    ensures MeanSpeed(Swimming(action1, duration, weight, lengthPool, countPool))
         == MeanSpeed(Swimming(action2, duration, weight, lengthPool, countPool))
  {
  }

  /**
   The swimming speed agrees with the swimming distance divided by the
   duration exactly when the strokes times 1.38 m cover the pool length times
   the lap count.
   */
  lemma SwimmingSpeedMatchesDistanceIff(w: Workout)
    requires w.Swimming? && w.duration != 0.0
    ensures MeanSpeed(w) == Distance(w) / w.duration <==> w.action * SwimLenStep == w.lengthPool * w.countPool
  {
  }

  /** With the speed written out, running calories are (18 km + 1.79 h) * kg * 60 / 1000: the duration in the speed cancels. */
  lemma RunningCaloriesClosedForm(w: Workout)
    requires w.Running? && w.duration != 0.0
    ensures SpentCalories(w).value == (SpentCal1 * Distance(w) + SpentCal2 * w.duration) * w.weight * MInHour / MInKm
  {
  }

  /** With the speed written out, swimming calories are (pool km + 1.1 h) * 2 * kg: the duration in the speed cancels. */
  lemma SwimmingCaloriesClosedForm(w: Workout)
    requires w.Swimming? && w.duration != 0.0
    ensures SpentCalories(w).value == (w.lengthPool * w.countPool / MInKm + SwimCoef1 * w.duration) * SwimCoef2 * w.weight
  {
  }

  /** Every calorie formula is non-negative for plausible readings. */
  lemma CaloriesNonNegative(w: Workout)
    requires Plausible(w) && !w.Training?
    ensures SpentCalories(w).value >= 0.0
  {
  }

  /**
   Proof step for `WalkingCaloriesProportionalToWeight`, not a property of its
   own: the sports-walking branch of `SpentCalories` with the speed named `s`.
   */
  lemma WalkingCaloriesAt(w: Workout, s: real)
    requires w.SportsWalking? && Computable(w) && s == MeanSpeed(w)
    ensures SpentCalories(w).value
         == (SwCoef1 * w.weight + ((s * KmhInMsec) * (s * KmhInMsec) / (w.height / CmInM)) * SwCoef2 * w.weight) * w.duration * MInHour
  {
  }

  /**
   Proof step for `WalkingCaloriesProportionalToWeight`, not a property of its
   own: the arithmetic identity that lets the weight factor out of the
   sports-walking formula, whatever the speed term `q` is.
   */
  lemma WalkingFormulaScales(q: real, kg: real, d: real, k: real)
    ensures (SwCoef1 * (k * kg) + q * SwCoef2 * (k * kg)) * d * MInHour == k * ((SwCoef1 * kg + q * SwCoef2 * kg) * d * MInHour)
  {
  }

  /** Scaling the body weight by `k` scales the sports-walking calories by `k`, whatever the speed and height. */
  lemma WalkingCaloriesProportionalToWeight(w: Workout, k: real)
    requires w.SportsWalking? && Computable(w)
    ensures SpentCalories(WithWeight(w, k * w.weight)).value == k * SpentCalories(w).value
  {
    var v := WithWeight(w, k * w.weight);
    var s := MeanSpeed(w);
    assert MeanSpeed(v) == s;
    assert v.SportsWalking? && v.weight == k * w.weight && v.height == w.height && v.duration == w.duration;
    var q := (s * KmhInMsec) * (s * KmhInMsec) / (w.height / CmInM);
    WalkingCaloriesAt(w, s);
    WalkingCaloriesAt(v, s);
    calc {
      SpentCalories(v).value;
      (SwCoef1 * (k * w.weight) + q * SwCoef2 * (k * w.weight)) * w.duration * MInHour;
      { WalkingFormulaScales(q, w.weight, w.duration, k); }
      k * ((SwCoef1 * w.weight + q * SwCoef2 * w.weight) * w.duration * MInHour);
      k * SpentCalories(w).value;
    }
  }

  /**
   Sports-walking calories never fall below the weight-only term
   0.035 * kg * minutes, and equal it when no steps were taken.
   */
  lemma WalkingCaloriesAboveBaseline(w: Workout)
    requires w.SportsWalking? && Plausible(w)
    ensures SpentCalories(w).value >= SwCoef1 * w.weight * w.duration * MInHour
    ensures w.action == 0.0 ==> SpentCalories(w).value == SwCoef1 * w.weight * w.duration * MInHour
  {
  }

  /** Every calorie formula is proportional to body weight. */
  lemma CaloriesProportionalToWeight(w: Workout, k: real)
    requires Computable(w) && !w.Training?
    ensures SpentCalories(WithWeight(w, k * w.weight)).value == k * SpentCalories(w).value
  {
    var v := WithWeight(w, k * w.weight);
    var s := MeanSpeed(w);
    assert MeanSpeed(v) == s;
    var kg := w.weight;
    if w.Running? {
      var rate := SpentCal1 * s + SpentCal2;
      assert rate * (k * kg) == k * (rate * kg);
    } else if w.SportsWalking? {
      WalkingCaloriesProportionalToWeight(w, k);
    } else {
      var rate := (s + SwimCoef1) * SwimCoef2;
      assert rate * (k * kg) == k * (rate * kg);
    }
  }

  /** Every numeric field of the summary is non-negative for plausible readings. */
  lemma InfoNonNegative(w: Workout)
    requires Plausible(w) && !w.Training?
    ensures ShowTrainingInfo(w).Ok?
    ensures var m := ShowTrainingInfo(w).value;
      m.duration >= 0.0 && m.distance >= 0.0 && m.speed >= 0.0 && m.calories >= 0.0
  {
  }

  /**
   The swimming distance is not the distance behind the swimming speed: for
   720 strokes in an hour over 40 laps of a 25 m pool the summary reports
   0.9936 km but a speed of 1 km/h.
   */
  lemma SwimmingDistanceDisagreesWithSpeed()
    ensures var w := Swimming(720.0, 1.0, 80.0, 25.0, 40.0);
      Distance(w) == 0.9936 && MeanSpeed(w) == 1.0 && Distance(w) / w.duration != MeanSpeed(w)
  {
  }
}
