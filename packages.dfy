/**
 The dispatcher of the fitness tracker: a three-letter workout code picks the
 workout kind, and the list of sensor readings is bound to that kind's fields
 by position.
 */
module Packages {
  import opened Workouts

  /** The codes the dispatcher knows. */
  predicate KnownCode(code: string)
  {
    code == "SWM" || code == "RUN" || code == "WLK"
  }

  /** How many readings the constructor a known code selects takes. */
  function FieldCount(code: string): (n: nat)
    requires KnownCode(code)
    ensures n == 3 <==> code == "RUN"
    ensures n == 4 <==> code == "WLK"
    ensures n == 5 <==> code == "SWM"
  {
    if code == "SWM" then 5 else if code == "RUN" then 3 else 4
  }

  /** The code that selects a workout kind; the base class has none. */
  function Code(w: Workout): string
    requires !w.Training?
  {
    match w
    case Running(_, _, _) => "RUN"
    case SportsWalking(_, _, _, _) => "WLK"
    case Swimming(_, _, _, _, _) => "SWM"
  }

  /** The readings of a workout in the order its constructor takes them. */
  function Fields(w: Workout): seq<real>
  {
    match w
    case Training(action, duration, weight) => [action, duration, weight]
    case Running(action, duration, weight) => [action, duration, weight]
    case SportsWalking(action, duration, weight, height) => [action, duration, weight, height]
    case Swimming(action, duration, weight, lengthPool, countPool) => [action, duration, weight, lengthPool, countPool]
  }

  /**
   Build a workout from a code and its readings. An unknown code fails with
   that code before the readings are looked at; a known code with the wrong
   number of readings fails in the binding; otherwise the readings become the
   fields in order.
   */
  function ReadPackage(code: string, data: seq<real>): (r: Result<Workout>)
    ensures !KnownCode(code) ==> r == Err(UnknownWorkout(code))
    ensures KnownCode(code) && |data| != FieldCount(code) ==> r == Err(WrongFieldCount(code, FieldCount(code), |data|))
    ensures r.Ok? <==> KnownCode(code) && |data| == FieldCount(code)
    ensures r.Ok? ==> !r.value.Training? && Code(r.value) == code && Fields(r.value) == data
  {
    if !KnownCode(code) then
      Err(UnknownWorkout(code))
    else if |data| != FieldCount(code) then
      Err(WrongFieldCount(code, FieldCount(code), |data|))
    else if code == "SWM" then
      Ok(Swimming(data[0], data[1], data[2], data[3], data[4]))
    else if code == "RUN" then
      Ok(Running(data[0], data[1], data[2]))
    else
      Ok(SportsWalking(data[0], data[1], data[2], data[3]))
  }

  /** The text of the dispatcher's lookup fault. */
  function UnknownWorkoutMessage(code: string): (m: string)
    ensures |m| >= |code| && m[|m| - |code|..] == code
  {
    "Неверный тип тренировки: " + code
  }

  /** Reading back the code and readings of any workout of the three kinds rebuilds that workout. */
  lemma ReadPackageRoundTrip(w: Workout)
    requires !w.Training?
    ensures ReadPackage(Code(w), Fields(w)) == Ok(w)
  {
  }

  /** The count a code's constructor takes is the number of fields of every workout of that kind. */
  lemma FieldCountIsArity(w: Workout)
    requires !w.Training?
    ensures KnownCode(Code(w)) && FieldCount(Code(w)) == |Fields(w)|
  {
  }

  /** Whatever the dispatcher builds has a calorie formula, so its summary never hits the not-implemented fault. */
  lemma DispatchedSummaryExists(code: string, data: seq<real>)
    requires ReadPackage(code, data).Ok? && Computable(ReadPackage(code, data).value)
    ensures ShowTrainingInfo(ReadPackage(code, data).value).Ok?
  {
  }

  /** The dispatcher's fault carries the offending code, and its message ends with it. */
  lemma UnknownCodeIsReported(code: string, data: seq<real>)
    requires !KnownCode(code)
    ensures ReadPackage(code, data).Err?
    ensures var e := ReadPackage(code, data).error;
      e.UnknownWorkout? && e.code == code && UnknownWorkoutMessage(e.code)[|UnknownWorkoutMessage(e.code)| - |code|..] == code
  {
  }

  /** The sample swimming package: 1 km/h over 40 laps of 25 m, 336 kcal, and 0.9936 km from 720 strokes. */
  lemma SampleSwimming()
    ensures ReadPackage("SWM", [720.0, 1.0, 80.0, 25.0, 40.0]).Ok?
    ensures var w := ReadPackage("SWM", [720.0, 1.0, 80.0, 25.0, 40.0]).value;
      Computable(w) && ShowTrainingInfo(w) == Ok(InfoMessage("Swimming", 1.0, 0.9936, 1.0, 336.0))
  {
  }

  /** The sample running package: 9.75 km in an hour, 797.805 kcal. */
  lemma SampleRunning()
    ensures ReadPackage("RUN", [15000.0, 1.0, 75.0]).Ok?
    ensures var w := ReadPackage("RUN", [15000.0, 1.0, 75.0]).value;
      Computable(w) && ShowTrainingInfo(w) == Ok(InfoMessage("Running", 1.0, 9.75, 9.75, 797.805))
  {
  }

  /** The sample walking package: 5.85 km in an hour, 349.251747525 kcal exactly. */
  lemma SampleWalking()
    ensures ReadPackage("WLK", [9000.0, 1.0, 75.0, 180.0]).Ok?
    ensures var w := ReadPackage("WLK", [9000.0, 1.0, 75.0, 180.0]).value;
      Computable(w) && ShowTrainingInfo(w) == Ok(InfoMessage("SportsWalking", 1.0, 5.85, 5.85, 349.251747525))
  {
  }
}
