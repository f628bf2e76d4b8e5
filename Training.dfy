/**
 * The workout hierarchy of homework.py: a base training with distance and
 * mean speed, and three kinds of training (running, sports walking,
 * swimming) that override the distance, speed and calorie formulas.
 *
 * Python's class hierarchy becomes one closed datatype; dynamic dispatch on
 * `self` becomes a `match` on the constructor. All quantities are exact
 * reals: every constant of the source is an exact decimal.
 */
module Training {
  import opened Wrappers

  // Constants of class Training.
  const LenStep: real := 0.65          // stride length, m
  const MetersInKm: real := 1000.0
  const MinInHour: real := 60.0        // named M_IN_H in the source

  // Constants of class Running.
  const CalCoefMulti: real := 18.0
  const CalCoefShift: real := 1.79

  // Constants of class SportsWalking.
  const WalkCoef1: real := 0.035
  const WalkCoef2: real := 0.029
  const CmInM: real := 100.0           // named SM_IN_M in the source
  const KmhInMs: real := 0.278         // km/h to m/s factor

  // Constants of class Swimming.
  const SwimLenStep: real := 1.38      // stroke length, m
  const SwimCoefShift: real := 1.1
  const SwimCoefMulti: real := 2.0

  /** The record show_training_info returns. */
  datatype InfoMessage = InfoMessage(
    trainingType: string,
    duration: real,
    distance: real,
    speed: real,
    calories: real)

  /**
   * A training with the fields fixed by its constructor: the number of
   * actions (steps or strokes), the duration in hours, the weight in kg,
   * and per kind the height in cm or the pool length in m and the number
   * of pool lengths swum.
   */
  datatype Workout =
    | Running(action: real, duration: real, weight: real)
    | SportsWalking(action: real, duration: real, weight: real, height: real)
    | Swimming(action: real, duration: real, weight: real, lengthPool: real, countPool: real)

  /** The only error the formulas can raise: Python's ZeroDivisionError. */
  datatype TrainingError = ZeroDivisionError

  /** `self.__class__.__name__`. */
  function ClassName(w: Workout): (name: string)
    ensures name in {"Running", "SportsWalking", "Swimming"}
    ensures (name == "Running") == w.Running?
    ensures (name == "SportsWalking") == w.SportsWalking?
    ensures (name == "Swimming") == w.Swimming?
  {
    match w
    case Running(_, _, _) => "Running"
    case SportsWalking(_, _, _, _) => "SportsWalking"
    case Swimming(_, _, _, _, _) => "Swimming"
  }

  /** Training.get_distance: kilometres covered by `action` strides. */
  function BaseDistance(action: real): (km: real)
    ensures km * MetersInKm == action * LenStep
    ensures km >= 0.0 <==> action >= 0.0
  {
    action * LenStep / MetersInKm
  }

  /** Training.get_mean_speed, in km/h. */
  function BaseMeanSpeed(action: real, duration: real): (kmh: real)
    requires duration != 0.0
    ensures kmh * duration == BaseDistance(action)
  {
    BaseDistance(action) / duration
  }

  /** get_distance as dispatched on the kind of training. */
  function Distance(w: Workout): (km: real)
    ensures !w.Swimming? ==> km == BaseDistance(w.action)
    ensures w.Swimming? ==> km * MetersInKm == w.action * SwimLenStep
  {
    match w
    case Running(_, _, _) => BaseDistance(w.action)
    case SportsWalking(_, _, _, _) => BaseDistance(w.action)
    case Swimming(action, _, _, _, _) => action * SwimLenStep / MetersInKm
  }

  /**
   * get_mean_speed as dispatched on the kind of training. Running keeps the
   * base speed; sports walking restates it in its own, reordered, formula;
   * swimming derives it from the pool, not from the strokes.
   */
  function MeanSpeed(w: Workout): (kmh: real)
    requires w.duration != 0.0
    ensures !w.Swimming? ==> kmh == BaseMeanSpeed(w.action, w.duration)
    ensures !w.Swimming? ==> kmh * w.duration == Distance(w)
    ensures w.Swimming? ==> kmh * w.duration * MetersInKm == w.lengthPool * w.countPool
  {
    match w
    case Running(action, duration, _) => BaseMeanSpeed(action, duration)
    case SportsWalking(action, duration, _, _) =>
      WalkingSpeedIsBaseSpeed(action, duration);
      action * LenStep / duration / MetersInKm
    case Swimming(_, duration, _, lengthPool, countPool) =>
      lengthPool * countPool / MetersInKm / duration
  }

  /** SportsWalking.get_mean_speed divides in a different order than the base class, with the same value. */
  lemma WalkingSpeedIsBaseSpeed(action: real, duration: real)
    requires duration != 0.0
    ensures action * LenStep / duration / MetersInKm == BaseMeanSpeed(action, duration)
  {
  }

  /** No divisor of a formula is zero: duration, and for sports walking also height. */
  predicate NoZeroDivisor(w: Workout) {
    w.duration != 0.0 && (w.SportsWalking? ==> w.height != 0.0)
  }

  /**
   * get_spent_calories of the three kinds of training, each from its own
   * mean speed. Multiplied out, the running and swimming formulas are
   * closed forms in the raw fields: for running the duration cancels out of
   * the speed term, and for swimming the stroke count drops out. The walking
   * closed form is TrainingFacts.WalkingCaloriesClosedForm.
   */
  function Calories(w: Workout): (kcal: real)
    requires NoZeroDivisor(w)
    ensures w.Running? ==>
      kcal == w.weight * (0.000702 * w.action + 0.1074 * w.duration)
    ensures w.Swimming? ==>
      kcal == w.weight * (0.002 * w.lengthPool * w.countPool + 2.2 * w.duration)
  {
    match w
    case Running(_, duration, weight) =>
      (CalCoefMulti * BaseMeanSpeed(w.action, duration) + CalCoefShift) * weight
        / MetersInKm * (duration * MinInHour)
    case SportsWalking(_, duration, weight, height) =>
      WalkingFormula(MeanSpeed(w), duration, weight, height)
    case Swimming(_, duration, weight, _, _) =>
      (MeanSpeed(w) + SwimCoefShift) * SwimCoefMulti * weight * duration
  }

  /** SportsWalking.get_spent_calories for mean speed v (km/h), duration d, weight m and height h. */
  function WalkingFormula(v: real, d: real, m: real, h: real): real
    requires h != 0.0
  {
    var durationInMin := d * MinInHour;
    var speedInMs := v * KmhInMs;
    (WalkCoef1 * m + (speedInMs * speedInMs / (h / CmInM)) * WalkCoef2 * m) * durationInMin
  }

  /**
   * Training.show_training_info: the class name, the duration and the three
   * metrics, or the ZeroDivisionError that one of the formulas raises.
   */
  function ShowTrainingInfo(w: Workout): (r: Result<InfoMessage, TrainingError>)
    ensures r.Success? <==> NoZeroDivisor(w)
    ensures r.Failure? ==> r.error == ZeroDivisionError
    ensures r.Success? ==> r.value.trainingType == ClassName(w) && r.value.duration == w.duration
    ensures r.Success? ==> r.value.distance == Distance(w)
    ensures r.Success? ==> r.value.speed == MeanSpeed(w) && r.value.calories == Calories(w)
  {
    if !NoZeroDivisor(w) then Failure(ZeroDivisionError)
    else
      var distance := Distance(w);
      var speed := MeanSpeed(w);
      var calories := Calories(w);
      Success(InfoMessage(ClassName(w), w.duration, distance, speed, calories))
  }
}
