/**
 * read_package of homework.py: a three-letter code picks the kind of
 * training, and the sensor values become its constructor's positional
 * arguments. Also the three sample packages of the module's driver.
 */
module Packages {
  import opened Wrappers
  import opened Training

  /** The classes training_type_dict can hold. */
  datatype TrainingClass = SwimmingClass | RunningClass | WalkingClass

  /** training_type_dict. */
  const TrainingTypeDict: map<string, TrainingClass> :=
    map["SWM" := SwimmingClass, "RUN" := RunningClass, "WLK" := WalkingClass]

  /** How many positional arguments the class's constructor takes. */
  function Arity(c: TrainingClass): nat {
    match c
    case SwimmingClass => 5
    case RunningClass => 3
    case WalkingClass => 4
  }

  /** `current_training(*data)`: the positional call of the class's constructor. */
  function Construct(c: TrainingClass, data: seq<real>): (w: Workout)
    requires |data| == Arity(c)
    ensures ClassOf(w) == c
    ensures Args(w) == data
  {
    match c
    case SwimmingClass => Swimming(data[0], data[1], data[2], data[3], data[4])
    case RunningClass => Running(data[0], data[1], data[2])
    case WalkingClass => SportsWalking(data[0], data[1], data[2], data[3])
  }

  /** The class of a workout. */
  function ClassOf(w: Workout): TrainingClass {
    match w
    case Swimming(_, _, _, _, _) => SwimmingClass
    case Running(_, _, _) => RunningClass
    case SportsWalking(_, _, _, _) => WalkingClass
  }

  /** The positional arguments a workout was constructed from. */
  function Args(w: Workout): (data: seq<real>)
    ensures |data| == Arity(ClassOf(w))
  {
    match w
    case Swimming(a, d, m, l, c) => [a, d, m, l, c]
    case Running(a, d, m) => [a, d, m]
    case SportsWalking(a, d, m, h) => [a, d, m, h]
  }

  /** The key under which training_type_dict holds a class. */
  function CodeOf(c: TrainingClass): (code: string)
    ensures code in TrainingTypeDict && TrainingTypeDict[code] == c
  {
    match c
    case SwimmingClass => "SWM"
    case RunningClass => "RUN"
    case WalkingClass => "WLK"
  }

  /**
   * read_package: the workout of the code's class built from `data`, or
   * None (after the source prints a TypeError) for any other code. The
   * caller must pass as many values as that class's constructor takes.
   */
  function ReadPackage(workoutType: string, data: seq<real>): (r: Option<Workout>)
    requires workoutType in TrainingTypeDict ==> |data| == Arity(TrainingTypeDict[workoutType])
    ensures r.Some? <==> workoutType == "SWM" || workoutType == "RUN" || workoutType == "WLK"
    ensures workoutType == "SWM" ==> r == Some(Swimming(data[0], data[1], data[2], data[3], data[4]))
    ensures workoutType == "RUN" ==> r == Some(Running(data[0], data[1], data[2]))
    ensures workoutType == "WLK" ==> r == Some(SportsWalking(data[0], data[1], data[2], data[3]))
  {
    if workoutType in TrainingTypeDict then
      Some(Construct(TrainingTypeDict[workoutType], data))
    else
      None
  }

  /** Every workout comes from exactly one package: its class's code and its own arguments. */
  lemma {:induction false} ReadPackageRoundTrip(w: Workout)
    ensures ReadPackage(CodeOf(ClassOf(w)), Args(w)) == Some(w)
  {
  }

  /** A package read successfully gives back its code and its values. */
  lemma {:induction false} ReadPackageInverse(workoutType: string, data: seq<real>)
    requires workoutType in TrainingTypeDict ==> |data| == Arity(TrainingTypeDict[workoutType])
    ensures ReadPackage(workoutType, data).Some? ==>
      var w := ReadPackage(workoutType, data).value;
      CodeOf(ClassOf(w)) == workoutType && Args(w) == data
  {
  }

  /** The dispatcher never mixes kinds: the class name in the summary follows the code. */
  lemma {:induction false} ReadPackageClassName(workoutType: string, data: seq<real>)
    requires workoutType in TrainingTypeDict ==> |data| == Arity(TrainingTypeDict[workoutType])
    ensures workoutType == "SWM" ==> ClassName(ReadPackage(workoutType, data).value) == "Swimming"
    ensures workoutType == "RUN" ==> ClassName(ReadPackage(workoutType, data).value) == "Running"
    ensures workoutType == "WLK" ==> ClassName(ReadPackage(workoutType, data).value) == "SportsWalking"
  {
  }

  /** Sample package ('SWM', [720, 1, 80, 25, 40]): 0.9936 km at 1 km/h, 336 kcal. */
  lemma SampleSwimming()
    ensures ReadPackage("SWM", [720.0, 1.0, 80.0, 25.0, 40.0]).Some?
    ensures ShowTrainingInfo(ReadPackage("SWM", [720.0, 1.0, 80.0, 25.0, 40.0]).value)
      == Success(InfoMessage("Swimming", 1.0, 0.9936, 1.0, 336.0))
  {
  }

  /** Sample package ('RUN', [15000, 1, 75]): 9.75 km at 9.75 km/h, 797.805 kcal. */
  lemma SampleRunning()
    ensures ReadPackage("RUN", [15000.0, 1.0, 75.0]).Some?
    ensures ShowTrainingInfo(ReadPackage("RUN", [15000.0, 1.0, 75.0]).value)
      == Success(InfoMessage("Running", 1.0, 9.75, 9.75, 797.805))
  {
  }

  /** Sample package ('WLK', [9000, 1, 75, 180]): 5.85 km at 5.85 km/h, 349.251747525 kcal. */
  lemma SampleWalking()
    ensures ReadPackage("WLK", [9000.0, 1.0, 75.0, 180.0]).Some?
    ensures ShowTrainingInfo(ReadPackage("WLK", [9000.0, 1.0, 75.0, 180.0]).value)
      == Success(InfoMessage("SportsWalking", 1.0, 5.85, 5.85, 349.251747525))
  {
  }
}
