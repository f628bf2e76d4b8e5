/**
 * The driver of homework.py: `main` summarises one training inside a
 * catch-all handler, and the `__main__` block runs it over a list of
 * packages. What the source prints becomes the list of outcomes.
 */
module Driver {
  import opened Wrappers
  import opened Training
  import opened Packages

  /** What `main` prints for one training: its message, or the "moving on" notice. */
  datatype Outcome = Printed(info: InfoMessage) | MovingOn

  /** One `(workout_type, data)` pair of sensor readings. */
  datatype Package = Package(workoutType: string, data: seq<real>)

  /** A package whose known code comes with as many values as its class's constructor takes. */
  predicate WellFormed(p: Package) {
    p.workoutType in TrainingTypeDict ==> |p.data| == Arity(TrainingTypeDict[p.workoutType])
  }

  /**
   * `main(training)`. A None training (from an unknown code) fails on the
   * method call and a zero divisor fails in a formula; the handler catches
   * both and the driver moves on.
   */
  function MainOutcome(training: Option<Workout>): (o: Outcome)
    ensures o.Printed? <==> training.Some? && NoZeroDivisor(training.value)
    ensures o.Printed? ==> ShowTrainingInfo(training.value) == Success(o.info)
  {
    match training
    case None => MovingOn
    case Some(w) =>
      match ShowTrainingInfo(w)
      case Success(info) => Printed(info)
      case Failure(_) => MovingOn
  }

  /** One round of the `__main__` loop: read the package, then run `main` on it. */
  function Process(p: Package): (o: Outcome)
    requires WellFormed(p)
    ensures o.Printed? <==>
      (p.workoutType in TrainingTypeDict && NoZeroDivisor(Construct(TrainingTypeDict[p.workoutType], p.data)))
  {
    MainOutcome(ReadPackage(p.workoutType, p.data))
  }

  /**
   * The `__main__` loop: one outcome per package, in order, each decided by
   * its own package alone, so a failing package does not stop the rest.
   */
  method RunPackages(packages: seq<Package>) returns (outcomes: seq<Outcome>)
    requires forall i :: 0 <= i < |packages| ==> WellFormed(packages[i])
    ensures |outcomes| == |packages|
    ensures forall i :: 0 <= i < |packages| ==> outcomes[i] == Process(packages[i])
  {
    outcomes := [];
    for i := 0 to |packages|
      invariant |outcomes| == i
      invariant forall j :: 0 <= j < i ==> outcomes[j] == Process(packages[j])
    {
      var training := ReadPackage(packages[i].workoutType, packages[i].data);
      outcomes := outcomes + [MainOutcome(training)];
    }
  }

  /** The packages of the `__main__` block. */
  const SamplePackages: seq<Package> := [
    Package("SWM", [720.0, 1.0, 80.0, 25.0, 40.0]),
    Package("RUN", [15000.0, 1.0, 75.0]),
    Package("WLK", [9000.0, 1.0, 75.0, 180.0])
  ]

  /** The `__main__` block: all three sample packages print their messages. */
  method RunSamples() returns (outcomes: seq<Outcome>)
    ensures outcomes == [
      Printed(InfoMessage("Swimming", 1.0, 0.9936, 1.0, 336.0)),
      Printed(InfoMessage("Running", 1.0, 9.75, 9.75, 797.805)),
      Printed(InfoMessage("SportsWalking", 1.0, 5.85, 5.85, 349.251747525))
    ]
  {
    outcomes := RunPackages(SamplePackages);
    SampleSwimming();
    SampleRunning();
    SampleWalking();
  }
}
