/**
 * Properties of the calorie formulas of homework.py: the walking formula
 * multiplied out into a closed form over the raw fields, the sign of each
 * formula, and that swimming ignores the stroke count.
 */
module TrainingFacts {
  import opened Training

  /**
   * Sports walking: with s = 0.278 * action * 0.65 / 1000 / duration m/s,
   * (0.035 * weight + s^2 / (height / 100) * 0.029 * weight) * 60 * duration.
   */
  lemma WalkingCaloriesClosedForm(w: Workout)
    requires w.SportsWalking? && w.duration != 0.0 && w.height != 0.0
    ensures Calories(w) == w.weight * (2.1 * w.duration
      + 0.00000568153326 * w.action * w.action / (w.duration * w.height))
  {
  }

  /**
   * Running burns a positive number of calories for a non-negative number
   * of steps, a positive weight and a positive duration.
   */
  lemma RunningCaloriesPositive(w: Workout)
    requires w.Running? && w.action >= 0.0 && w.weight > 0.0 && w.duration > 0.0
    ensures Calories(w) > 0.0
  {
  }

  /** Sports walking burns a positive number of calories for positive weight, height and duration. */
  lemma WalkingCaloriesPositive(w: Workout)
    requires w.SportsWalking? && w.weight > 0.0 && w.height > 0.0 && w.duration > 0.0
    ensures Calories(w) > 0.0
  {
  }

  /**
   * Swimming burns a positive number of calories for a positive weight and
   * duration and a pool distance that is not negative.
   */
  lemma SwimmingCaloriesPositive(w: Workout)
    requires w.Swimming? && w.weight > 0.0 && w.duration > 0.0
    requires w.lengthPool >= 0.0 && w.countPool >= 0.0
    ensures Calories(w) > 0.0
  {
  }

  /**
   * Swimming speed and calories come from the pool alone: two swims that
   * differ only in the number of strokes have the same speed and calories.
   */
  lemma SwimmingIgnoresStrokes(a1: real, a2: real, d: real, m: real, l: real, c: real)
    requires d != 0.0
    ensures MeanSpeed(Swimming(a1, d, m, l, c)) == MeanSpeed(Swimming(a2, d, m, l, c))
    ensures Calories(Swimming(a1, d, m, l, c)) == Calories(Swimming(a2, d, m, l, c))
  {
  }
}
