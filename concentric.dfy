/**
 * The progress rings: each macro ring shows the percentage of its goal consumed
 * (0 for a goal that is not positive, and not capped at 100), and the centre shows
 * the calories remaining once the calories burned are credited.
 */
module ConcentricProgress {
  import opened Types
  import opened Numeric
  import MealViews

  /** `goal > 0 ? consumed / goal * 100 : 0`. */
  function Progress(consumed: real, goal: int): (p: real)
    ensures goal <= 0 ==> p == 0.0
    ensures goal > 0 ==> p * goal as real == consumed * 100.0
  {
    if goal > 0 then consumed / goal as real * 100.0 else 0.0
  }

  /** With a positive goal the ring reaches 100 exactly when the goal is met, and can go past it. */
  lemma ProgressAgainstGoal(consumed: real, goal: int)
    requires goal > 0
    ensures Progress(consumed, goal) >= 100.0 <==> consumed >= goal as real
    ensures consumed > goal as real ==> Progress(consumed, goal) > 100.0
  {
    var p, g := Progress(consumed, goal), goal as real;
    assert p * g == consumed * 100.0;
    if p >= 100.0 {
      assert p * g >= 100.0 * g;
    } else {
      assert p * g < 100.0 * g;
    }
  }

  datatype Rings = Rings(protein: real, carbs: real, fats: real)

  function MacroRings(summary: MealViews.Totals, goals: MacroGoals): (r: Rings)
    ensures r.protein == Progress(summary.protein, goals.protein)
    ensures r.carbs == Progress(summary.carbs, goals.carbs)
    ensures r.fats == Progress(summary.fats, goals.fats)
  {
    Rings(Progress(summary.protein, goals.protein), Progress(summary.carbs, goals.carbs), Progress(summary.fats, goals.fats))
  }

  /** `Math.round(calorieGoal + caloriesBurned - summary.calories)`. */
  function RemainingCalories(calorieGoal: int, caloriesBurned: int, consumed: real): (r: int)
    ensures -0.5 < r as real - (calorieGoal as real + caloriesBurned as real - consumed) <= 0.5
  {
    Round(calorieGoal as real + caloriesBurned as real - consumed)
  }

  /** Eating more never raises the remaining calories, and burning more never lowers them. */
  lemma RemainingMonotone(calorieGoal: int, burned1: int, burned2: int, consumed1: real, consumed2: real)
    requires consumed1 <= consumed2 && burned1 <= burned2
    ensures RemainingCalories(calorieGoal, burned1, consumed2) <= RemainingCalories(calorieGoal, burned1, consumed1)
    ensures RemainingCalories(calorieGoal, burned1, consumed1) <= RemainingCalories(calorieGoal, burned2, consumed1)
  {
    RoundMonotone(calorieGoal as real + burned1 as real - consumed2, calorieGoal as real + burned1 as real - consumed1);
    RoundMonotone(calorieGoal as real + burned1 as real - consumed1, calorieGoal as real + burned2 as real - consumed1);
  }

  /** With whole calories the remaining count is exact. */
  lemma RemainingExactForWholeCalories(calorieGoal: int, caloriesBurned: int, consumed: int)
    ensures RemainingCalories(calorieGoal, caloriesBurned, consumed as real) == calorieGoal + caloriesBurned - consumed
  {
  }
}
