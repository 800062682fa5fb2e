/**
 * The daily goal calculator: the Mifflin-St Jeor basal metabolic rate, an activity
 * multiplier, an offset for the primary goal, then a 40/30/30 split of the target
 * calories into carbohydrate, protein and fat grams.
 */
module Nutrition {
  import opened Types
  import opened Numeric

  /** Pounds to kilograms with the calculator's own constant (not the one the unit helpers use). */
  function WeightInKg(weightLbs: real): real {
    weightLbs / 2.20462
  }

  function HeightInCm(heightInches: real): real {
    heightInches * 2.54
  }

  /** The constant the Mifflin-St Jeor equation adds for each gender. */
  function GenderOffset(g: Gender): real {
    match g
    case Male => 5.0
    case Female => -161.0
    case PreferNotToSay => -78.0
  }

  /** Basal metabolic rate in kcal per day. */
  function Bmr(g: Gender, weightLbs: real, heightInches: real, age: int): real {
    10.0 * WeightInKg(weightLbs) + 6.25 * HeightInCm(heightInches) - 5.0 * age as real + GenderOffset(g)
  }

  function ActivityMultiplier(level: ActivityLevel): (m: real)
    ensures 1.2 <= m <= 1.9
  {
    match level
    case Sedentary => 1.2
    case LightlyActive => 1.375
    case ModeratelyActive => 1.55
    case Active => 1.725
    case VeryActive => 1.9
  }

  function GoalOffset(goal: PrimaryGoal): real {
    match goal
    case LoseWeight => -500.0
    case MaintainWeight => 0.0
    case GainMuscle => 300.0
  }

  /** Daily target calories: maintenance calories moved by the goal offset. */
  function TargetCalories(profile: UserProfile, weightLbs: real): real {
    Bmr(profile.gender, weightLbs, profile.height, profile.age) * ActivityMultiplier(profile.activityLevel)
      + GoalOffset(profile.primaryGoal)
  }

  /**
   * `calculateGoals`: total for every profile and weight.  Each macro is the rounded
   * gram count of its share of the target (40% carbohydrate and 30% protein at 4 kcal
   * per gram, 30% fat at 9 kcal per gram).
   */
  function CalculateGoals(profile: UserProfile, weightLbs: real): (r: MacroGoals)
    ensures var t := TargetCalories(profile, weightLbs);
      && -0.5 < r.carbs as real - 0.4 * t / 4.0 <= 0.5
      && -0.5 < r.protein as real - 0.3 * t / 4.0 <= 0.5
      && -0.5 < r.fats as real - 0.3 * t / 9.0 <= 0.5
  {
    var t := TargetCalories(profile, weightLbs);
    MacroGoals(Round(t * 0.3 / 4.0), Round(t * 0.4 / 4.0), Round(t * 0.3 / 9.0))
  }

  /** The goals depend on the body and the goal, not on the profile's id. */
  lemma GoalsIgnoreId(profile: UserProfile, weightLbs: real, id: string)
    ensures CalculateGoals(profile.(id := id), weightLbs) == CalculateGoals(profile, weightLbs)
  {
    var p := profile.(id := id);
    assert TargetCalories(p, weightLbs) == TargetCalories(profile, weightLbs);
  }

  /** The calories implied by macro goals: 4 kcal per gram of protein and carbohydrate, 9 per gram of fat. */
  function GoalCalories(g: MacroGoals): int {
    4 * g.protein + 4 * g.carbs + 9 * g.fats
  }

  /** The implied calories stay within 8.5 kcal of the target: each rounding moves by at most half a gram. */
  lemma GoalCaloriesNearTarget(profile: UserProfile, weightLbs: real)
    ensures var t := TargetCalories(profile, weightLbs);
      -8.5 < GoalCalories(CalculateGoals(profile, weightLbs)) as real - t <= 8.5
  {
  }

  /** For the same body, Male and Female rates differ by 166 kcal and Male and unstated by 83 kcal. */
  lemma BmrGenderGaps(weightLbs: real, heightInches: real, age: int)
    ensures Bmr(Male, weightLbs, heightInches, age) - Bmr(Female, weightLbs, heightInches, age) == 166.0
    ensures Bmr(Male, weightLbs, heightInches, age) - Bmr(PreferNotToSay, weightLbs, heightInches, age) == 83.0
  {
  }

  /** The rate rises with weight and height and falls with age. */
  lemma BmrMonotone(g: Gender, w1: real, w2: real, h1: real, h2: real, a1: int, a2: int)
    requires w1 <= w2 && h1 <= h2 && a1 >= a2
    ensures Bmr(g, w1, h1, a1) <= Bmr(g, w2, h2, a2)
  {
  }

  /** The multipliers strictly increase with the activity level. */
  lemma MultipliersIncrease()
    ensures ActivityMultiplier(Sedentary) < ActivityMultiplier(LightlyActive)
         < ActivityMultiplier(ModeratelyActive) < ActivityMultiplier(Active) < ActivityMultiplier(VeryActive)
  {
  }

  /** Losing weight targets 500 kcal below maintenance and gaining muscle 300 above it. */
  lemma GoalOffsets(profile: UserProfile, weightLbs: real)
    ensures TargetCalories(profile.(primaryGoal := LoseWeight), weightLbs)
         == TargetCalories(profile.(primaryGoal := MaintainWeight), weightLbs) - 500.0
    ensures TargetCalories(profile.(primaryGoal := GainMuscle), weightLbs)
         == TargetCalories(profile.(primaryGoal := MaintainWeight), weightLbs) + 300.0
  {
  }

  /** A worked case: a 30-year-old man, 70 in and 180 lb, moderately active, losing weight. */
  lemma ExampleGoals()
    ensures CalculateGoals(UserProfile("", "", 30, "", Male, 70.0, ModeratelyActive, LoseWeight, Imperial), 180.0)
         == MacroGoals(170, 226, 75)
  {
    var p := UserProfile("", "", 30, "", Male, 70.0, ModeratelyActive, LoseWeight, Imperial);
    var t := TargetCalories(p, 180.0);
    assert 2263.2 < t < 2263.3;
  }
}
