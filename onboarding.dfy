/**
 * The onboarding wizard: six steps, the inputs of each, the gate on each step's Next
 * button, the goal preview on the last step and the submit that registers the user.
 */
module Onboarding {
  import opened Wrappers
  import opened Types
  import opened Numeric
  import Units
  import Nutrition
  import Store

  const TotalSteps: int := 6

  /** The profile the wizard starts from (the store gives the id at registration). */
  const InitialProfile: UserProfile :=
    UserProfile("", "", 25, "\U{1F9D1}\U{200D}\U{1F9B0}", Male, 68.0, LightlyActive, LoseWeight, Imperial)

  const InitialWeight: real := 180.0

  /** The goals the last step previews, calories included. */
  datatype Preview = Preview(calories: int, protein: int, carbs: int, fats: int)

  /** The Mifflin-St Jeor energy, written with the screen's own branches on gender. */
  function PreviewBmr(profile: UserProfile, weight: real): real {
    var weightInKg := weight / 2.20462;
    var heightInCm := profile.height * 2.54;
    if profile.gender == Male then 10.0 * weightInKg + 6.25 * heightInCm - 5.0 * profile.age as real + 5.0
    else if profile.gender == Female then 10.0 * weightInKg + 6.25 * heightInCm - 5.0 * profile.age as real - 161.0
    else 10.0 * weightInKg + 6.25 * heightInCm - 5.0 * profile.age as real - 78.0
  }

  /** The screen's target: maintenance by the activity table, moved by the goal. */
  function PreviewTarget(profile: UserProfile, weight: real): real {
    var maintenanceCalories := PreviewBmr(profile, weight) *
      (match profile.activityLevel
       case Sedentary => 1.2
       case LightlyActive => 1.375
       case ModeratelyActive => 1.55
       case Active => 1.725
       case VeryActive => 1.9);
    if profile.primaryGoal == LoseWeight then maintenanceCalories - 500.0
    else if profile.primaryGoal == GainMuscle then maintenanceCalories + 300.0
    else maintenanceCalories
  }

  /** `calculatedGoals`: the screen's own copy of the calculator, which also rounds the target. */
  function PreviewGoals(profile: UserProfile, weight: real): Preview {
    var targetCalories := PreviewTarget(profile, weight);
    Preview(Round(targetCalories), Round(targetCalories * 0.30 / 4.0),
            Round(targetCalories * 0.40 / 4.0), Round(targetCalories * 0.30 / 9.0))
  }

  /** The screen's copy of the equation computes the calculator's target. */
  lemma PreviewTargetIsTarget(profile: UserProfile, weight: real)
    ensures PreviewTarget(profile, weight) == Nutrition.TargetCalories(profile, weight)
  {
    assert PreviewBmr(profile, weight) == Nutrition.Bmr(profile.gender, weight, profile.height, profile.age);
  }

  /** The preview shows the macro goals registration will store, and the rounded target. */
  lemma PreviewMatchesCalculator(profile: UserProfile, weight: real)
    ensures var p := PreviewGoals(profile, weight);
      var g := Nutrition.CalculateGoals(profile, weight);
      && p.protein == g.protein && p.carbs == g.carbs && p.fats == g.fats
      && p.calories == Round(Nutrition.TargetCalories(profile, weight))
  {
    PreviewTargetIsTarget(profile, weight);
  }

  /** The wizard's starting inputs preview 1942 kcal: 146 g protein, 194 g carbohydrate, 65 g fat. */
  lemma InitialPreview()
    ensures PreviewGoals(InitialProfile, InitialWeight) == Preview(1942, 146, 194, 65)
  {
    var t := Nutrition.TargetCalories(InitialProfile, InitialWeight);
    assert 81.646 < InitialWeight / 2.20462 < 81.647;
    assert 1941.95 < t < 1941.96;
    PreviewMatchesCalculator(InitialProfile, InitialWeight);
  }

  /** The gate on a step's Next button: a name on step 1, an age on 2, height and weight on 3. */
  predicate StepValid(step: int, profile: UserProfile, weight: real) {
    if step == 1 then |Trim(profile.name)| > 0
    else if step == 2 then profile.age > 0
    else if step == 3 then profile.height > 0.0 && weight > 0.0
    else true
  }

  /** What `handleSubmit` checks before registering. */
  predicate CanRegister(profile: UserProfile, weight: real) {
    Trim(profile.name) != [] && profile.age > 0 && weight > 0.0
  }

  /** Editing the feet box to the number `feet`: `feet * 12 + height % 12`. */
  function WithFeet(height: real, feet: int): real {
    feet as real * 12.0 + Rem12(height)
  }

  /** Editing the inches box to the number `inches`: `floor(height / 12) * 12 + inches`. */
  function WithInches(height: real, inches: int): real {
    (height / 12.0).Floor as real * 12.0 + inches as real
  }

  /** A feet edit keeps the inches part of a height that stays non-negative. */
  lemma FeetEditKeepsInches(height: real, feet: int)
    requires height >= 0.0 && feet >= 0
    ensures Rem12(WithFeet(height, feet)) == Rem12(height)
    ensures Trunc(WithFeet(height, feet) / 12.0) == feet
  {
    WholeFeetPlusInches(feet, Rem12(height));
  }

  /** `f` feet and `r` inches below a foot split back into `f` and `r`. */
  lemma WholeFeetPlusInches(f: int, r: real)
    requires f >= 0 && 0.0 <= r < 12.0
    ensures Trunc((f as real * 12.0 + r) / 12.0) == f
    ensures Rem12(f as real * 12.0 + r) == r
  {
    var h := f as real * 12.0 + r;
    assert f as real <= h / 12.0 < f as real + 1.0;
  }

  /** An inches edit in 0..11 keeps the feet part. */
  lemma InchesEditKeepsFeet(height: real, inches: int)
    requires 0 <= inches < 12
    ensures (WithInches(height, inches) / 12.0).Floor == (height / 12.0).Floor
    ensures WithInches(height, inches) - (height / 12.0).Floor as real * 12.0 == inches as real
  {
    var k := (height / 12.0).Floor;
    var h := WithInches(height, inches);
    assert k as real <= h / 12.0 < k as real + 1.0;
  }

  /** Typing feet and then inches (0..11) into a non-negative height gives exactly `feet * 12 + inches`. */
  lemma FeetThenInches(height: real, feet: int, inches: int)
    requires height >= 0.0 && feet >= 0 && 0 <= inches < 12
    ensures WithInches(WithFeet(height, feet), inches) == (feet * 12 + inches) as real
  {
    var h := WithFeet(height, feet);
    FeetEditKeepsInches(height, feet);
    assert h >= 0.0;
    assert (h / 12.0).Floor == Trunc(h / 12.0) == feet;
  }

  class OnboardingForm {
    var step: int
    var profile: UserProfile
    var weight: real   // always pounds

    predicate Valid()
      reads this
    {
      1 <= step <= TotalSteps
    }

    constructor ()
      ensures Valid() && step == 1 && profile == InitialProfile && weight == InitialWeight
    {
      step := 1;
      profile := InitialProfile;
      weight := InitialWeight;
    }

    /** `handleNext` behind its button: one step on, never past the last, and only through an open gate. */
    method Next()
      requires Valid()
      modifies this
      ensures Valid()
      ensures old(StepValid(step, profile, weight)) ==> step == if old(step) < TotalSteps then old(step) + 1 else TotalSteps
      ensures !old(StepValid(step, profile, weight)) ==> step == old(step)
      ensures profile == old(profile) && weight == old(weight)
    {
      if StepValid(step, profile, weight) {
        step := if step + 1 < TotalSteps then step + 1 else TotalSteps;
      }
    }

    /**
     * `handleBack`: on the first step, with users already registered, registration is
     * cancelled; otherwise one step back, never before the first.
     */
    method Back(store: Store.AppStore)
      requires Valid()
      modifies this, store
      ensures Valid()
      ensures old(step) == 1 && old(store.HasUsers()) ==> step == 1 && !store.isRegistering
      ensures !(old(step) == 1 && old(store.HasUsers())) ==>
        step == (if old(step) > 1 then old(step) - 1 else 1) && store.isRegistering == old(store.isRegistering)
      ensures store.usersData == old(store.usersData) && store.currentUserId == old(store.currentUserId)
      ensures profile == old(profile) && weight == old(weight)
    {
      if step == 1 && store.HasUsers() {
        store.CancelRegistration();
      } else {
        step := if step - 1 > 1 then step - 1 else 1;
      }
    }

    method SetName(name: string)
      modifies this
      ensures profile == old(profile).(name := name) && step == old(step) && weight == old(weight)
    {
      profile := profile.(name := name);
    }

    /** The age box: `parseInt(text) || 0`. */
    method SetAge(text: string)
      modifies this
      ensures profile == old(profile).(age := ParseIntOr(text, 0)) && step == old(step) && weight == old(weight)
    {
      profile := profile.(age := ParseIntOr(text, 0));
    }

    method SetGender(g: Gender)
      modifies this
      ensures profile == old(profile).(gender := g) && step == old(step) && weight == old(weight)
    {
      profile := profile.(gender := g);
    }

    method SetUnitSystem(u: UnitSystem)
      modifies this
      ensures profile == old(profile).(unitSystem := u) && step == old(step) && weight == old(weight)
    {
      profile := profile.(unitSystem := u);
    }

    method SetActivityLevel(level: ActivityLevel)
      modifies this
      ensures profile == old(profile).(activityLevel := level) && step == old(step) && weight == old(weight)
    {
      profile := profile.(activityLevel := level);
    }

    method SetPrimaryGoal(goal: PrimaryGoal)
      modifies this
      ensures profile == old(profile).(primaryGoal := goal) && step == old(step) && weight == old(weight)
    {
      profile := profile.(primaryGoal := goal);
    }

    /** The feet box (imperial). */
    method SetFeet(text: string)
      modifies this
      ensures profile == old(profile).(height := WithFeet(old(profile.height), ParseIntOr(text, 0)))
      ensures step == old(step) && weight == old(weight)
    {
      profile := profile.(height := WithFeet(profile.height, ParseIntOr(text, 0)));
    }

    /** The inches box (imperial). */
    method SetInches(text: string)
      modifies this
      ensures profile == old(profile).(height := WithInches(old(profile.height), ParseIntOr(text, 0)))
      ensures step == old(step) && weight == old(weight)
    {
      profile := profile.(height := WithInches(profile.height, ParseIntOr(text, 0)));
    }

    /** The centimetre box (metric): whole centimetres converted back to inches. */
    method SetHeightCm(text: string)
      modifies this
      ensures profile == old(profile).(height := Units.CmToInches(ParseIntOr(text, 0) as real))
      ensures step == old(step) && weight == old(weight)
    {
      profile := profile.(height := Units.CmToInches(ParseIntOr(text, 0) as real));
    }

    /** The kilogram box (metric); `parsedKg` is `parseFloat` of the text, `None` for `NaN`. */
    method SetWeightKg(parsedKg: Option<real>)
      modifies this
      ensures weight == Units.KgToLbs(if parsedKg.Some? && parsedKg.value != 0.0 then parsedKg.value else 0.0)
      ensures profile == old(profile) && step == old(step)
    {
      weight := Units.KgToLbs(if parsedKg.Some? && parsedKg.value != 0.0 then parsedKg.value else 0.0);
    }

    /** The pound box (imperial): `parseInt(text) || 0`. */
    method SetWeightLbs(text: string)
      modifies this
      ensures weight == ParseIntOr(text, 0) as real && profile == old(profile) && step == old(step)
    {
      weight := ParseIntOr(text, 0) as real;
    }

    /** `handleSubmit`: registers the profile and weight only when `CanRegister` holds. */
    method Submit(store: Store.AppStore, freshId: string, today: string) returns (registered: bool)
      requires store.Valid()
      modifies store
      ensures registered <==> CanRegister(profile, weight)
      ensures registered ==> store.usersData == old(store.usersData)[freshId := Store.NewUser(profile, weight, freshId, today)]
                             && store.currentUserId == Some(freshId) && !store.isRegistering
      ensures !registered ==> store.usersData == old(store.usersData) && store.currentUserId == old(store.currentUserId)
      ensures store.Valid()
    {
      if CanRegister(profile, weight) {
        store.Register(profile, weight, freshId, today);
        registered := true;
      } else {
        registered := false;
      }
    }
  }

  /** A user registered through the wizard starts with the macro goals its last step showed. */
  lemma RegisteredGoalsArePreviewed(profile: UserProfile, weight: real, freshId: string, today: string)
    ensures var g := Store.NewUser(profile, weight, freshId, today).macroGoals;
      var p := PreviewGoals(profile, weight);
      g.protein == p.protein && g.carbs == p.carbs && g.fats == p.fats
  {
    PreviewMatchesCalculator(profile, weight);
    Store.NewUserProperties(profile, weight, freshId, today);
  }
}
