/**
 * The macro editor: three sliders over the protein, carbohydrate and fat goals, the
 * calorie total they imply, a reset to the calculator's recommendation and the save.
 */
module AdjustMacros {
  import opened Types
  import Nutrition
  import Store

  /** The slider ranges in grams. */
  const ProteinMin: int := 20
  const ProteinMax: int := 300
  const CarbsMin: int := 20
  const CarbsMax: int := 500
  const FatsMin: int := 10
  const FatsMax: int := 200

  datatype Macro = ProteinMacro | CarbsMacro | FatsMacro

  /** The range of one slider. */
  function SliderRange(m: Macro): (range: (int, int))
    ensures range.0 < range.1
  {
    match m
    case ProteinMacro => (ProteinMin, ProteinMax)
    case CarbsMacro => (CarbsMin, CarbsMax)
    case FatsMacro => (FatsMin, FatsMax)
  }

  function Amount(g: MacroGoals, m: Macro): int {
    match m
    case ProteinMacro => g.protein
    case CarbsMacro => g.carbs
    case FatsMacro => g.fats
  }

  /** The goals with one macro set. */
  function SetAmount(g: MacroGoals, m: Macro, value: int): (r: MacroGoals)
    ensures Amount(r, m) == value
    ensures forall other :: other != m ==> Amount(r, other) == Amount(g, other)
  {
    match m
    case ProteinMacro => g.(protein := value)
    case CarbsMacro => g.(carbs := value)
    case FatsMacro => g.(fats := value)
  }

  /** Moving one slider by a gram moves the calorie total by that macro's energy per gram. */
  lemma SliderStepCalories(g: MacroGoals, m: Macro, value: int)
    ensures Nutrition.GoalCalories(SetAmount(g, m, value)) - Nutrition.GoalCalories(g)
         == (if m == FatsMacro then 9 else 4) * (value - Amount(g, m))
  {
  }

  /** With every slider inside its range the total lies between 250 and 5000 kcal. */
  lemma TotalWithinSliderRanges(g: MacroGoals)
    requires forall m :: SliderRange(m).0 <= Amount(g, m) <= SliderRange(m).1
    ensures 250 <= Nutrition.GoalCalories(g) <= 5000
  {
    assert SliderRange(ProteinMacro).0 <= Amount(g, ProteinMacro) <= SliderRange(ProteinMacro).1;
    assert SliderRange(CarbsMacro).0 <= Amount(g, CarbsMacro) <= SliderRange(CarbsMacro).1;
    assert SliderRange(FatsMacro).0 <= Amount(g, FatsMacro) <= SliderRange(FatsMacro).1;
  }

  class MacroEditor {
    var goals: MacroGoals

    /** The editor starts from the signed-in user's goals, or all zero when signed out. */
    constructor (store: Store.AppStore)
      ensures store.CurrentUser().Some? ==> goals == store.CurrentUser().value.macroGoals
      ensures store.CurrentUser().None? ==> goals == MacroGoals(0, 0, 0)
    {
      goals := if store.CurrentUser().Some? then store.CurrentUser().value.macroGoals else MacroGoals(0, 0, 0);
    }

    /** `totalCalories`: 4 kcal per gram of protein and carbohydrate, 9 per gram of fat. */
    function TotalCalories(): (total: int)
      reads this
      ensures total == Nutrition.GoalCalories(goals)
    {
      goals.protein * 4 + goals.carbs * 4 + goals.fats * 9
    }

    /** A slider reports a whole value inside its own range and changes only its own macro. */
    method Slide(m: Macro, value: int)
      requires SliderRange(m).0 <= value <= SliderRange(m).1
      modifies this
      ensures Amount(goals, m) == value
      ensures forall other :: other != m ==> Amount(goals, other) == Amount(old(goals), other)
    {
      goals := SetAmount(goals, m, value);
    }

    /** `handleReset`: the calculator's goals for the context's profile and current weight. */
    method Reset(store: Store.AppStore)
      modifies this
      ensures goals == Nutrition.CalculateGoals(store.ProfileOrDefault(), store.CurrentWeight())
    {
      goals := Nutrition.CalculateGoals(store.ProfileOrDefault(), store.CurrentWeight());
    }

    /** `handleSave`: the edited goals go to the store unchanged (and the page becomes settings). */
    method Save(store: Store.AppStore)
      requires store.Valid()
      modifies store
      ensures var saved := goals;
        store.usersData == Store.UpdatedUsers(old(store.usersData), old(store.CurrentKey()),
          (ud: UserData) => ud.(macroGoals := saved, page := Settings))
      ensures store.currentUserId == old(store.currentUserId) && store.Valid()
    {
      store.HandleMacrosUpdate(goals);
    }
  }
}
