/**
 * The manual-entry form: a name, four nutrient fields that only ever hold decimal
 * text, the meal type (snacks by default), and the submit that logs the meal for
 * today.
 */
module ManualLog {
  import opened Wrappers
  import opened Types
  import opened Numeric
  import Reducers
  import Store

  datatype NutrientField = CaloriesField | ProteinField | CarbsField | FatsField

  /** The only decimal-field texts `parseFloat` reads as `NaN`: the empty one and a lone dot. */
  lemma NoNumberExactly(s: string)
    requires IsDecimalText(s)
    ensures ParseDecimal(s).None? <==> s == "" || s == "."
  {
    if s == "." {
      DotIsDecimalTextWithoutValue();
    } else if !AllDigits(s) {
      var k :| 0 <= k < |s| && s[k] == '.' && AllDigits(s[..k]) && AllDigits(s[k + 1..]);
      OnePoint(s, k);
      assert s == "." <==> |s[..k]| == 0 && |s[k + 1..]| == 0;
    }
  }

  /** A decimal text holds one point at most. */
  lemma OnePoint(s: string, k: int)
    requires 0 <= k < |s| && AllDigits(s[..k]) && AllDigits(s[k + 1..])
    ensures forall j :: 0 <= j < |s| && s[j] == '.' ==> j == k
  {
  }

  /** The guard `handleSubmit` applies as written: every field is non-empty. */
  predicate SubmitGuardAsWritten(name: string, calories: string, protein: string, carbs: string, fats: string) {
    name != [] && calories != [] && protein != [] && carbs != [] && fats != []
  }

  /**
   * The as-written guard lets a lone dot through: the filter accepts ".", the guard
   * sees a non-empty field, and `parseFloat(".")` is `NaN`, so the meal would be
   * logged with a calorie value that is not a number.
   */
  lemma GuardAdmitsDot()
    ensures IsDecimalText(".") && SubmitGuardAsWritten("Soup", ".", "1", "1", "1") && ParseDecimal(".").None?
  {
    DotIsDecimalTextWithoutValue();
  }

  /** The corrected guard: a name and a number in every nutrient field. */
  predicate CanSubmit(name: string, calories: string, protein: string, carbs: string, fats: string)
    requires IsDecimalText(calories) && IsDecimalText(protein) && IsDecimalText(carbs) && IsDecimalText(fats)
  {
    name != [] && ParseDecimal(calories).Some? && ParseDecimal(protein).Some?
    && ParseDecimal(carbs).Some? && ParseDecimal(fats).Some?
  }

  /** The corrected guard refuses exactly what the written one refuses, plus a field holding a lone dot. */
  lemma CorrectedGuardDiffersOnlyOnDot(name: string, calories: string, protein: string, carbs: string, fats: string)
    requires IsDecimalText(calories) && IsDecimalText(protein) && IsDecimalText(carbs) && IsDecimalText(fats)
    ensures CanSubmit(name, calories, protein, carbs, fats)
      <==> SubmitGuardAsWritten(name, calories, protein, carbs, fats)
           && calories != "." && protein != "." && carbs != "." && fats != "."
  {
    NoNumberExactly(calories);
    NoNumberExactly(protein);
    NoNumberExactly(carbs);
    NoNumberExactly(fats);
  }

  class ManualLogForm {
    var name: string
    var calories: string
    var protein: string
    var carbs: string
    var fats: string
    var mealType: MealType

    /** Every nutrient field holds text the input filter accepts. */
    predicate Valid()
      reads this
    {
      IsDecimalText(calories) && IsDecimalText(protein) && IsDecimalText(carbs) && IsDecimalText(fats)
    }

    function Field(f: NutrientField): string
      reads this
    {
      match f
      case CaloriesField => calories
      case ProteinField => protein
      case CarbsField => carbs
      case FatsField => fats
    }

    constructor ()
      ensures Valid()
      ensures name == "" && calories == "" && protein == "" && carbs == "" && fats == "" && mealType == Snacks
    {
      name := "";
      calories := "";
      protein := "";
      carbs := "";
      fats := "";
      mealType := Snacks;
    }

    /** A nutrient field takes the new text only when it matches `^\d*\.?\d*$`; other fields keep theirs. */
    method SetNutrient(f: NutrientField, value: string)
      requires Valid()
      modifies this
      ensures Valid()
      ensures IsDecimalText(value) ==> Field(f) == value
      ensures !IsDecimalText(value) ==> Field(f) == old(Field(f))
      ensures forall g :: g != f ==> Field(g) == old(Field(g))
      ensures name == old(name) && mealType == old(mealType)
    {
      if IsDecimalText(value) {
        match f
        case CaloriesField => calories := value;
        case ProteinField => protein := value;
        case CarbsField => carbs := value;
        case FatsField => fats := value;
      }
    }

    /** The name field takes any text. */
    method SetName(value: string)
      modifies this
      ensures name == value && mealType == old(mealType)
      ensures calories == old(calories) && protein == old(protein) && carbs == old(carbs) && fats == old(fats)
    {
      name := value;
    }

    method SelectType(t: MealType)
      modifies this
      ensures mealType == t && name == old(name)
      ensures calories == old(calories) && protein == old(protein) && carbs == old(carbs) && fats == old(fats)
    {
      mealType := t;
    }

    /**
     * `handleSubmit` with the corrected guard: refused unless the name is set and every
     * nutrient field holds a number; then the meal with the parsed numbers, the chosen
     * type and today's date is logged.
     */
    method Submit(store: Store.AppStore, today: string, yesterday: string) returns (logged: Option<Meal>)
      requires Valid() && store.Valid()
      modifies store
      ensures logged.None? <==> !CanSubmit(name, calories, protein, carbs, fats)
      ensures logged.None? ==> store.usersData == old(store.usersData)
      ensures logged.Some? ==>
        var m := logged.value;
        && m.name == name && m.mealType == mealType && m.date == today
        && Some(m.calories) == ParseDecimal(calories) && Some(m.protein) == ParseDecimal(protein)
        && Some(m.carbs) == ParseDecimal(carbs) && Some(m.fats) == ParseDecimal(fats)
        && m.description.None? && m.fiber.None? && m.sugar.None? && m.sodium.None?
        && store.usersData == Store.UpdatedUsers(old(store.usersData), old(store.CurrentKey()),
             (ud: UserData) => Reducers.HandleLog(ud, Reducers.MealEntry(m), today, yesterday))
      ensures store.currentUserId == old(store.currentUserId) && store.Valid()
    {
      if !CanSubmit(name, calories, protein, carbs, fats) {
        return None;
      }
      var m := Meal(name, None, ParseDecimal(calories).value, ParseDecimal(protein).value,
                    ParseDecimal(carbs).value, ParseDecimal(fats).value, None, None, None, mealType, today);
      store.HandleMealLogged(m, today, yesterday);
      logged := Some(m);
    }
  }

  /** Every meal the corrected submit logs has non-negative nutrients. */
  lemma SubmittedValuesNonNegative(calories: string, protein: string, carbs: string, fats: string)
    requires IsDecimalText(calories) && IsDecimalText(protein) && IsDecimalText(carbs) && IsDecimalText(fats)
    requires CanSubmit("x", calories, protein, carbs, fats)
    ensures ParseDecimal(calories).value >= 0.0 && ParseDecimal(protein).value >= 0.0
    ensures ParseDecimal(carbs).value >= 0.0 && ParseDecimal(fats).value >= 0.0
  {
  }
}
