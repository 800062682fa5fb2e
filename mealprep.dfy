/**
 * The meal-prep creator: a form holding a name, a servings text and a list of
 * ingredients, the per-serving nutrition of that list, and the save that stores the
 * meal and goes back to the log-meal page.  The ingredient search itself calls an
 * external service and is not part of this model; only its length gate is.
 */
module MealPrep {
  import opened Wrappers
  import opened Types
  import opened Numeric
  import opened Reducers
  import opened MealViews
  import Store

  /**
   * A search is started only for a query that is at least `minLength` long once
   * trimmed, its `length` counted in UTF-16 code units.
   */
  predicate QueryLongEnough(query: string, minLength: nat) {
    Utf16Length(Trim(query)) >= minLength
  }

  /** One character above the Basic Multilingual Plane counts twice: an emoji alone passes a gate of two. */
  lemma AstralCharCountsTwice()
    ensures QueryLongEnough("\U{1F34E}", 2) && !QueryLongEnough("\U{1F34E}", 3)
  {
    var q := "\U{1F34E}";
    assert !IsSpace(q[0]);
    assert q[..0] == [];
  }

  /** A query of white space alone never starts a search. */
  lemma BlankQueryNeverSearches(query: string, minLength: nat)
    requires minLength > 0 && forall i :: 0 <= i < |query| ==> IsSpace(query[i])
    ensures !QueryLongEnough(query, minLength)
  {
    BlankTrimsAway(query);
  }

  lemma {:induction false} BlankTrimsAway(s: string)
    requires forall i :: 0 <= i < |s| ==> IsSpace(s[i])
    ensures Trim(s) == []
  {
    if s != [] {
      BlankTrimsAway(s[..|s| - 1]);
    }
  }

  /**
   * `parseInt(servings) || 1`: never zero; a typed count other than 0 is taken as is,
   * and blank, unparsable or zero text falls back to one serving.
   */
  function NumServings(servings: string): (n: int)
    ensures n != 0
    ensures ParseInt(servings).Some? && ParseInt(servings).value != 0 ==> n == ParseInt(servings).value
    ensures ParseInt(servings).None? || ParseInt(servings).value == 0 ==> n == 1
  {
    ParseIntOr(servings, 1)
  }

  /** The nutrition summed over a list of ingredients. */
  function IngredientTotals(ingredients: seq<FoodSearchResult>): Totals {
    if ingredients == [] then NoTotals
    else
      var last := ingredients[|ingredients| - 1];
      var t := IngredientTotals(ingredients[..|ingredients| - 1]);
      Totals(t.calories + last.calories, t.protein + last.protein, t.carbs + last.carbs, t.fats + last.fats)
  }

  /** Each total divided by the serving count. */
  function PerServing(t: Totals, servings: int): Totals
    requires servings != 0
  {
    var n := servings as real;
    Totals(t.calories / n, t.protein / n, t.carbs / n, t.fats / n)
  }

  class MealPrepForm {
    var name: string
    var servings: string
    var ingredients: seq<FoodSearchResult>
    var isSearchModalOpen: bool

    constructor ()
      ensures name == "" && servings == "1" && ingredients == [] && !isSearchModalOpen
    {
      name := "";
      servings := "1";
      ingredients := [];
      isSearchModalOpen := false;
    }

    /** `nutritionPerServing`: all zero without ingredients, otherwise the totals per serving. */
    function NutritionPerServing(): (r: Totals)
      reads this
      ensures ingredients == [] ==> r == NoTotals
      ensures ingredients != [] ==> r == PerServing(IngredientTotals(ingredients), NumServings(servings))
    {
      if ingredients == [] then NoTotals else PerServing(IngredientTotals(ingredients), NumServings(servings))
    }

    /** The `nutritionPerServing` computation: one pass over the ingredients, then the division. */
    method ComputePerServing() returns (r: Totals)
      ensures r == NutritionPerServing()
    {
      var numServings := NumServings(servings);
      if |ingredients| == 0 {
        return NoTotals;
      }
      var acc := NoTotals;
      for i := 0 to |ingredients|
        invariant acc == IngredientTotals(ingredients[..i])
      {
        assert ingredients[..i + 1][..i] == ingredients[..i];
        var item := ingredients[i];
        acc := Totals(acc.calories + item.calories, acc.protein + item.protein, acc.carbs + item.carbs, acc.fats + item.fats);
      }
      assert ingredients[..|ingredients|] == ingredients;
      r := PerServing(acc, numServings);
    }

    /** `handleAddIngredient`: append the food and close the search. */
    method AddIngredient(food: FoodSearchResult)
      modifies this
      ensures ingredients == old(ingredients) + [food] && !isSearchModalOpen
      ensures name == old(name) && servings == old(servings)
    {
      ingredients := ingredients + [food];
      isSearchModalOpen := false;
    }

    /** `handleRemoveIngredient`: drop the ingredient at one position. */
    method RemoveIngredient(indexToRemove: int)
      modifies this
      ensures ingredients == RemoveAt(old(ingredients), indexToRemove)
      ensures name == old(name) && servings == old(servings) && isSearchModalOpen == old(isSearchModalOpen)
    {
      ingredients := RemoveAt(ingredients, indexToRemove);
    }

    /** The meal a save stores (the store gives it its id). */
    function MealData(): (m: PreppedMeal)
      reads this
      ensures m.name == Trim(name) && m.servings == NumServings(servings) && m.ingredients == ingredients
      ensures m.caloriesPerServing == NutritionPerServing().calories
      ensures m.proteinPerServing == NutritionPerServing().protein
      ensures m.carbsPerServing == NutritionPerServing().carbs
      ensures m.fatsPerServing == NutritionPerServing().fats
    {
      var per := NutritionPerServing();
      PreppedMeal("", Trim(name), NumServings(servings), ingredients,
                  per.calories, per.protein, per.carbs, per.fats)
    }

    /**
     * `handleSaveMeal`: refused, with nothing changed, for a blank name or no
     * ingredients; otherwise the meal is added under `freshId` and the page becomes
     * the log-meal page.
     */
    method SaveMeal(store: Store.AppStore, freshId: string) returns (saved: bool)
      requires store.Valid()
      modifies store
      ensures saved <==> Trim(name) != [] && ingredients != []
      ensures !saved ==> store.usersData == old(store.usersData)
      ensures saved ==> store.usersData.Keys == old(store.usersData).Keys
      ensures saved ==> forall id :: id in old(store.usersData) && old(store.CurrentKey()) != Some(id) ==>
                          store.usersData[id] == old(store.usersData)[id]
      ensures saved && old(store.CurrentKey()).Some? && old(store.CurrentKey()).value in old(store.usersData) ==>
                var key := old(store.CurrentKey()).value;
                store.usersData[key] == old(store.usersData)[key].(
                  preppedMeals := old(store.usersData)[key].preppedMeals + [MealData().(id := freshId)],
                  page := LogMeal)
      ensures store.currentUserId == old(store.currentUserId) && store.Valid()
    {
      if Trim(name) == [] || |ingredients| == 0 {
        return false;
      }
      var per := ComputePerServing();
      var mealData := PreppedMeal("", Trim(name), NumServings(servings), ingredients,
                                  per.calories, per.protein, per.carbs, per.fats);
      store.HandlePreppedMealAdd(mealData, freshId);
      store.NavigateTo(LogMeal);
      saved := true;
    }
  }

  /** Multiplying a per-serving value back by the serving count gives the total. */
  lemma PerServingScalesBack(t: Totals, servings: int)
    requires servings != 0
    ensures PerServing(t, servings).calories * servings as real == t.calories
    ensures PerServing(t, servings).protein * servings as real == t.protein
    ensures PerServing(t, servings).carbs * servings as real == t.carbs
    ensures PerServing(t, servings).fats * servings as real == t.fats
  {
    var n := servings as real;
    DivideThenMultiply(t.calories, n);
    DivideThenMultiply(t.protein, n);
    DivideThenMultiply(t.carbs, n);
    DivideThenMultiply(t.fats, n);
  }

  /** Logging every serving of a saved meal logs exactly the ingredients' totals. */
  lemma AllServingsGiveTotals(meal: PreppedMeal, mealType: MealType, date: string)
    requires meal.servings != 0
    requires var per := PerServing(IngredientTotals(meal.ingredients), meal.servings);
      meal.caloriesPerServing == per.calories && meal.proteinPerServing == per.protein
      && meal.carbsPerServing == per.carbs && meal.fatsPerServing == per.fats
    ensures PreppedMealAsMeal(meal, meal.servings, mealType, date).calories == IngredientTotals(meal.ingredients).calories
    ensures PreppedMealAsMeal(meal, meal.servings, mealType, date).protein == IngredientTotals(meal.ingredients).protein
    ensures PreppedMealAsMeal(meal, meal.servings, mealType, date).carbs == IngredientTotals(meal.ingredients).carbs
    ensures PreppedMealAsMeal(meal, meal.servings, mealType, date).fats == IngredientTotals(meal.ingredients).fats
  {
    LoggedTotals(meal, IngredientTotals(meal.ingredients), mealType, date);
  }

  /** The same for any totals the per-serving values were divided from. */
  lemma LoggedTotals(meal: PreppedMeal, t: Totals, mealType: MealType, date: string)
    requires meal.servings != 0
    requires var per := PerServing(t, meal.servings);
      meal.caloriesPerServing == per.calories && meal.proteinPerServing == per.protein
      && meal.carbsPerServing == per.carbs && meal.fatsPerServing == per.fats
    ensures var logged := PreppedMealAsMeal(meal, meal.servings, mealType, date);
      logged.calories == t.calories && logged.protein == t.protein && logged.carbs == t.carbs && logged.fats == t.fats
  {
    PerServingScalesBack(t, meal.servings);
  }

  lemma DivideThenMultiply(x: real, n: real)
    requires n != 0.0
    ensures x / n * n == x
  {
  }
}
