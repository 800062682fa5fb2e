/**
 * The log-meal screen: the meal type offered by default for the hour of day, the
 * food list for a category, the favourite mark, the search gate, and the two ways
 * of logging (a food, or one serving of a prepped meal).  The list of popular foods
 * is data the screen imports and is a parameter here; the search itself calls an
 * external service and only its gate and result handling are modelled.
 */
module LogMeal {
  import opened Wrappers
  import opened Types
  import opened Numeric
  import Reducers
  import Store
  import Prep = MealPrep
  import Seqs

  /** `getDefaultMealType`: breakfast from 5, lunch from 11, dinner from 16 until 22, snacks otherwise. */
  function DefaultMealType(hour: int): (t: MealType)
    ensures t == Breakfast <==> 5 <= hour < 11
    ensures t == Lunch <==> 11 <= hour < 16
    ensures t == Dinner <==> 16 <= hour < 22
    ensures t == Snacks <==> hour < 5 || hour >= 22
  {
    if 5 <= hour < 11 then Breakfast
    else if 11 <= hour < 16 then Lunch
    else if 16 <= hour < 22 then Dinner
    else Snacks
  }

  /** The test `food.category === activeCategory`. */
  function OfCategory(c: FoodCategory): FoodSearchResult -> bool {
    (f: FoodSearchResult) => f.category == Some(c)
  }

  /** The popular foods of one category, in their own order. */
  function InCategory(foods: seq<FoodSearchResult>, c: FoodCategory): (r: seq<FoodSearchResult>)
    ensures |r| <= |foods|
    ensures forall f :: f in r <==> f in foods && f.category == Some(c)
  {
    Seqs.FilterMembers(foods, OfCategory(c));
    Seqs.Filter(foods, OfCategory(c))
  }

  /**
   * The category list is a filter: it distributes over concatenation and keeps one
   * food exactly when it is of the category, so the popular list's order stays.
   */
  lemma InCategoryKeepsOrder(a: seq<FoodSearchResult>, b: seq<FoodSearchResult>, f: FoodSearchResult, c: FoodCategory)
    ensures InCategory(a + b, c) == InCategory(a, c) + InCategory(b, c)
    ensures InCategory([f], c) == if f.category == Some(c) then [f] else []
  {
    Seqs.FilterAppend(a, b, OfCategory(c));
    Seqs.FilterOne(f, OfCategory(c));
  }

  /** `foodList`: every popular food for "All", none for "Meal Prep", else the foods of the category. */
  function FoodList(popularFoods: seq<FoodSearchResult>, activeCategory: FoodCategory): (r: seq<FoodSearchResult>)
    ensures activeCategory == AllFoods ==> r == popularFoods
    ensures activeCategory == MealPrep ==> r == []
    ensures activeCategory != AllFoods && activeCategory != MealPrep ==>
      forall f :: f in r <==> f in popularFoods && f.category == Some(activeCategory)
    ensures activeCategory != AllFoods && activeCategory != MealPrep ==> r == InCategory(popularFoods, activeCategory)
  {
    if activeCategory == AllFoods then popularFoods
    else if activeCategory == MealPrep then []
    else InCategory(popularFoods, activeCategory)
  }

  /** `isFavorited`: some favourite has the same name, ignoring letter case. */
  predicate IsFavorited(favorites: seq<FoodSearchResult>, food: FoodSearchResult) {
    Reducers.IsFavorite(favorites, food.name)
  }

  /** The star a tap on it toggles: after the toggle the mark is the opposite of before. */
  lemma ToggleFlipsStar(favorites: seq<FoodSearchResult>, food: FoodSearchResult)
    ensures IsFavorited(Reducers.ToggleFavorite(favorites, food), food) == !IsFavorited(favorites, food)
  {
    if !IsFavorited(favorites, food) {
      var r := Reducers.ToggleFavorite(favorites, food);
      assert Reducers.SameName(r[|r| - 1], food.name);
    }
  }

  /** A name's upper and lower case forms are the same food as far as the star is concerned. */
  lemma StarIgnoresCase(favorites: seq<FoodSearchResult>, food: FoodSearchResult, other: FoodSearchResult)
    requires SameIgnoringCase(food.name, other.name)
    ensures IsFavorited(favorites, food) <==> IsFavorited(favorites, other)
  {
    if IsFavorited(favorites, food) {
      var i :| 0 <= i < |favorites| && Reducers.SameName(favorites[i], food.name);
      assert Reducers.SameName(favorites[i], other.name);
    }
    if IsFavorited(favorites, other) {
      var i :| 0 <= i < |favorites| && Reducers.SameName(favorites[i], other.name);
      assert Reducers.SameName(favorites[i], food.name);
    }
  }

  /** The search gate: three UTF-16 code units once trimmed and lower-cased. */
  const MinQueryLength: nat := 3

  /**
   * The gate as the screen writes it, on the trimmed and lower-cased query; lower-casing
   * does not move a query across it.
   */
  method TooShort(query: string) returns (tooShort: bool)
    ensures tooShort <==> !Prep.QueryLongEnough(query, MinQueryLength)
  {
    var q := Lower(Trim(query));
    LowerKeepsUtf16Length(Trim(query));
    tooShort := Utf16Length(q) < MinQueryLength;
  }

  /** `handleLogFood`'s meal: the food's fields, the chosen type and the date. */
  function FoodAsMeal(food: FoodSearchResult, mealType: MealType, date: string): (m: Meal)
    ensures m.name == food.name && m.description == food.description
    ensures m.calories == food.calories && m.protein == food.protein && m.carbs == food.carbs && m.fats == food.fats
    ensures m.fiber.None? && m.sugar.None? && m.sodium.None?
    ensures m.mealType == mealType && m.date == date
  {
    Meal(food.name, food.description, food.calories, food.protein, food.carbs, food.fats,
         None, None, None, mealType, date)
  }

  class LogMealForm {
    var searchQuery: string
    var searchResults: seq<FoodSearchResult>
    var isSearching: bool
    var hasSearched: bool
    var selectedMealType: MealType
    var activeCategory: FoodCategory

    /** The screen opens on "All" with the meal type for the hour it is opened at. */
    constructor (hour: int)
      ensures searchQuery == "" && searchResults == [] && !isSearching && !hasSearched
      ensures selectedMealType == DefaultMealType(hour) && activeCategory == AllFoods
    {
      searchQuery := "";
      searchResults := [];
      isSearching := false;
      hasSearched := false;
      selectedMealType := DefaultMealType(hour);
      activeCategory := AllFoods;
    }

    method SelectMealType(t: MealType)
      modifies this
      ensures selectedMealType == t && activeCategory == old(activeCategory)
      ensures searchQuery == old(searchQuery) && searchResults == old(searchResults)
      ensures isSearching == old(isSearching) && hasSearched == old(hasSearched)
    {
      selectedMealType := t;
    }

    method SelectCategory(c: FoodCategory)
      modifies this
      ensures activeCategory == c && selectedMealType == old(selectedMealType)
      ensures searchQuery == old(searchQuery) && searchResults == old(searchResults)
      ensures isSearching == old(isSearching) && hasSearched == old(hasSearched)
    {
      activeCategory := c;
    }

    /**
     * The effect on a new query: a query shorter than three code units once trimmed clears
     * the results and starts nothing; a longer one starts a search (`started`).
     */
    method QueryChanged(query: string) returns (started: bool)
      modifies this
      ensures searchQuery == query
      ensures started <==> Prep.QueryLongEnough(query, MinQueryLength)
      ensures !started ==> searchResults == [] && !hasSearched && isSearching == old(isSearching)
      ensures started ==> searchResults == old(searchResults) && hasSearched && isSearching
      ensures selectedMealType == old(selectedMealType) && activeCategory == old(activeCategory)
    {
      var tooShort := TooShort(query);
      started := !tooShort;
      searchQuery := query;
      if tooShort {
        searchResults := [];
        hasSearched := false;
      } else {
        isSearching := true;
        hasSearched := true;
      }
    }

    /** The search answered: its results, or none when it failed (`None`). */
    method SearchFinished(results: Option<seq<FoodSearchResult>>)
      modifies this
      ensures searchResults == (if results.Some? then results.value else []) && !isSearching
      ensures searchQuery == old(searchQuery) && hasSearched == old(hasSearched)
      ensures selectedMealType == old(selectedMealType) && activeCategory == old(activeCategory)
    {
      searchResults := if results.Some? then results.value else [];
      isSearching := false;
    }

    /** `handleLogFood`: the food goes to the head of the recents, then is logged as a meal of today. */
    method LogFood(store: Store.AppStore, food: FoodSearchResult, today: string, yesterday: string)
      requires store.Valid()
      modifies store
      ensures var key := old(store.CurrentKey());
        var meal := FoodAsMeal(food, selectedMealType, today);
        var withRecent := Store.UpdatedUsers(old(store.usersData), key,
          (ud: UserData) => ud.(recentFoods := Reducers.AddToRecents(ud.recentFoods, food)));
        store.usersData == Store.UpdatedUsers(withRecent, key,
          (ud: UserData) => Reducers.HandleLog(ud, Reducers.MealEntry(meal), today, yesterday))
      ensures store.currentUserId == old(store.currentUserId) && store.Valid()
    {
      store.AddFoodToRecents(food);
      store.HandleMealLogged(FoodAsMeal(food, selectedMealType, today), today, yesterday);
    }

    /** `handleLogPreppedMeal`: exactly one serving, of the chosen type, dated today. */
    method LogPreppedMeal(store: Store.AppStore, meal: PreppedMeal, today: string, yesterday: string)
      requires store.Valid()
      modifies store
      ensures var logged := Reducers.PreppedMealAsMeal(meal, 1, selectedMealType, today);
        store.usersData == Store.UpdatedUsers(old(store.usersData), old(store.CurrentKey()),
          (ud: UserData) => Reducers.HandleLog(ud, Reducers.MealEntry(logged), today, yesterday))
      ensures store.currentUserId == old(store.currentUserId) && store.Valid()
    {
      store.HandlePreppedMealLogged(meal, 1, selectedMealType, today, today, yesterday);
    }
  }

  /** One serving of a prepped meal carries exactly its per-serving values. */
  lemma OneServingIsPerServing(meal: PreppedMeal, mealType: MealType, date: string)
    ensures var m := Reducers.PreppedMealAsMeal(meal, 1, mealType, date);
      m.calories == meal.caloriesPerServing && m.protein == meal.proteinPerServing
      && m.carbs == meal.carbsPerServing && m.fats == meal.fatsPerServing
      && m.name[|m.name| - 2..] != "s)"
  {
    Reducers.PreppedMealName(meal, 1, mealType, date);
  }
}
