/**
 * The day views shared by the dashboard and the diary: the meals logged on the
 * selected date tagged with their position in the whole log, the day's nutrient
 * totals, the grouping by meal type with one card per non-empty type in the fixed
 * order Breakfast, Lunch, Dinner, Snacks, and the calories burned that day.
 */
module MealViews {
  import opened Types
  import Reducers
  import opened Seqs

  /** A meal with its index in the user's whole meal log (the index detail and delete use). */
  datatype IndexedMeal = IndexedMeal(meal: Meal, originalIndex: int)

  /** `loggedMeals.map(...).filter(...)`: the meals dated `date`, in log order, with their log indices. */
  function MealsForDay(meals: seq<Meal>, date: string): (r: seq<IndexedMeal>)
    ensures forall k :: 0 <= k < |r| ==>
      0 <= r[k].originalIndex < |meals| && meals[r[k].originalIndex] == r[k].meal && r[k].meal.date == date
    ensures forall k, l :: 0 <= k < l < |r| ==> r[k].originalIndex < r[l].originalIndex
  {
    if meals == [] then []
    else
      var n := |meals| - 1;
      assert forall i :: 0 <= i < n ==> meals[..n][i] == meals[i];
      MealsForDay(meals[..n], date) + (if meals[n].date == date then [IndexedMeal(meals[n], n)] else [])
  }

  /** Every meal dated `date` is on that day's list. */
  lemma {:induction false} MealsForDayComplete(meals: seq<Meal>, date: string, i: int)
    requires 0 <= i < |meals| && meals[i].date == date
    ensures IndexedMeal(meals[i], i) in MealsForDay(meals, date)
  {
    var n := |meals| - 1;
    if i < n {
      MealsForDayComplete(meals[..n], date, i);
      assert meals[..n][i] == meals[i];
    }
  }

  /** A meal logged through the store shows up last on its date's list, under its log index. */
  lemma LoggedMealShowsLast(ud: UserData, meal: Meal, today: string, yesterday: string)
    ensures MealsForDay(Reducers.HandleLog(ud, Reducers.MealEntry(meal), today, yesterday).loggedMeals, meal.date)
         == MealsForDay(ud.loggedMeals, meal.date) + [IndexedMeal(meal, |ud.loggedMeals|)]
  {
    var meals := ud.loggedMeals + [meal];
    assert meals[..|meals| - 1] == ud.loggedMeals;
  }

  /** The four running sums of the summary card. */
  datatype Totals = Totals(calories: real, protein: real, carbs: real, fats: real) {
    function Plus(m: Meal): Totals {
      Totals(calories + m.calories, protein + m.protein, carbs + m.carbs, fats + m.fats)
    }

    function Add(other: Totals): Totals {
      Totals(calories + other.calories, protein + other.protein, carbs + other.carbs, fats + other.fats)
    }
  }

  const NoTotals := Totals(0.0, 0.0, 0.0, 0.0)

  /** The meals without their indices. */
  function Plain(ms: seq<IndexedMeal>): (r: seq<Meal>)
    ensures |r| == |ms| && forall k :: 0 <= k < |ms| ==> r[k] == ms[k].meal
  {
    seq(|ms|, k requires 0 <= k < |ms| => ms[k].meal)
  }

  /** The totals of a list of meals, accumulated from the front. */
  function SumOf(ms: seq<Meal>): Totals {
    if ms == [] then NoTotals else SumOf(ms[..|ms| - 1]).Plus(ms[|ms| - 1])
  }

  /** Totals add up over concatenation: a day's totals are the sums of any split of its meals. */
  lemma {:induction false} SumOfAppend(a: seq<Meal>, b: seq<Meal>)
    ensures SumOf(a + b) == SumOf(a).Add(SumOf(b))
  {
    if b == [] {
      assert a + b == a;
    } else {
      var n := |b| - 1;
      assert (a + b)[..|a + b| - 1] == a + b[..n];
      SumOfAppend(a, b[..n]);
    }
  }

  /** The `summary` reduce: one pass that adds each meal's four values to the accumulator. */
  method Summary(ms: seq<Meal>) returns (acc: Totals)
    ensures acc == SumOf(ms)
  {
    acc := NoTotals;
    for i := 0 to |ms|
      invariant acc == SumOf(ms[..i])
    {
      assert ms[..i + 1][..i] == ms[..i];
      acc := acc.Plus(ms[i]);
    }
    assert ms[..|ms|] == ms;
  }

  /** The test the diary's grouping applies: the meal has type `t`. */
  function OfMealType(t: MealType): IndexedMeal -> bool {
    (x: IndexedMeal) => x.meal.mealType == t
  }

  /** The meals of one type, in order. */
  function OfType(ms: seq<IndexedMeal>, t: MealType): (r: seq<IndexedMeal>)
    ensures forall x :: x in r <==> x in ms && x.meal.mealType == t
    ensures |r| <= |ms|
  {
    FilterMembers(ms, OfMealType(t));
    Filter(ms, OfMealType(t))
  }

  /**
   * Grouping by type is a filter: it distributes over concatenation and keeps a
   * single meal exactly when it has the type, so each group keeps the log order.
   */
  lemma OfTypeKeepsOrder(a: seq<IndexedMeal>, b: seq<IndexedMeal>, x: IndexedMeal, t: MealType)
    ensures OfType(a + b, t) == OfType(a, t) + OfType(b, t)
    ensures OfType([x], t) == if x.meal.mealType == t then [x] else []
  {
    FilterAppend(a, b, OfMealType(t));
    FilterOne(x, OfMealType(t));
  }

  /**
   * The `groupedMeals` reduce: push each meal onto its type's list, creating the list
   * on first use.  A type has a key exactly when some meal has that type.
   */
  method GroupByType(ms: seq<IndexedMeal>) returns (groups: map<MealType, seq<IndexedMeal>>)
    ensures GroupsOf(groups, ms)
  {
    groups := map[];
    for i := 0 to |ms|
      invariant GroupsOf(groups, ms[..i])
    {
      var m := ms[i];
      var list := if m.meal.mealType in groups then groups[m.meal.mealType] else [];
      PushKeepsGroups(groups, ms, i);
      groups := groups[m.meal.mealType := list + [m]];
    }
    assert ms[..|ms|] == ms;
  }

  /** The groups of `ms`: a type has a key exactly when some meal has that type, holding those meals in order. */
  predicate GroupsOf(groups: map<MealType, seq<IndexedMeal>>, ms: seq<IndexedMeal>) {
    && (forall t :: t in groups <==> OfType(ms, t) != [])
    && (forall t :: t in groups ==> groups[t] == OfType(ms, t))
  }

  /** Pushing the next meal onto its type's list gives the groups of the longer sequence. */
  lemma PushKeepsGroups(groups: map<MealType, seq<IndexedMeal>>, ms: seq<IndexedMeal>, i: int)
    requires 0 <= i < |ms| && GroupsOf(groups, ms[..i])
    ensures var t := ms[i].meal.mealType;
      var list := if t in groups then groups[t] else [];
      GroupsOf(groups[t := list + [ms[i]]], ms[..i + 1])
  {
    assert ms[..i + 1][..i] == ms[..i];
  }

  /** A card's calorie total: the sum of its meals' calories. */
  function GroupCalories(ms: seq<IndexedMeal>): real {
    SumOf(Plain(ms)).calories
  }

  /** Extending a day by one meal adds its calories to its own type's card only. */
  lemma CardStep(ms: seq<IndexedMeal>, t: MealType)
    requires ms != []
    ensures GroupCalories(OfType(ms, t))
         == GroupCalories(OfType(ms[..|ms| - 1], t))
            + (if ms[|ms| - 1].meal.mealType == t then ms[|ms| - 1].meal.calories else 0.0)
  {
    var n := |ms| - 1;
    var g := OfType(ms[..n], t);
    if ms[n].meal.mealType == t {
      assert Plain(g + [ms[n]]) == Plain(g) + [ms[n].meal];
      assert (Plain(g) + [ms[n].meal])[..|g|] == Plain(g);
    } else {
      assert g + [] == g;
    }
  }

  /** The four cards' calorie totals add up to the day's calories. */
  lemma {:induction false} CardsAddUpToDay(ms: seq<IndexedMeal>)
    ensures GroupCalories(OfType(ms, Breakfast)) + GroupCalories(OfType(ms, Lunch))
          + GroupCalories(OfType(ms, Dinner)) + GroupCalories(OfType(ms, Snacks))
         == SumOf(Plain(ms)).calories
  {
    if ms != [] {
      assert Plain(ms)[..|ms| - 1] == Plain(ms[..|ms| - 1]);
      CardsAddUpToDay(ms[..|ms| - 1]);
      CardStep(ms, Breakfast);
      CardStep(ms, Lunch);
      CardStep(ms, Dinner);
      CardStep(ms, Snacks);
    }
  }

  /** The cards shown for a day: one per type that has meals, in the order Breakfast, Lunch, Dinner, Snacks. */
  function VisibleGroups(ms: seq<IndexedMeal>): (r: seq<(MealType, seq<IndexedMeal>)>)
    ensures forall k :: 0 <= k < |r| ==> r[k].1 == OfType(ms, r[k].0) && r[k].1 != []
    ensures forall t :: OfType(ms, t) != [] ==> (t, OfType(ms, t)) in r
  {
    MealTypesComplete();
    CardsFor(ms, MealTypes)
  }

  lemma MealTypesComplete()
    ensures forall t: MealType :: t in MealTypes
  {
    forall t: MealType
      ensures t in MealTypes
    {
      match t
      case Breakfast => assert MealTypes[0] == t;
      case Lunch => assert MealTypes[1] == t;
      case Dinner => assert MealTypes[2] == t;
      case Snacks => assert MealTypes[3] == t;
    }
  }

  /** One card for each type of `types` that has meals, in the order of `types`. */
  function CardsFor(ms: seq<IndexedMeal>, types: seq<MealType>): (r: seq<(MealType, seq<IndexedMeal>)>)
    ensures forall k :: 0 <= k < |r| ==> r[k].0 in types && r[k].1 == OfType(ms, r[k].0) && r[k].1 != []
    ensures forall t :: t in types && OfType(ms, t) != [] ==> (t, OfType(ms, t)) in r
  {
    if types == [] then []
    else
      var g := OfType(ms, types[0]);
      (if g == [] then [] else [(types[0], g)]) + CardsFor(ms, types[1..])
  }

  /** The cards come in the order Breakfast, Lunch, Dinner, Snacks. */
  lemma CardsInOrder(ms: seq<IndexedMeal>)
    ensures RankOrdered(VisibleGroups(ms))
  {
    assert MealTypes == [Breakfast, Lunch, Dinner, Snacks];
    CardsFollowTypes(ms, MealTypes);
  }

  lemma {:induction false} CardsFollowTypes(ms: seq<IndexedMeal>, types: seq<MealType>)
    requires forall i, j :: 0 <= i < j < |types| ==> TypeRank(types[i]) < TypeRank(types[j])
    ensures RankOrdered(CardsFor(ms, types))
  {
    if types != [] {
      CardsFollowTypes(ms, types[1..]);
      var rest := CardsFor(ms, types[1..]);
      var g := OfType(ms, types[0]);
      if g != [] {
        forall k | 0 <= k < |rest|
          ensures TypeRank(types[0]) < TypeRank(rest[k].0)
        {
          var j :| 0 <= j < |types[1..]| && types[1..][j] == rest[k].0;
          assert types[j + 1] == rest[k].0;
        }
        RankedCons(types[0], g, rest);
      }
    }
  }

  predicate RankOrdered(r: seq<(MealType, seq<IndexedMeal>)>) {
    forall k, l :: 0 <= k < l < |r| ==> TypeRank(r[k].0) < TypeRank(r[l].0)
  }

  lemma {:induction false} CardsForNoMeals(types: seq<MealType>)
    ensures CardsFor([], types) == []
  {
    if types != [] {
      CardsForNoMeals(types[1..]);
    }
  }

  /** Putting a card of lower rank in front of rank-ordered cards keeps them rank-ordered. */
  lemma RankedCons(t: MealType, g: seq<IndexedMeal>, rest: seq<(MealType, seq<IndexedMeal>)>)
    requires RankOrdered(rest)
    requires forall k :: 0 <= k < |rest| ==> TypeRank(t) < TypeRank(rest[k].0)
    ensures RankOrdered([(t, g)] + rest)
  {
    var r := [(t, g)] + rest;
    forall k, l | 0 <= k < l < |r|
      ensures TypeRank(r[k].0) < TypeRank(r[l].0)
    {
      assert r[l] == rest[l - 1];
      if k > 0 {
        assert r[k] == rest[k - 1];
      }
    }
  }

  /** The position of a type among the cards. */
  function TypeRank(t: MealType): nat {
    match t
    case Breakfast => 0
    case Lunch => 1
    case Dinner => 2
    case Snacks => 3
  }

  /**
   * The dashboard tests for an empty day by the length of the meal list and the diary
   * by the number of group keys; both tests agree, and a day with meals shows a card.
   */
  lemma EmptyDayTestsAgree(ms: seq<IndexedMeal>)
    ensures (forall t :: OfType(ms, t) == []) <==> ms == []
    ensures VisibleGroups(ms) == [] <==> ms == []
  {
    var r := VisibleGroups(ms);
    if ms != [] {
      var t := ms[0].meal.mealType;
      assert ms[0] in OfType(ms, t);
      assert (t, OfType(ms, t)) in r;
    } else {
      CardsForNoMeals(MealTypes);
    }
  }

  /** `caloriesBurned`: the calories of the activities logged on `date`. */
  function BurnedOn(activities: seq<Activity>, date: string): int {
    if activities == [] then 0
    else
      var n := |activities| - 1;
      BurnedOn(activities[..n], date) + (if activities[n].date == date then activities[n].caloriesBurned else 0)
  }

  /** Logging an activity raises the burned total of its own date by its calories and no other date's. */
  lemma LoggedActivityCounts(ud: UserData, activity: Activity, today: string, yesterday: string, date: string)
    ensures BurnedOn(Reducers.HandleLog(ud, Reducers.ActivityEntry(activity), today, yesterday).loggedActivities, date)
         == BurnedOn(ud.loggedActivities, date) + (if activity.date == date then activity.caloriesBurned else 0)
  {
    var acts := ud.loggedActivities + [activity];
    assert acts[..|acts| - 1] == ud.loggedActivities;
  }

  /** Removing before the last element keeps the last element last. */
  lemma RemoveAtBeforeLast<T>(s: seq<T>, i: int)
    requires 0 <= i < |s| - 1
    ensures Reducers.RemoveAt(s, i) == Reducers.RemoveAt(s[..|s| - 1], i) + [s[|s| - 1]]
  {
    var a, b := Reducers.RemoveAt(s, i), Reducers.RemoveAt(s[..|s| - 1], i) + [s[|s| - 1]];
    assert |a| == |b|;
    forall k | 0 <= k < |a|
      ensures a[k] == b[k]
    {
    }
  }

  /** Removing an activity from the log lowers the burned total of its date by its calories. */
  lemma {:induction false} RemovedActivityUncounts(activities: seq<Activity>, i: int, date: string)
    requires 0 <= i < |activities|
    ensures BurnedOn(Reducers.RemoveAt(activities, i), date)
         == BurnedOn(activities, date) - (if activities[i].date == date then activities[i].caloriesBurned else 0)
  {
    var n := |activities| - 1;
    var r := Reducers.RemoveAt(activities, i);
    if i == n {
      assert r == activities[..n];
    } else {
      RemoveAtBeforeLast(activities, i);
      assert r[..|r| - 1] == Reducers.RemoveAt(activities[..n], i);
      RemovedActivityUncounts(activities[..n], i, date);
    }
  }
}
