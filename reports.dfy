/**
 * The reports screen: the averages sent with a suggestion request (dividing by the
 * number of days with records, or by 1 when there are none), the per-day chart
 * buckets over a list of dates, the macro pie, and the index category computed
 * without a guard for a missing height.  The list of chart dates (7 or 30 days ending
 * today, oldest first) comes from the date helpers and is passed in.
 */
module Reports {
  import opened Types
  import opened MealViews
  import opened Progress

  /** `size || 1`. */
  function DaysOr1(days: nat): (d: nat)
    ensures d >= 1 && (days > 0 ==> d == days)
  {
    if days == 0 then 1 else days
  }

  function Divided(t: Totals, d: real): Totals
    requires d != 0.0
  {
    Totals(t.calories / d, t.protein / d, t.carbs / d, t.fats / d)
  }

  /** The sum of `caloriesBurned` over all the activities given. */
  function TotalBurned(activities: seq<Activity>): int {
    if activities == [] then 0
    else TotalBurned(activities[..|activities| - 1]) + activities[|activities| - 1].caloriesBurned
  }

  /**
   * The averages that go with a suggestion request: nutrition totals since the cutoff
   * over the days with meals, and calories burned over the days with activities.
   */
  method SuggestionAverages(meals: seq<Meal>, activities: seq<Activity>, cutoff: string)
    returns (avgNutrition: Totals, avgCaloriesBurned: real)
    ensures var recentMeals := Since(meals, MealDate, cutoff);
      avgNutrition == Divided(SumOf(recentMeals), DaysOr1(|DatesOf(recentMeals, MealDate)|) as real)
    ensures var recentActivities := Since(activities, ActivityDate, cutoff);
      avgCaloriesBurned == TotalBurned(recentActivities) as real / DaysOr1(|DatesOf(recentActivities, ActivityDate)|) as real
  {
    var recentMeals := Since(meals, MealDate, cutoff);
    var daysWithMeals := DaysOr1(|DatesOf(recentMeals, MealDate)|);
    var totalNutrition := Summary(recentMeals);
    avgNutrition := Divided(totalNutrition, daysWithMeals as real);
    var recentActivities := Since(activities, ActivityDate, cutoff);
    var daysWithActivity := DaysOr1(|DatesOf(recentActivities, ActivityDate)|);
    var totalCaloriesBurned := ComputeBurned(recentActivities);
    avgCaloriesBurned := totalCaloriesBurned as real / daysWithActivity as real;
  }

  /** `recentActivities.reduce((sum, act) => sum + act.caloriesBurned, 0)`. */
  method ComputeBurned(activities: seq<Activity>) returns (sum: int)
    ensures sum == TotalBurned(activities)
  {
    sum := 0;
    for i := 0 to |activities|
      invariant sum == TotalBurned(activities[..i])
    {
      assert activities[..i + 1][..i] == activities[..i];
      sum := sum + activities[i].caloriesBurned;
    }
    assert activities[..|activities|] == activities;
  }

  /** With nothing in the window the request carries zeros rather than a division by zero. */
  lemma EmptyWindowSendsZeros(meals: seq<Meal>, cutoff: string)
    requires Since(meals, MealDate, cutoff) == []
    ensures var recentMeals := Since(meals, MealDate, cutoff);
      Divided(SumOf(recentMeals), DaysOr1(|DatesOf(recentMeals, MealDate)|) as real) == NoTotals
  {
  }

  /** The nutrition chart: each date's totals over the meals dated that day. */
  function NutritionChart(meals: seq<Meal>, dates: seq<string>): (r: seq<Totals>)
    ensures |r| == |dates|
    ensures forall i :: 0 <= i < |dates| ==> r[i] == SumOf(Plain(MealsForDay(meals, dates[i])))
  {
    seq(|dates|, i requires 0 <= i < |dates| => SumOf(Plain(MealsForDay(meals, dates[i]))))
  }

  /** `chartData`'s nutrition: for each date in turn, the `reduce` over that day's meals. */
  method ComputeNutritionChart(meals: seq<Meal>, dates: seq<string>) returns (chart: seq<Totals>)
    ensures chart == NutritionChart(meals, dates)
  {
    chart := [];
    for i := 0 to |dates|
      invariant |chart| == i
      invariant forall k :: 0 <= k < i ==> chart[k] == SumOf(Plain(MealsForDay(meals, dates[k])))
    {
      var dailySummary := Summary(Plain(MealsForDay(meals, dates[i])));
      chart := chart + [dailySummary];
    }
  }

  /** The activity chart: each date's calories burned. */
  function ActivityChart(activities: seq<Activity>, dates: seq<string>): (r: seq<int>)
    ensures |r| == |dates|
    ensures forall i :: 0 <= i < |dates| ==> r[i] == BurnedOn(activities, dates[i])
  {
    seq(|dates|, i requires 0 <= i < |dates| => BurnedOn(activities, dates[i]))
  }

  function SumInts(s: seq<int>): int {
    if s == [] then 0 else SumInts(s[..|s| - 1]) + s[|s| - 1]
  }

  /** `chartData.reduce((sum, day) => sum + day.caloriesBurned, 0)`. */
  method ComputeTotalBurned(chart: seq<int>) returns (sum: int)
    ensures sum == SumInts(chart)
  {
    sum := 0;
    for i := 0 to |chart|
      invariant sum == SumInts(chart[..i])
    {
      assert chart[..i + 1][..i] == chart[..i];
      sum := sum + chart[i];
    }
    assert chart[..|chart|] == chart;
  }

  /** `totalCaloriesBurned`: the sum of the chart's bars. */
  function TotalOfChart(activities: seq<Activity>, dates: seq<string>): int {
    SumInts(ActivityChart(activities, dates))
  }

  /** The calories burned by the activities dated on one of `dates`. */
  function BurnedWithin(activities: seq<Activity>, dates: seq<string>): int {
    if activities == [] then 0
    else
      var n := |activities| - 1;
      BurnedWithin(activities[..n], dates) + (if activities[n].date in dates then activities[n].caloriesBurned else 0)
  }

  /**
   * Over distinct chart dates, the total under the chart is exactly the calories burned
   * by the activities dated inside the chart: every such activity is counted once and
   * no other is counted.
   */
  lemma {:induction false} ChartTotalIsWindowTotal(activities: seq<Activity>, dates: seq<string>)
    requires forall i, j :: 0 <= i < j < |dates| ==> dates[i] != dates[j]
    ensures TotalOfChart(activities, dates) == BurnedWithin(activities, dates)
  {
    if dates == [] {
      NothingWithinNoDates(activities);
    } else {
      var n := |dates| - 1;
      ChartTotalIsWindowTotal(activities, dates[..n]);
      assert ActivityChart(activities, dates)[..n] == ActivityChart(activities, dates[..n]);
      assert dates[n] !in dates[..n];
      WithinOneMoreDate(activities, dates[..n], dates[n]);
      assert dates[..n] + [dates[n]] == dates;
    }
  }

  lemma {:induction false} NothingWithinNoDates(activities: seq<Activity>)
    ensures BurnedWithin(activities, []) == 0
  {
    if activities != [] {
      NothingWithinNoDates(activities[..|activities| - 1]);
    }
  }

  /** Adding a new date to the window adds exactly that date's calories. */
  lemma {:induction false} WithinOneMoreDate(activities: seq<Activity>, dates: seq<string>, d: string)
    requires d !in dates
    ensures BurnedWithin(activities, dates + [d]) == BurnedWithin(activities, dates) + BurnedOn(activities, d)
  {
    if activities != [] {
      var n := |activities| - 1;
      WithinOneMoreDate(activities[..n], dates, d);
      var a := activities[n];
      assert a.date in dates + [d] <==> a.date in dates || a.date == d;
    }
  }

  /** The macro totals shown in the pie, summed over the chart's days. */
  function ChartMacros(chart: seq<Totals>): Totals {
    if chart == [] then NoTotals else ChartMacros(chart[..|chart| - 1]).Add(chart[|chart| - 1])
  }

  /** `totalMacros`: the `reduce` that adds up the chart's days. */
  method ComputeChartMacros(chart: seq<Totals>) returns (acc: Totals)
    ensures acc == ChartMacros(chart)
  {
    acc := NoTotals;
    for i := 0 to |chart|
      invariant acc == ChartMacros(chart[..i])
    {
      assert chart[..i + 1][..i] == chart[..i];
      acc := acc.Add(chart[i]);
    }
    assert chart[..|chart|] == chart;
  }

  datatype Slice = Slice(name: string, value: real)

  /** The pie for a chart: the macro totals of its days, positive slices only. */
  function NutritionPie(meals: seq<Meal>, dates: seq<string>): seq<Slice> {
    MacroPie(ChartMacros(NutritionChart(meals, dates)))
  }

  /** The slices of the pie in their fixed order: Protein, Carbs, Fats. */
  function MacroRank(name: string): nat {
    if name == "Protein" then 0 else if name == "Carbs" then 1 else if name == "Fats" then 2 else 3
  }

  /**
   * The pie keeps the Protein, Carbs and Fats slices whose totals are positive, in that
   * order, and nothing else: no other slice, and none twice.
   */
  function MacroPie(total: Totals): (r: seq<Slice>)
    ensures forall k :: 0 <= k < |r| ==> r[k].value > 0.0
    ensures |r| <= 3
    ensures forall x :: x in r ==> x in [Slice("Protein", total.protein), Slice("Carbs", total.carbs), Slice("Fats", total.fats)]
    ensures forall i, j :: 0 <= i < j < |r| ==> MacroRank(r[i].name) < MacroRank(r[j].name)
    ensures Slice("Protein", total.protein) in r <==> total.protein > 0.0
    ensures Slice("Carbs", total.carbs) in r <==> total.carbs > 0.0
    ensures Slice("Fats", total.fats) in r <==> total.fats > 0.0
    ensures r != [] && total.protein > 0.0 ==> r[0].name == "Protein"
    ensures r != [] && total.fats > 0.0 ==> r[|r| - 1].name == "Fats"
  {
    var all := [Slice("Protein", total.protein), Slice("Carbs", total.carbs), Slice("Fats", total.fats)];
    (if all[0].value > 0.0 then [all[0]] else [])
      + (if all[1].value > 0.0 then [all[1]] else [])
      + (if all[2].value > 0.0 then [all[2]] else [])
  }

  /**
   * The reports screen's category: the raw index with no guard.  Without a height the
   * division gives +Infinity for a positive weight and NaN for a zero weight, both of
   * which fail every comparison and land in the last band; -Infinity lands in the first.
   */
  function ReportsCategory(currentWeight: real, heightInches: real): (c: BmiCategory)
    ensures heightInches != 0.0 ==> c == CategoryOf(RawBmi(currentWeight, heightInches))
    ensures heightInches == 0.0 ==> (c == Underweight <==> currentWeight < 0.0)
    ensures heightInches == 0.0 ==> (c == Obese <==> currentWeight >= 0.0)
  {
    if heightInches != 0.0 then CategoryOf(RawBmi(currentWeight, heightInches))
    else if currentWeight < 0.0 then Underweight
    else Obese
  }

  /** The two screens disagree for a user with a weight but no height: one says Underweight, the other Obese. */
  lemma ScreensDisagreeWithoutHeight(currentWeight: real)
    requires currentWeight > 0.0
    ensures CategoryOf(ProgressBmi(currentWeight, 0.0)) == Underweight
    ensures ReportsCategory(currentWeight, 0.0) == Obese
  {
  }

  /** They also disagree just below 18.5, where the progress screen rounds to one decimal first. */
  lemma ScreensDisagreeNearBoundary()
    ensures ReportsCategory(1846.0 / 703.0, 10.0) == Underweight
    ensures CategoryOf(ProgressBmi(1846.0 / 703.0, 10.0)) == Healthy
  {
    assert RawBmi(1846.0 / 703.0, 10.0) == 18.46;
  }
}
