/**
 * The weekly progress screen: averages over the days that have meals since a cutoff
 * date, the share of the calorie goal those averages reach, and the body-mass index
 * with its category.  The same recent-window filter and distinct-day count serve the
 * reports screen.
 */
module Progress {
  import opened Types
  import opened Numeric
  import opened DateOrder
  import opened MealViews
  import Units
  import Nutrition
  import Seqs

  function MealDate(m: Meal): string {
    m.date
  }

  function ActivityDate(a: Activity): string {
    a.date
  }

  /** The test `x.date >= cutoff`, on the order of date strings. */
  function OnOrAfter<T>(date: T -> string, cutoff: string): T -> bool {
    (x: T) => StrLe(cutoff, date(x))
  }

  /** `s.filter(x => x.date >= cutoff)`: the records dated on or after the cutoff, in order. */
  function Since<T(!new)>(s: seq<T>, date: T -> string, cutoff: string): (r: seq<T>)
    ensures forall x :: x in r <==> x in s && StrLe(cutoff, date(x))
    ensures |r| <= |s|
    ensures (forall k :: 0 <= k < |s| ==> StrLe(cutoff, date(s[k]))) ==> r == s
  {
    Seqs.FilterMembers(s, OnOrAfter(date, cutoff));
    Seqs.FilterAllKept(s, OnOrAfter(date, cutoff));
    Seqs.Filter(s, OnOrAfter(date, cutoff))
  }

  /**
   * The window is a filter: it distributes over concatenation and keeps one record
   * exactly when it is dated on or after the cutoff, so order and multiplicity stay
   * (a record logged twice counts twice in the totals).
   */
  lemma SinceKeepsOrder<T(!new)>(a: seq<T>, b: seq<T>, x: T, date: T -> string, cutoff: string)
    ensures Since(a + b, date, cutoff) == Since(a, date, cutoff) + Since(b, date, cutoff)
    ensures Since([x], date, cutoff) == if StrLe(cutoff, date(x)) then [x] else []
  {
    Seqs.FilterAppend(a, b, OnOrAfter(date, cutoff));
    Seqs.FilterOne(x, OnOrAfter(date, cutoff));
  }

  /** `new Set(s.map(x => x.date))`: the distinct dates of the records. */
  function DatesOf<T(!new)>(s: seq<T>, date: T -> string): (r: set<string>)
    ensures forall d :: d in r <==> exists x :: x in s && date(x) == d
    ensures |r| <= |s|
  {
    if s == [] then {}
    else
      var n := |s| - 1;
      assert s == s[..n] + [s[n]];
      DatesOf(s[..n], date) + {date(s[n])}
  }

  /** There are no distinct dates exactly when there are no records. */
  lemma NoDatesIffNoRecords<T(!new)>(s: seq<T>, date: T -> string)
    ensures |DatesOf(s, date)| == 0 <==> s == []
  {
    if s != [] {
      assert date(s[0]) in DatesOf(s, date);
    }
  }

  datatype Averages = Averages(calories: int, protein: int, carbs: int, fats: int)

  /** Per-day averages: all zero without days, otherwise each total over the day count, rounded. */
  function AveragesOf(t: Totals, days: nat): (r: Averages)
    ensures days == 0 ==> r == Averages(0, 0, 0, 0)
    ensures days > 0 ==>
      && -0.5 < r.calories as real - t.calories / days as real <= 0.5
      && -0.5 < r.protein as real - t.protein / days as real <= 0.5
      && -0.5 < r.carbs as real - t.carbs / days as real <= 0.5
      && -0.5 < r.fats as real - t.fats / days as real <= 0.5
  {
    if days == 0 then Averages(0, 0, 0, 0)
    else
      var d := days as real;
      Averages(Round(t.calories / d), Round(t.protein / d), Round(t.carbs / d), Round(t.fats / d))
  }

  /**
   * `weeklyAverages`: total the meals dated on or after the cutoff in one pass, then
   * divide by the number of distinct days among them (not by seven).
   */
  method WeeklyAverages(meals: seq<Meal>, cutoff: string) returns (avg: Averages)
    ensures var recent := Since(meals, MealDate, cutoff);
      avg == AveragesOf(SumOf(recent), |DatesOf(recent, MealDate)|)
  {
    var recent := Since(meals, MealDate, cutoff);
    var totals := Summary(recent);
    var daysWithMeals := |DatesOf(recent, MealDate)|;
    if daysWithMeals == 0 {
      return Averages(0, 0, 0, 0);
    }
    avg := AveragesOf(totals, daysWithMeals);
  }

  /**
   * When every meal in the window is from the same day, the averages are that day's
   * totals: the divisor is the number of days with meals, not the window's length.
   */
  lemma OneLoggedDayIsItsOwnAverage(recent: seq<Meal>)
    requires recent != [] && forall i :: 0 <= i < |recent| ==> recent[i].date == recent[0].date
    ensures var t := SumOf(recent);
      AveragesOf(t, |DatesOf(recent, MealDate)|)
        == Averages(Round(t.calories), Round(t.protein), Round(t.carbs), Round(t.fats))
  {
    SingleDate(recent, MealDate, recent[0].date);
    var t := SumOf(recent);
    assert |DatesOf(recent, MealDate)| == 1;
    assert t.calories / 1.0 == t.calories && t.protein / 1.0 == t.protein;
    assert t.carbs / 1.0 == t.carbs && t.fats / 1.0 == t.fats;
  }

  lemma {:induction false} SingleDate<T(!new)>(s: seq<T>, date: T -> string, d: string)
    requires s != [] && forall i :: 0 <= i < |s| ==> date(s[i]) == d
    ensures DatesOf(s, date) == {d}
  {
    var n := |s| - 1;
    if n > 0 {
      SingleDate(s[..n], date, d);
    }
  }

  /** `calorieGoalPercentage`: the average as a rounded percentage of a positive goal, else 0. */
  function GoalPercentage(averageCalories: int, calorieGoal: int): (r: int)
    ensures calorieGoal <= 0 ==> r == 0
    ensures calorieGoal > 0 ==> -0.5 < r as real - averageCalories as real / calorieGoal as real * 100.0 <= 0.5
  {
    if calorieGoal > 0 then Round(averageCalories as real / calorieGoal as real * 100.0) else 0
  }

  /** Meeting the goal exactly reads 100%. */
  lemma GoalMetIsHundred(calorieGoal: int)
    requires calorieGoal > 0
    ensures GoalPercentage(calorieGoal, calorieGoal) == 100
  {
    var g := calorieGoal as real;
    assert g / g * 100.0 == 100.0;
    assert Round(100.0) == 100;
  }

  /** The body-mass index from pounds and inches, before any rounding. */
  function RawBmi(weightLbs: real, heightInches: real): real
    requires heightInches != 0.0
  {
    weightLbs / (heightInches * heightInches) * 703.0
  }

  /** The progress screen's index: 0 without a weight or a height, else the raw index to one decimal. */
  function ProgressBmi(currentWeight: real, heightInches: real): (b: real)
    ensures currentWeight == 0.0 || heightInches == 0.0 ==> b == 0.0
    ensures currentWeight != 0.0 && heightInches != 0.0 ==> Units.NearestTenth(b, RawBmi(currentWeight, heightInches))
  {
    if currentWeight == 0.0 || heightInches == 0.0 then 0.0 else Units.Fixed1(RawBmi(currentWeight, heightInches))
  }

  datatype BmiCategory = Underweight | Healthy | Overweight | Obese

  function CategoryRank(c: BmiCategory): nat {
    match c
    case Underweight => 0
    case Healthy => 1
    case Overweight => 2
    case Obese => 3
  }

  /** The category bands: below 18.5, below 25, below 30, and the rest. */
  function CategoryOf(bmi: real): (c: BmiCategory)
    ensures c == Underweight <==> bmi < 18.5
    ensures c == Healthy <==> 18.5 <= bmi < 25.0
    ensures c == Overweight <==> 25.0 <= bmi < 30.0
    ensures c == Obese <==> 30.0 <= bmi
  {
    if bmi < 18.5 then Underweight
    else if bmi < 25.0 then Healthy
    else if bmi < 30.0 then Overweight
    else Obese
  }

  /** A higher index never gives a lower category. */
  lemma CategoryMonotone(b1: real, b2: real)
    requires b1 <= b2
    ensures CategoryRank(CategoryOf(b1)) <= CategoryRank(CategoryOf(b2))
  {
  }

  /** Without a recorded weight or height the progress screen reads "Underweight". */
  lemma MissingDataReadsUnderweight(currentWeight: real, heightInches: real)
    requires currentWeight == 0.0 || heightInches == 0.0
    ensures CategoryOf(ProgressBmi(currentWeight, heightInches)) == Underweight
  {
  }
}
