/**
 * The per-user updates of the store, each a pure function from the old value of a
 * field (or of the whole `UserData`) to the new one.  The store class applies them to
 * the current user's entry.
 */
module Reducers {
  import opened Wrappers
  import opened Types
  import opened Numeric
  import opened DateOrder
  import Nutrition
  import opened Seqs

  // ---------------------------------------------------------------- logging and the day streak

  datatype LogEntry = MealEntry(meal: Meal) | ActivityEntry(activity: Activity)
  {
    function Date(): string {
      match this
      case MealEntry(m) => m.date
      case ActivityEntry(a) => a.date
    }
  }

  /** Some meal or some activity of `ud` is dated `date`. */
  predicate LoggedOn(ud: UserData, date: string) {
    (exists i :: 0 <= i < |ud.loggedMeals| && ud.loggedMeals[i].date == date)
    || (exists j :: 0 <= j < |ud.loggedActivities| && ud.loggedActivities[j].date == date)
  }

  /** The dates of all meals followed by the dates of all activities. */
  function AllLogDates(ud: UserData): (r: seq<string>)
    ensures forall d :: d in r <==> LoggedOn(ud, d)
  {
    var mealDates := seq(|ud.loggedMeals|, i requires 0 <= i < |ud.loggedMeals| => ud.loggedMeals[i].date);
    var activityDates := seq(|ud.loggedActivities|, j requires 0 <= j < |ud.loggedActivities| => ud.loggedActivities[j].date);
    AllLogDatesMembers(ud, mealDates, activityDates);
    mealDates + activityDates
  }

  lemma AllLogDatesMembers(ud: UserData, mealDates: seq<string>, activityDates: seq<string>)
    requires |mealDates| == |ud.loggedMeals| && forall i :: 0 <= i < |mealDates| ==> mealDates[i] == ud.loggedMeals[i].date
    requires |activityDates| == |ud.loggedActivities|
    requires forall j :: 0 <= j < |activityDates| ==> activityDates[j] == ud.loggedActivities[j].date
    ensures forall d :: d in mealDates + activityDates <==> LoggedOn(ud, d)
  {
    var r := mealDates + activityDates;
    forall d | LoggedOn(ud, d)
      ensures d in r
    {
      if i :| 0 <= i < |ud.loggedMeals| && ud.loggedMeals[i].date == d {
        assert r[i] == d;
      } else {
        var j :| 0 <= j < |ud.loggedActivities| && ud.loggedActivities[j].date == d;
        assert r[|mealDates| + j] == d;
      }
    }
    forall d | d in r
      ensures LoggedOn(ud, d)
    {
      var k :| 0 <= k < |r| && r[k] == d;
      if k < |mealDates| {
        assert ud.loggedMeals[k].date == d;
      } else {
        assert ud.loggedActivities[k - |mealDates|].date == d;
      }
    }
  }

  /**
   * `handleLog`: append the record to its own collection and return to the dashboard.
   * The streak moves only on the first record dated today: it grows by one when
   * something is dated yesterday (`dayStreak || 0` is the stored integer itself) and
   * restarts at 1 otherwise.
   */
  function HandleLog(ud: UserData, entry: LogEntry, today: string, yesterday: string): (r: UserData)
    ensures entry.MealEntry? ==> r.loggedMeals == ud.loggedMeals + [entry.meal] && r.loggedActivities == ud.loggedActivities
    ensures entry.ActivityEntry? ==> r.loggedActivities == ud.loggedActivities + [entry.activity] && r.loggedMeals == ud.loggedMeals
    ensures r.page == Dashboard
    ensures r.dayStreak != ud.dayStreak ==> entry.Date() == today && !LoggedOn(ud, today)
    ensures entry.Date() == today && !LoggedOn(ud, today) && LoggedOn(ud, yesterday) ==> r.dayStreak == ud.dayStreak + 1
    ensures entry.Date() == today && !LoggedOn(ud, today) && !LoggedOn(ud, yesterday) ==> r.dayStreak == 1
    ensures r == ud.(loggedMeals := r.loggedMeals, loggedActivities := r.loggedActivities,
                     dayStreak := r.dayStreak, page := Dashboard)
  {
    var allLogs := AllLogDates(ud);
    var newStreak :=
      if entry.Date() == today && today !in allLogs then
        (if yesterday in allLogs then ud.dayStreak + 1 else 1)
      else ud.dayStreak;
    var meals := if entry.MealEntry? then ud.loggedMeals + [entry.meal] else ud.loggedMeals;
    var activities := if entry.ActivityEntry? then ud.loggedActivities + [entry.activity] else ud.loggedActivities;
    ud.(loggedMeals := meals, loggedActivities := activities, dayStreak := newStreak, page := Dashboard)
  }

  /** After anything is logged for today, further logs that day leave the streak alone. */
  lemma StreakOncePerDay(ud: UserData, first: LogEntry, second: LogEntry, today: string, yesterday: string)
    requires first.Date() == today
    ensures var once := HandleLog(ud, first, today, yesterday);
      LoggedOn(once, today) && HandleLog(once, second, today, yesterday).dayStreak == once.dayStreak
  {
    var once := HandleLog(ud, first, today, yesterday);
    match first
    case MealEntry(m) =>
      assert once.loggedMeals[|ud.loggedMeals|] == m;
    case ActivityEntry(a) =>
      assert once.loggedActivities[|ud.loggedActivities|] == a;
  }

  /** Logging on consecutive days counts up: a first log today after one yesterday adds one. */
  lemma StreakGrowsDayAfterDay(ud: UserData, yesterdayLog: LogEntry, todayLog: LogEntry,
                               dayBefore: string, yesterday: string, today: string)
    requires yesterdayLog.Date() == yesterday && todayLog.Date() == today && today != yesterday
    requires !LoggedOn(ud, today)
    ensures var day1 := HandleLog(ud, yesterdayLog, yesterday, dayBefore);
      HandleLog(day1, todayLog, today, yesterday).dayStreak == day1.dayStreak + 1
  {
    var day1 := HandleLog(ud, yesterdayLog, yesterday, dayBefore);
    match yesterdayLog
    case MealEntry(m) =>
      assert day1.loggedMeals[|ud.loggedMeals|] == m;
      assert forall i :: 0 <= i < |ud.loggedMeals| ==> day1.loggedMeals[i] == ud.loggedMeals[i];
    case ActivityEntry(a) =>
      assert day1.loggedActivities[|ud.loggedActivities|] == a;
      assert forall j :: 0 <= j < |ud.loggedActivities| ==> day1.loggedActivities[j] == ud.loggedActivities[j];
  }

  // ---------------------------------------------------------------- removal by position

  /** `s.filter((_, index) => index !== i)` where the first element of `s` has index `offset`. */
  function FilterOutIndex<T>(s: seq<T>, i: int, offset: int): (r: seq<T>)
    ensures offset <= i < offset + |s| ==> r == s[..i - offset] + s[i - offset + 1..]
    ensures !(offset <= i < offset + |s|) ==> r == s
  {
    if s == [] then []
    else
      var rest := FilterOutIndex(s[1..], i, offset + 1);
      if offset == i then rest else [s[0]] + rest
  }

  /** Remove the element at position `i`; an index outside the list removes nothing. */
  function RemoveAt<T>(s: seq<T>, i: int): (r: seq<T>)
    ensures 0 <= i < |s| ==> |r| == |s| - 1
    ensures 0 <= i < |s| ==> forall k :: 0 <= k < i ==> r[k] == s[k]
    ensures 0 <= i < |s| ==> forall k :: i <= k < |r| ==> r[k] == s[k + 1]
    ensures !(0 <= i < |s|) ==> r == s
  {
    FilterOutIndex(s, i, 0)
  }

  // ---------------------------------------------------------------- weight history

  function WeightDate(e: WeightEntry): string {
    e.date
  }

  /** `findIndex(e => e.date === date)`: the first position dated `date`, or -1. */
  function FindDate(h: seq<WeightEntry>, date: string): (r: int)
    ensures -1 <= r < |h|
    ensures r >= 0 ==> h[r].date == date && forall k :: 0 <= k < r ==> h[k].date != date
    ensures r == -1 ==> forall k :: 0 <= k < |h| ==> h[k].date != date
  {
    if h == [] then -1
    else if h[0].date == date then 0
    else
      var k := FindDate(h[1..], date);
      if k == -1 then -1 else k + 1
  }

  /** The history after the first entry dated `today` is overwritten, or a new one appended, then sorted by date. */
  function UpsertedHistory(h: seq<WeightEntry>, today: string, weight: real): seq<WeightEntry> {
    SortBy(Written(h, today, weight), WeightDate, false)
  }

  /** The history before the sort: today's entry overwritten in place, or appended. */
  function Written(h: seq<WeightEntry>, today: string, weight: real): seq<WeightEntry> {
    var i := FindDate(h, today);
    if i > -1 then h[i := WeightEntry(today, weight)] else h + [WeightEntry(today, weight)]
  }

  /**
   * `handleWeightUpdate`'s history step, on a copy of the array: find today's entry,
   * overwrite it or push a new one, then sort oldest first.
   */
  method UpsertWeight(history: seq<WeightEntry>, today: string, weight: real) returns (newHistory: seq<WeightEntry>)
    ensures newHistory == UpsertedHistory(history, today, weight)
  {
    var i := 0;
    var todayEntryIndex := -1;
    while i < |history| && todayEntryIndex == -1
      invariant 0 <= i <= |history|
      invariant todayEntryIndex == -1 ==> forall k :: 0 <= k < i ==> history[k].date != today
      invariant todayEntryIndex != -1 ==> todayEntryIndex == i - 1 && history[i - 1].date == today
      invariant todayEntryIndex != -1 ==> forall k :: 0 <= k < i - 1 ==> history[k].date != today
    {
      if history[i].date == today {
        todayEntryIndex := i;
      }
      i := i + 1;
    }
    assert todayEntryIndex == FindDate(history, today);
    newHistory := history;
    if todayEntryIndex > -1 {
      newHistory := newHistory[todayEntryIndex := WeightEntry(today, weight)];
    } else {
      newHistory := newHistory + [WeightEntry(today, weight)];
    }
    assert newHistory == Written(history, today, weight);
    newHistory := SortBy(newHistory, WeightDate, false);
  }

  /**
   * After the update the history is sorted oldest first and holds today's new entry;
   * entries of other dates keep their multiplicity, and the history grows by one
   * exactly when nothing was dated today.
   */
  lemma UpsertedHistoryProperties(h: seq<WeightEntry>, today: string, weight: real)
    ensures var r := UpsertedHistory(h, today, weight);
      && SortedBy(r, WeightDate, false)
      && WeightEntry(today, weight) in r
      && (forall e: WeightEntry :: e.date != today ==> multiset(r)[e] == multiset(h)[e])
      && ((exists k :: 0 <= k < |h| && h[k].date == today) ==> |r| == |h|)
      && ((forall k :: 0 <= k < |h| ==> h[k].date != today) ==> |r| == |h| + 1)
  {
    var written := Written(h, today, weight);
    SortBySorted(written, WeightDate, false);
    WrittenProperties(h, today, weight);
    assert WeightEntry(today, weight) in multiset(UpsertedHistory(h, today, weight));
  }

  lemma WrittenProperties(h: seq<WeightEntry>, today: string, weight: real)
    ensures var w := Written(h, today, weight);
      && WeightEntry(today, weight) in multiset(w)
      && (forall e: WeightEntry :: e.date != today ==> multiset(w)[e] == multiset(h)[e])
      && ((exists k :: 0 <= k < |h| && h[k].date == today) ==> |w| == |h|)
      && ((forall k :: 0 <= k < |h| ==> h[k].date != today) ==> |w| == |h| + 1)
  {
    var i := FindDate(h, today);
    var e := WeightEntry(today, weight);
    var w := Written(h, today, weight);
    if i > -1 {
      assert w[i] == e;
      assert multiset(w) == multiset(h) - multiset{h[i]} + multiset{e};
    } else {
      assert w[|h|] == e;
    }
  }

  /** With at most one entry per date before the update, there is at most one after it. */
  lemma UpsertKeepsOneEntryPerDate(h: seq<WeightEntry>, today: string, weight: real)
    requires DistinctKeys(h, WeightDate)
    ensures DistinctKeys(UpsertedHistory(h, today, weight), WeightDate)
  {
    var i := FindDate(h, today);
    var written := Written(h, today, weight);
    if i > -1 {
      OverwriteKeepsDistinct(h, i, WeightEntry(today, weight));
    } else {
      AppendKeepsDistinct(h, WeightEntry(today, weight));
    }
    PermutationKeepsDistinctKeys(written, SortBy(written, WeightDate, false), WeightDate);
  }

  lemma OverwriteKeepsDistinct(h: seq<WeightEntry>, i: int, e: WeightEntry)
    requires 0 <= i < |h| && h[i].date == e.date && DistinctKeys(h, WeightDate)
    ensures DistinctKeys(h[i := e], WeightDate)
  {
    assert forall k :: 0 <= k < |h| ==> WeightDate(h[i := e][k]) == WeightDate(h[k]);
  }

  lemma AppendKeepsDistinct(h: seq<WeightEntry>, e: WeightEntry)
    requires DistinctKeys(h, WeightDate) && forall k :: 0 <= k < |h| ==> h[k].date != e.date
    ensures DistinctKeys(h + [e], WeightDate)
  {
    assert forall k :: 0 <= k < |h| ==> (h + [e])[k] == h[k];
  }

  /** The weight shown as current: the last history entry, or `fallback` when there is none or it is 0. */
  function LastWeightOr(h: seq<WeightEntry>, fallback: real): (r: real)
    ensures h == [] ==> r == fallback
    ensures h != [] && h[|h| - 1].weight != 0.0 ==> r == h[|h| - 1].weight
    ensures h != [] && h[|h| - 1].weight == 0.0 ==> r == fallback
  {
    if h != [] && h[|h| - 1].weight != 0.0 then h[|h| - 1].weight else fallback
  }

  // ---------------------------------------------------------------- profile

  /** `handleProfileUpdate`: new profile, goals recomputed at the current weight (150 lb when unknown), back to settings. */
  function UpdateProfile(ud: UserData, newProfile: UserProfile): (r: UserData)
    ensures r.macroGoals == Nutrition.CalculateGoals(newProfile, LastWeightOr(ud.weightHistory, 150.0))
    ensures r == ud.(profile := newProfile, macroGoals := r.macroGoals, page := Settings)
  {
    var weight := LastWeightOr(ud.weightHistory, 150.0);
    ud.(profile := newProfile, macroGoals := Nutrition.CalculateGoals(newProfile, weight), page := Settings)
  }

  // ---------------------------------------------------------------- per-date tables

  /** The value stored under `date`, if any. */
  function Lookup(t: DateTable, date: string): Option<real> {
    if t == [] then None else if t[0].0 == date then Some(t[0].1) else Lookup(t[1..], date)
  }

  predicate DistinctDates(t: DateTable) {
    forall i, j :: 0 <= i < j < |t| ==> t[i].0 != t[j].0
  }

  /** `{ ...t, [date]: value }`: overwrite in place when the date is present, append otherwise. */
  function SetDate(t: DateTable, date: string, value: real): (r: DateTable)
    ensures Lookup(r, date) == Some(value)
    ensures forall d :: d != date ==> Lookup(r, d) == Lookup(t, d)
    ensures Lookup(t, date).Some? ==> |r| == |t|
    ensures Lookup(t, date).None? ==> r == t + [(date, value)]
    ensures forall k :: 0 <= k < |t| ==> r[k].0 == t[k].0
    ensures DistinctDates(t) ==> DistinctDates(r)
  {
    if t == [] then [(date, value)]
    else if t[0].0 == date then [(date, value)] + t[1..]
    else
      var rest := SetDate(t[1..], date, value);
      ConsKeepsDistinct(t, date, value, rest);
      [t[0]] + rest
  }

  /** Putting back a first entry whose date differs from `date` keeps the dates distinct. */
  lemma ConsKeepsDistinct(t: DateTable, date: string, value: real, rest: DateTable)
    requires t != [] && t[0].0 != date
    requires |rest| >= |t| - 1 && forall k :: 0 <= k < |t| - 1 ==> rest[k].0 == t[k + 1].0
    requires |rest| == |t| - 1 || rest == t[1..] + [(date, value)]
    requires DistinctDates(t[1..]) ==> DistinctDates(rest)
    ensures DistinctDates(t) ==> DistinctDates([t[0]] + rest)
  {
    if DistinctDates(t) {
      assert DistinctDates(t[1..]);
      forall k | 0 <= k < |rest|
        ensures rest[k].0 != t[0].0
      {
        if k < |t| - 1 {
          assert rest[k].0 == t[k + 1].0;
        }
      }
    }
  }

  /** `history[date] || 0`: the amount stored for `date`, 0 when there is none. */
  function AmountOn(t: DateTable, date: string): real {
    match Lookup(t, date)
    case Some(v) => v
    case None => 0.0
  }

  /** Adding water sets the day's amount to what it was (0 if absent) plus the amount added. */
  /** `(history[date] || 0) + amount`: the day's amount once `amount` is added. */
  function IntakePlus(t: DateTable, date: string, amount: real): real {
    AmountOn(t, date) + amount
  }

  lemma AddWaterOnlyThatDay(t: DateTable, date: string, amount: real)
    ensures AmountOn(SetDate(t, date, IntakePlus(t, date, amount)), date) == AmountOn(t, date) + amount
    ensures forall d :: d != date ==> AmountOn(SetDate(t, date, IntakePlus(t, date, amount)), d) == AmountOn(t, d)
  {
  }

  // ---------------------------------------------------------------- favourites and recents

  predicate SameName(f: FoodSearchResult, name: string) {
    SameIgnoringCase(f.name, name)
  }

  /** Some favourite carries `name`, ignoring letter case. */
  predicate IsFavorite(favorites: seq<FoodSearchResult>, name: string) {
    exists i :: 0 <= i < |favorites| && SameName(favorites[i], name)
  }

  /** The test `favorites.filter` applies: the name differs ignoring case. */
  function NotNamedLike(name: string): FoodSearchResult -> bool {
    (f: FoodSearchResult) => !SameName(f, name)
  }

  /** The favourites whose name differs from `name` ignoring case, in order. */
  function WithoutNameIgnoringCase(favorites: seq<FoodSearchResult>, name: string): (r: seq<FoodSearchResult>)
    ensures forall f :: f in r <==> f in favorites && !SameName(f, name)
    ensures |r| <= |favorites|
    ensures !IsFavorite(favorites, name) ==> r == favorites
  {
    FilterMembers(favorites, NotNamedLike(name));
    FilterAllKept(favorites, NotNamedLike(name));
    Filter(favorites, NotNamedLike(name))
  }

  /**
   * The removal is a filter: it distributes over concatenation and keeps a single
   * food exactly when its name differs ignoring case, so order and multiplicity stay.
   */
  lemma WithoutNameIgnoringCaseKeepsOrder(a: seq<FoodSearchResult>, b: seq<FoodSearchResult>, f: FoodSearchResult, name: string)
    ensures WithoutNameIgnoringCase(a + b, name) == WithoutNameIgnoringCase(a, name) + WithoutNameIgnoringCase(b, name)
    ensures WithoutNameIgnoringCase([f], name) == if SameName(f, name) then [] else [f]
  {
    FilterAppend(a, b, NotNamedLike(name));
    FilterOne(f, NotNamedLike(name));
  }

  /** `toggleFavoriteFood`: drop every case-insensitive namesake when there is one, else append the food. */
  function ToggleFavorite(favorites: seq<FoodSearchResult>, food: FoodSearchResult): (r: seq<FoodSearchResult>)
    ensures IsFavorite(favorites, food.name) ==> !IsFavorite(r, food.name)
    ensures IsFavorite(favorites, food.name) ==> forall f :: f in r <==> f in favorites && !SameName(f, food.name)
    ensures IsFavorite(favorites, food.name) ==> r == WithoutNameIgnoringCase(favorites, food.name)
    ensures !IsFavorite(favorites, food.name) ==> r == favorites + [food]
  {
    if IsFavorite(favorites, food.name) then WithoutNameIgnoringCase(favorites, food.name) else favorites + [food]
  }

  /** Toggling a food that is not a favourite twice gives back the original list. */
  lemma ToggleFavoriteTwice(favorites: seq<FoodSearchResult>, food: FoodSearchResult)
    requires !IsFavorite(favorites, food.name)
    ensures ToggleFavorite(ToggleFavorite(favorites, food), food) == favorites
  {
    var once := favorites + [food];
    assert once[|favorites|] == food;
    assert IsFavorite(once, food.name);
    WithoutNameIgnoringCaseKeepsOrder(favorites, [food], food, food.name);
  }

  /** The test `recents.filter` applies: the name differs exactly. */
  function OtherName(name: string): FoodSearchResult -> bool {
    (f: FoodSearchResult) => f.name != name
  }

  /** The items whose name differs from `name` (case-sensitive), in order. */
  function WithoutName(s: seq<FoodSearchResult>, name: string): (r: seq<FoodSearchResult>)
    ensures forall f :: f in r <==> f in s && f.name != name
    ensures |r| <= |s|
    ensures (forall k :: 0 <= k < |s| ==> s[k].name != name) ==> r == s
  {
    FilterMembers(s, OtherName(name));
    FilterAllKept(s, OtherName(name));
    Filter(s, OtherName(name))
  }

  /**
   * The filter distributes over concatenation and keeps a single food exactly when
   * its name differs, so order and multiplicity stay.
   */
  lemma WithoutNameKeepsOrder(a: seq<FoodSearchResult>, b: seq<FoodSearchResult>, f: FoodSearchResult, name: string)
    ensures WithoutName(a + b, name) == WithoutName(a, name) + WithoutName(b, name)
    ensures WithoutName([f], name) == if f.name == name then [] else [f]
  {
    FilterAppend(a, b, OtherName(name));
    FilterOne(f, OtherName(name));
  }

  function Min(a: int, b: int): int {
    if a <= b then a else b
  }

  /**
   * `addFoodToRecents`: the food goes to the head, earlier entries with exactly the
   * same name (case-sensitive) leave, the others follow in order, and at most five remain.
   */
  function AddToRecents(recents: seq<FoodSearchResult>, food: FoodSearchResult): (r: seq<FoodSearchResult>)
    ensures 1 <= |r| <= 5 && r[0] == food
    ensures |r| == Min(5, 1 + |WithoutName(recents, food.name)|)
    ensures forall k :: 1 <= k < |r| ==> r[k] == WithoutName(recents, food.name)[k - 1]
    ensures forall k :: 1 <= k < |r| ==> r[k].name != food.name
  {
    var w := WithoutName(recents, food.name);
    WithoutNameExcludes(recents, food.name);
    HeadThenFirstFour(food, w);
    ([food] + w)[..Min(5, 1 + |w|)]
  }

  lemma HeadThenFirstFour(food: FoodSearchResult, w: seq<FoodSearchResult>)
    requires forall k :: 0 <= k < |w| ==> w[k].name != food.name
    ensures var r := ([food] + w)[..Min(5, 1 + |w|)];
      && 1 <= |r| <= 5 && r[0] == food && |r| == Min(5, 1 + |w|)
      && (forall k :: 1 <= k < |r| ==> r[k] == w[k - 1])
      && (forall k :: 1 <= k < |r| ==> r[k].name != food.name)
  {
  }

  lemma WithoutNameExcludes(s: seq<FoodSearchResult>, name: string)
    ensures forall k :: 0 <= k < |WithoutName(s, name)| ==> WithoutName(s, name)[k].name != name
  {
    var w := WithoutName(s, name);
    assert forall k :: 0 <= k < |w| ==> w[k] in w;
  }

  predicate DistinctNames(s: seq<FoodSearchResult>) {
    forall i, j :: 0 <= i < j < |s| ==> s[i].name != s[j].name
  }

  lemma {:induction false} WithoutNameKeepsDistinct(s: seq<FoodSearchResult>, name: string)
    requires DistinctNames(s)
    ensures DistinctNames(WithoutName(s, name))
  {
    if s != [] {
      var init, last := s[..|s| - 1], s[|s| - 1];
      WithoutNameKeepsDistinct(init, name);
      var w := WithoutName(init, name);
      forall k | 0 <= k < |w|
        ensures w[k].name != last.name
      {
        assert w[k] in init;
        var m :| 0 <= m < |init| && init[m] == w[k];
        assert s[m] == w[k];
      }
      AppendDistinct(w, last);
      assert s == init + [last];
      WithoutNameKeepsOrder(init, [last], last, name);
    }
  }

  lemma AppendDistinct(w: seq<FoodSearchResult>, x: FoodSearchResult)
    requires DistinctNames(w) && forall k :: 0 <= k < |w| ==> w[k].name != x.name
    ensures DistinctNames(w + [x])
  {
  }

  /** Recents never hold two entries with the same name, once they start out that way. */
  lemma RecentsStayDistinct(recents: seq<FoodSearchResult>, food: FoodSearchResult)
    requires DistinctNames(recents)
    ensures DistinctNames(AddToRecents(recents, food))
  {
    WithoutNameKeepsDistinct(recents, food.name);
  }

  /** Logging the same food twice in a row leaves the recents as after the first time. */
  lemma AddToRecentsIdempotent(recents: seq<FoodSearchResult>, food: FoodSearchResult)
    ensures AddToRecents(AddToRecents(recents, food), food) == AddToRecents(recents, food)
  {
    var once := AddToRecents(recents, food);
    var tail := once[1..];
    assert once == [food] + tail;
    WithoutNameOfConcat(once, food.name, food, tail);
  }

  lemma WithoutNameOfConcat(s: seq<FoodSearchResult>, name: string, head: FoodSearchResult, tail: seq<FoodSearchResult>)
    requires s == [head] + tail && head.name == name
    requires forall k :: 0 <= k < |tail| ==> tail[k].name != name
    ensures WithoutName(s, name) == tail
  {
    WithoutNameKeepsOrder([head], tail, head, name);
  }

  /** Recents compare names exactly: "apple" does not replace a recent "Apple". */
  lemma RecentsAreCaseSensitive(apple: FoodSearchResult, appleLower: FoodSearchResult)
    requires apple.name == "Apple" && appleLower.name == "apple"
    ensures AddToRecents([apple], appleLower) == [appleLower, apple]
  {
    WithoutNameKeepsOrder([], [], apple, "apple");
  }

  // ---------------------------------------------------------------- prepped meals and custom activities

  /** The text `(N serving)` or `(N servings)` appended to a prepped meal's name. */
  function ServingsLabel(servings: int): string {
    " (" + IntToString(servings) + ServingsWord(servings)
  }

  /** `handlePreppedMealLogged`'s meal: the prepped meal scaled to the number of servings. */
  function PreppedMealAsMeal(meal: PreppedMeal, servings: int, mealType: MealType, date: string): (r: Meal)
    ensures r.calories == meal.caloriesPerServing * servings as real
    ensures r.protein == meal.proteinPerServing * servings as real
    ensures r.carbs == meal.carbsPerServing * servings as real
    ensures r.fats == meal.fatsPerServing * servings as real
    ensures r.mealType == mealType && r.date == date
    ensures r.description.None? && r.fiber.None? && r.sugar.None? && r.sodium.None?
  {
    Meal(meal.name + ServingsLabel(servings), None,
         meal.caloriesPerServing * servings as real, meal.proteinPerServing * servings as real,
         meal.carbsPerServing * servings as real, meal.fatsPerServing * servings as real,
         None, None, None, mealType, date)
  }

  /**
   * The logged name is the prepped meal's name, then ` (`, then text from which
   * `parseInt` reads back the serving count, and it ends in `s)` exactly when more
   * than one serving was logged.
   */
  lemma PreppedMealName(meal: PreppedMeal, servings: int, mealType: MealType, date: string)
    ensures var name := PreppedMealAsMeal(meal, servings, mealType, date).name;
      && |name| >= |meal.name| + 2
      && name[..|meal.name| + 2] == meal.name + " ("
      && ParseInt(name[|meal.name| + 2..]) == Some(servings)
      && (name[|name| - 2..] == "s)" <==> servings > 1)
      && |name| >= |meal.name| + 2 + |IntToString(servings)|
      && name[|meal.name| + 2 + |IntToString(servings)|..] == (if servings > 1 then " servings)" else " serving)")
  {
    LoggedNameIsLabelled(meal, servings, mealType, date);
    LabelledName(PreppedMealAsMeal(meal, servings, mealType, date).name, meal.name, servings);
  }

  lemma LoggedNameIsLabelled(meal: PreppedMeal, servings: int, mealType: MealType, date: string)
    ensures PreppedMealAsMeal(meal, servings, mealType, date).name == meal.name + ServingsLabel(servings)
  {
  }

  lemma LabelledName(name: string, base: string, servings: int)
    requires name == base + ServingsLabel(servings)
    ensures
      && |name| >= |base| + 2
      && name[..|base| + 2] == base + " ("
      && ParseInt(name[|base| + 2..]) == Some(servings)
      && (name[|name| - 2..] == "s)" <==> servings > 1)
      && |name| >= |base| + 2 + |IntToString(servings)|
      && name[|base| + 2 + |IntToString(servings)|..] == (if servings > 1 then " servings)" else " serving)")
  {
    LabelPrefix(name, base, servings);
    LabelCount(name, base, servings);
    LabelEnding(name, base, servings);
    LabelWords(name, base, servings);
  }

  lemma LabelWords(name: string, base: string, servings: int)
    requires name == base + ServingsLabel(servings)
    ensures
      && |name| >= |base| + 2 + |IntToString(servings)|
      && name[|base| + 2 + |IntToString(servings)|..] == (if servings > 1 then " servings)" else " serving)")
  {
    var head := base + " (" + IntToString(servings);
    var words := ServingsWord(servings);
    assert words == if servings > 1 then " servings)" else " serving)";
    assert base + ServingsLabel(servings) == head + words;
    SplitAt(head, words);
  }

  lemma LabelPrefix(name: string, base: string, servings: int)
    requires name == base + ServingsLabel(servings)
    ensures
      |name| >= |base| + 2 && name[..|base| + 2] == base + " (" && name[|base| + 2..] == IntToString(servings) + ServingsWord(servings)
  {
    var n := IntToString(servings);
    var rest := ServingsWord(servings);
    assert name == (base + " (") + (n + rest);
    SplitAt(base + " (", n + rest);
  }

  lemma LabelCount(name: string, base: string, servings: int)
    requires name == base + ServingsLabel(servings)
    ensures
      |name| >= |base| + 2 && ParseInt(name[|base| + 2..]) == Some(servings)
  {
    LabelPrefix(name, base, servings);
    ParseIntOfIntToString(servings, ServingsWord(servings));
  }

  lemma LabelEnding(name: string, base: string, servings: int)
    requires name == base + ServingsLabel(servings)
    ensures
      |name| >= 2 && (name[|name| - 2..] == "s)" <==> servings > 1)
  {
    var prefix := base + " (" + IntToString(servings);
    var rest := ServingsWord(servings);
    assert base + ServingsLabel(servings) == prefix + rest;
    LastTwo(prefix, rest);
    PluralEnding(servings);
  }

  lemma LastTwo(a: string, b: string)
    requires |b| >= 2
    ensures (a + b)[|a + b| - 2..] == b[|b| - 2..]
  {
  }

  /** The words after the count: ` serving)` or ` servings)`. */
  function ServingsWord(servings: int): (r: string)
    ensures |r| >= 2 && r[0] == ' '
  {
    " serving" + (if servings > 1 then "s" else "") + ")"
  }

  lemma PluralEnding(servings: int)
    ensures var w := ServingsWord(servings); w[|w| - 2..] == (if servings > 1 then "s)" else "g)")
  {
  }

  lemma SplitAt(a: string, b: string)
    ensures (a + b)[..|a|] == a && (a + b)[|a|..] == b
    ensures |b| >= 2 ==> (a + b)[|a + b| - 2..] == b[|b| - 2..]
  {
  }

  /** The test `preppedMeals.filter` applies: the id differs. */
  function OtherId(id: string): PreppedMeal -> bool {
    (m: PreppedMeal) => m.id != id
  }

  /** The prepped meals whose id differs from `id`, in order. */
  function WithoutId(meals: seq<PreppedMeal>, id: string): (r: seq<PreppedMeal>)
    ensures forall m :: m in r <==> m in meals && m.id != id
    ensures (forall k :: 0 <= k < |meals| ==> meals[k].id != id) ==> r == meals
  {
    FilterMembers(meals, OtherId(id));
    FilterAllKept(meals, OtherId(id));
    Filter(meals, OtherId(id))
  }

  /**
   * The deletion is a filter: it distributes over concatenation and keeps a single
   * meal exactly when its id differs, so order and multiplicity stay.
   */
  lemma WithoutIdKeepsOrder(a: seq<PreppedMeal>, b: seq<PreppedMeal>, m: PreppedMeal, id: string)
    ensures WithoutId(a + b, id) == WithoutId(a, id) + WithoutId(b, id)
    ensures WithoutId([m], id) == if m.id == id then [] else [m]
  {
    FilterAppend(a, b, OtherId(id));
    FilterOne(m, OtherId(id));
  }

  /** A prepped meal added under a fresh id is deleted again by that id. */
  lemma DeleteUndoesAdd(meals: seq<PreppedMeal>, meal: PreppedMeal)
    requires forall k :: 0 <= k < |meals| ==> meals[k].id != meal.id
    ensures WithoutId(meals + [meal], meal.id) == meals
  {
    WithoutIdKeepsOrder(meals, [meal], meal, meal.id);
  }
}
