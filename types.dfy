/**
 * The records and enumerations of the nutrition tracker: one `UserData` aggregate per
 * user holding every logged collection, goal, history and setting.  Weights are in
 * pounds, heights in inches, dates are `YYYY-MM-DD` strings and JavaScript numbers
 * are exact reals.
 */
module Types {
  import opened Wrappers

  /** The screens the app can show; a user's current page is part of their data. */
  datatype Page =
    | Dashboard | Diary | Reports | Settings | LogMeal | Camera | BarcodeScanner
    | AdjustMacros | WeightGoals | WeightHistory | WaterHistory | Profile | LogActivity
    | ManualLog | MealPrepCreator | MealDetail

  /** Exactly four meal slots, in the order the diary lists them. */
  datatype MealType = Breakfast | Lunch | Dinner | Snacks

  const MealTypes: seq<MealType> := [Breakfast, Lunch, Dinner, Snacks]

  datatype FoodCategory = AllFoods | MealPrep | Fruits | Veggies | ProteinFoods | CarbFoods | Dairy | Dishes

  datatype Gender = Male | Female | PreferNotToSay

  datatype ActivityLevel = Sedentary | LightlyActive | ModeratelyActive | Active | VeryActive

  datatype PrimaryGoal = LoseWeight | MaintainWeight | GainMuscle

  datatype UnitSystem = Imperial | Metric

  datatype ThemePreference = Light | Dark | System

  datatype UserProfile = UserProfile(
    id: string,
    name: string,
    age: int,
    avatar: string,
    gender: Gender,
    height: real,              // inches
    activityLevel: ActivityLevel,
    primaryGoal: PrimaryGoal,
    unitSystem: UnitSystem)

  /** Daily macro targets in grams; the calorie goal is derived from them, never stored. */
  datatype MacroGoals = MacroGoals(protein: int, carbs: int, fats: int)

  datatype WeightEntry = WeightEntry(date: string, weight: real)   // weight in lbs

  /** A logged meal; it has no identifier and is addressed by its position in the log. */
  datatype Meal = Meal(
    name: string,
    description: Option<string>,
    calories: real,
    protein: real,
    carbs: real,
    fats: real,
    fiber: Option<real>,
    sugar: Option<real>,
    sodium: Option<real>,
    mealType: MealType,
    date: string)

  datatype CustomActivity = CustomActivity(activityType: string, emoji: string, met: real)

  /** A logged activity; like a meal it is addressed by position only. */
  datatype Activity = Activity(
    name: string,
    activityType: string,
    duration: int,             // minutes
    caloriesBurned: int,
    date: string)

  datatype FoodSearchResult = FoodSearchResult(
    name: string,
    description: Option<string>,
    calories: real,
    protein: real,
    carbs: real,
    fats: real,
    imageUrl: Option<string>,
    category: Option<FoodCategory>)

  /** The one record with an identifier, assigned when it is saved. */
  datatype PreppedMeal = PreppedMeal(
    id: string,
    name: string,
    servings: int,
    ingredients: seq<FoodSearchResult>,
    caloriesPerServing: real,
    proteinPerServing: real,
    carbsPerServing: real,
    fatsPerServing: real)

  datatype Reminder = Reminder(enabled: bool, time: string)   // time is "HH:MM"

  datatype ReminderType = BreakfastReminder | LunchReminder | DinnerReminder | SnacksReminder | WaterReminder

  /** The order in which the reminder slots are created, iterated and listed. */
  const ReminderTypes: seq<ReminderType> :=
    [BreakfastReminder, LunchReminder, DinnerReminder, SnacksReminder, WaterReminder]

  /** One reminder for each of the five reminder types, no more and no fewer. */
  datatype ReminderSettings = ReminderSettings(
    breakfast: Reminder, lunch: Reminder, dinner: Reminder, snacks: Reminder, water: Reminder)
  {
    function Get(t: ReminderType): Reminder {
      match t
      case BreakfastReminder => breakfast
      case LunchReminder => lunch
      case DinnerReminder => dinner
      case SnacksReminder => snacks
      case WaterReminder => water
    }

    /** The settings with the reminder of type `t` replaced. */
    function With(t: ReminderType, r: Reminder): (s: ReminderSettings)
      ensures s.Get(t) == r
      ensures forall u :: u != t ==> s.Get(u) == Get(u)
    {
      match t
      case BreakfastReminder => this.(breakfast := r)
      case LunchReminder => this.(lunch := r)
      case DinnerReminder => this.(dinner := r)
      case SnacksReminder => this.(snacks := r)
      case WaterReminder => this.(water := r)
    }
  }

  /** The name a reminder type has in notifications and in the settings form. */
  function ReminderName(t: ReminderType): string {
    match t
    case BreakfastReminder => "Breakfast"
    case LunchReminder => "Lunch"
    case DinnerReminder => "Dinner"
    case SnacksReminder => "Snacks"
    case WaterReminder => "Water"
  }

  /** Per-date amounts, in the order the dates were first written (a JavaScript object). */
  type DateTable = seq<(string, real)>

  /** The single per-user aggregate. */
  datatype UserData = UserData(
    profile: UserProfile,
    loggedMeals: seq<Meal>,
    loggedActivities: seq<Activity>,
    macroGoals: MacroGoals,
    weightHistory: seq<WeightEntry>,
    goalWeight: real,          // lbs
    waterIntakeHistory: DateTable,
    waterGoal: real,
    stepsHistory: DateTable,
    stepsGoal: real,
    dayStreak: int,
    favoriteFoods: seq<FoodSearchResult>,
    preppedMeals: seq<PreppedMeal>,
    page: Page,
    themePreference: ThemePreference,
    customActivities: seq<CustomActivity>,
    recentFoods: seq<FoodSearchResult>,
    reminders: ReminderSettings)

  /** Every reminder type appears exactly once in the iteration order. */
  lemma ReminderTypesComplete()
    ensures |ReminderTypes| == 5
    ensures forall t: ReminderType :: t in ReminderTypes
    ensures forall i, j :: 0 <= i < j < |ReminderTypes| ==> ReminderTypes[i] != ReminderTypes[j]
  {
    forall t: ReminderType ensures t in ReminderTypes {
      match t
      case BreakfastReminder => assert ReminderTypes[0] == t;
      case LunchReminder => assert ReminderTypes[1] == t;
      case DinnerReminder => assert ReminderTypes[2] == t;
      case SnacksReminder => assert ReminderTypes[3] == t;
      case WaterReminder => assert ReminderTypes[4] == t;
    }
  }
}
