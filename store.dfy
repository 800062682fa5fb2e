/**
 * The app-wide store: a registry of users keyed by id, the id of the signed-in user,
 * and the session flags around them.  Every per-user action replaces the current
 * user's whole `UserData` entry and nothing else; with no signed-in user, or an id
 * missing from the registry, it changes nothing.
 */
module Store {
  import opened Wrappers
  import opened Types
  import opened DateOrder
  import opened Reducers
  import opened Notifications
  import Nutrition

  /** The registry after `f` is applied to the entry under `key`, when there is one. */
  function UpdatedUsers(users: map<string, UserData>, key: Option<string>, f: UserData -> UserData)
    : (r: map<string, UserData>)
    ensures r.Keys == users.Keys
    ensures forall id :: id in users && key != Some(id) ==> r[id] == users[id]
    ensures key.Some? && key.value in users ==> r[key.value] == f(users[key.value])
  {
    if key.Some? && key.value in users then users[key.value := f(users[key.value])] else users
  }

  /** The update `handleWaterIntakeUpdate` applies: the day's intake is set to `intake`. */
  function SetWater(date: string, intake: real): UserData -> UserData {
    (ud: UserData) => ud.(waterIntakeHistory := SetDate(ud.waterIntakeHistory, date, intake))
  }

  /** The profile the context offers when nobody is signed in. */
  const SignedOutProfile: UserProfile :=
    UserProfile("", "", 0, "", Male, 0.0, Sedentary, MaintainWeight, Imperial)

  const DefaultReminders: ReminderSettings := ReminderSettings(
    Reminder(false, "08:00"), Reminder(false, "12:30"), Reminder(false, "18:30"),
    Reminder(false, "15:00"), Reminder(false, "10:00"))

  /** The record `register` creates for a new user. */
  function NewUser(profileData: UserProfile, weightLbs: real, id: string, today: string): UserData {
    UserData(
      profile := profileData.(id := id),
      loggedMeals := [],
      loggedActivities := [],
      macroGoals := Nutrition.CalculateGoals(profileData, weightLbs),
      weightHistory := [WeightEntry(today, weightLbs)],
      goalWeight := if profileData.primaryGoal == LoseWeight then weightLbs - 15.0 else weightLbs,
      waterIntakeHistory := [],
      waterGoal := 90.0,
      stepsHistory := [],
      stepsGoal := 10000.0,
      dayStreak := 0,
      favoriteFoods := [],
      preppedMeals := [],
      page := Dashboard,
      themePreference := System,
      customActivities := [],
      recentFoods := [],
      reminders := DefaultReminders)
  }

  /**
   * The shape every user entry keeps: the weight history sorted oldest first with one
   * entry per date, one water amount per date, and at most five recent foods with
   * distinct names.
   */
  predicate WellFormed(ud: UserData) {
    && SortedBy(ud.weightHistory, WeightDate, false)
    && DistinctKeys(ud.weightHistory, WeightDate)
    && DistinctDates(ud.waterIntakeHistory)
    && |ud.recentFoods| <= 5
    && DistinctNames(ud.recentFoods)
  }

  /**
   * A new user starts well formed, with one weight entry, a goal 15 lb below the
   * current weight exactly when losing weight, the calculator's goals, and no
   * reminder enabled.
   */
  lemma NewUserProperties(profileData: UserProfile, weightLbs: real, id: string, today: string)
    ensures var ud := NewUser(profileData, weightLbs, id, today);
      && WellFormed(ud)
      && ud.profile.id == id
      && LastWeightOr(ud.weightHistory, 0.0) == weightLbs
      && (ud.goalWeight < weightLbs <==> profileData.primaryGoal == LoseWeight)
      && ud.macroGoals == Nutrition.CalculateGoals(ud.profile, weightLbs)
      && (forall t :: !ud.reminders.Get(t).enabled)
  {
    var ud := NewUser(profileData, weightLbs, id, today);
    FreshEntryWellFormed(ud);
    Nutrition.GoalsIgnoreId(profileData, weightLbs, id);
    assert ud.reminders == DefaultReminders;
  }

  /** Recording a weight keeps an entry well formed. */
  lemma WeightUpdateKeepsWellFormed(ud: UserData, today: string, weight: real, goal: real)
    requires WellFormed(ud)
    ensures WellFormed(ud.(weightHistory := UpsertedHistory(ud.weightHistory, today, weight),
                          goalWeight := goal, page := Settings))
  {
    SortBySorted(Written(ud.weightHistory, today, weight), WeightDate, false);
    UpsertKeepsOneEntryPerDate(ud.weightHistory, today, weight);
  }

  /** An entry with at most one weight and no water or recent foods is well formed. */
  lemma FreshEntryWellFormed(ud: UserData)
    requires |ud.weightHistory| <= 1 && ud.waterIntakeHistory == [] && ud.recentFoods == []
    ensures WellFormed(ud)
  {
  }

  class AppStore {
    var usersData: map<string, UserData>
    var currentUserId: Option<string>
    var isRegistering: bool
    var selectedMealIndex: Option<int>
    var isRemindersModalOpen: bool
    /** The date each reminder type last fired on; shared by every user and never cleared. */
    var lastNotified: map<ReminderType, string>

    /** Every registered user's entry is well formed. */
    predicate Valid()
      reads this
    {
      forall id :: id in usersData ==> WellFormed(usersData[id])
    }

    constructor ()
      ensures usersData == map[] && currentUserId == None
      ensures !isRegistering && selectedMealIndex == None && !isRemindersModalOpen && lastNotified == map[]
      ensures Valid()
    {
      usersData := map[];
      currentUserId := None;
      isRegistering := false;
      selectedMealIndex := None;
      isRemindersModalOpen := false;
      lastNotified := map[];
    }

    /** The current id when it is set and non-empty (an empty id counts as signed out). */
    function CurrentKey(): (k: Option<string>)
      reads this
      ensures k.Some? ==> currentUserId == k && k.value != ""
      ensures k.None? ==> currentUserId == None || currentUserId == Some("")
    {
      if currentUserId.Some? && currentUserId.value != "" then currentUserId else None
    }

    /** `currentUser`: the signed-in user's entry, if the registry has one. */
    function CurrentUser(): (u: Option<UserData>)
      reads this
      ensures u.Some? <==> CurrentKey().Some? && CurrentKey().value in usersData
      ensures u.Some? ==> u.value == usersData[CurrentKey().value]
    {
      match CurrentKey()
      case Some(id) => if id in usersData then Some(usersData[id]) else None
      case None => None
    }

    /** Some user is registered (the onboarding "has users" flag). */
    function HasUsers(): bool
      reads this
    {
      |usersData| > 0
    }

    /** `currentWeight`: the last weight in the history, or 0 (`|| 0`) when signed out, with no history or a 0 entry. */
    function CurrentWeight(): (w: real)
      reads this
      ensures CurrentUser().None? ==> w == 0.0
      ensures CurrentUser().Some? ==> w == LastWeightOr(CurrentUser().value.weightHistory, 0.0)
    {
      match CurrentUser()
      case None => 0.0
      case Some(ud) => LastWeightOr(ud.weightHistory, 0.0)
    }

    /** `profile`: the current user's profile, or the placeholder the screens see when signed out. */
    function ProfileOrDefault(): (p: UserProfile)
      reads this
      ensures CurrentUser().Some? ==> p == CurrentUser().value.profile
      ensures CurrentUser().None? ==> p == SignedOutProfile
    {
      match CurrentUser()
      case None => SignedOutProfile
      case Some(ud) => ud.profile
    }

    /** The session state that per-user updates leave alone. */
    twostate predicate SessionUnchanged()
      reads this
    {
      && currentUserId == old(currentUserId)
      && isRegistering == old(isRegistering)
      && selectedMealIndex == old(selectedMealIndex)
      && isRemindersModalOpen == old(isRemindersModalOpen)
      && lastNotified == old(lastNotified)
    }

    /** `updateCurrentUser`: replace the current user's entry by `f` of it, if there is one. */
    method UpdateCurrentUser(f: UserData -> UserData)
      modifies this
      ensures usersData == UpdatedUsers(old(usersData), old(CurrentKey()), f)
      ensures SessionUnchanged()
    {
      var key := CurrentKey();
      if key.Some? && key.value in usersData {
        usersData := usersData[key.value := f(usersData[key.value])];
      }
    }

    // ------------------------------------------------------------ registry

    /** `login`: switch to a registered id; an unknown id changes nothing. */
    method Login(userId: string)
      modifies this
      ensures userId in old(usersData) ==> currentUserId == Some(userId)
      ensures userId !in old(usersData) ==> currentUserId == old(currentUserId)
      ensures usersData == old(usersData) && lastNotified == old(lastNotified)
      ensures isRegistering == old(isRegistering) && selectedMealIndex == old(selectedMealIndex)
      ensures isRemindersModalOpen == old(isRemindersModalOpen)
    {
      if userId in usersData {
        currentUserId := Some(userId);
      }
    }

    method Logout()
      modifies this
      ensures currentUserId == None && CurrentUser() == None
      ensures usersData == old(usersData) && lastNotified == old(lastNotified)
      ensures isRegistering == old(isRegistering) && selectedMealIndex == old(selectedMealIndex)
      ensures isRemindersModalOpen == old(isRemindersModalOpen)
    {
      currentUserId := None;
    }

    /** `register`: add a user under a fresh id and sign them in. */
    method Register(profileData: UserProfile, currentWeightLbs: real, freshId: string, today: string)
      requires Valid()
      modifies this
      ensures usersData == old(usersData)[freshId := NewUser(profileData, currentWeightLbs, freshId, today)]
      ensures currentUserId == Some(freshId) && !isRegistering
      ensures selectedMealIndex == old(selectedMealIndex) && isRemindersModalOpen == old(isRemindersModalOpen)
      ensures lastNotified == old(lastNotified)
      ensures Valid()
    {
      NewUserProperties(profileData, currentWeightLbs, freshId, today);
      usersData := usersData[freshId := NewUser(profileData, currentWeightLbs, freshId, today)];
      currentUserId := Some(freshId);
      isRegistering := false;
    }

    /** `deleteCurrentUser`: only with a signed-in user and a confirmed prompt. */
    method DeleteCurrentUser(confirmed: bool)
      requires Valid()
      modifies this
      ensures old(CurrentKey()).Some? && confirmed ==>
        usersData == old(usersData) - {old(CurrentKey()).value} && currentUserId == None
      ensures !(old(CurrentKey()).Some? && confirmed) ==>
        usersData == old(usersData) && currentUserId == old(currentUserId)
      ensures isRegistering == old(isRegistering) && selectedMealIndex == old(selectedMealIndex)
      ensures isRemindersModalOpen == old(isRemindersModalOpen) && lastNotified == old(lastNotified)
      ensures Valid()
    {
      var key := CurrentKey();
      if key.Some? && confirmed {
        usersData := usersData - {key.value};
        currentUserId := None;
      }
    }

    method StartRegistration()
      modifies this
      ensures isRegistering
      ensures usersData == old(usersData) && currentUserId == old(currentUserId)
      ensures selectedMealIndex == old(selectedMealIndex) && isRemindersModalOpen == old(isRemindersModalOpen)
      ensures lastNotified == old(lastNotified)
    {
      isRegistering := true;
    }

    method CancelRegistration()
      modifies this
      ensures !isRegistering
      ensures usersData == old(usersData) && currentUserId == old(currentUserId)
      ensures selectedMealIndex == old(selectedMealIndex) && isRemindersModalOpen == old(isRemindersModalOpen)
      ensures lastNotified == old(lastNotified)
    {
      isRegistering := false;
    }

    method OpenRemindersModal()
      modifies this
      ensures isRemindersModalOpen
      ensures usersData == old(usersData) && currentUserId == old(currentUserId)
      ensures selectedMealIndex == old(selectedMealIndex) && isRegistering == old(isRegistering)
      ensures lastNotified == old(lastNotified)
    {
      isRemindersModalOpen := true;
    }

    method CloseRemindersModal()
      modifies this
      ensures !isRemindersModalOpen
      ensures usersData == old(usersData) && currentUserId == old(currentUserId)
      ensures selectedMealIndex == old(selectedMealIndex) && isRegistering == old(isRegistering)
      ensures lastNotified == old(lastNotified)
    {
      isRemindersModalOpen := false;
    }

    // ------------------------------------------------------------ navigation

    /** `navigateTo`: leaving the meal detail page forgets the selected meal. */
    method NavigateTo(newPage: Page)
      requires Valid()
      modifies this
      ensures usersData == UpdatedUsers(old(usersData), old(CurrentKey()), (ud: UserData) => ud.(page := newPage))
      ensures old(LeavesMealDetail(newPage)) ==> selectedMealIndex == None
      ensures !old(LeavesMealDetail(newPage)) ==> selectedMealIndex == old(selectedMealIndex)
      ensures currentUserId == old(currentUserId) && isRegistering == old(isRegistering)
      ensures isRemindersModalOpen == old(isRemindersModalOpen) && lastNotified == old(lastNotified)
      ensures Valid()
    {
      if LeavesMealDetail(newPage) {
        selectedMealIndex := None;
      }
      UpdateCurrentUser((ud: UserData) => ud.(page := newPage));
    }

    /** The current user is on the meal detail page and `newPage` is another page. */
    predicate LeavesMealDetail(newPage: Page)
      reads this
    {
      CurrentUser().Some? && CurrentUser().value.page == MealDetail && newPage != MealDetail
    }

    /** `viewMealDetail`: remember the index and, for an actual index, open the detail page. */
    method ViewMealDetail(index: Option<int>)
      requires Valid()
      modifies this
      ensures selectedMealIndex == index
      ensures index.Some? ==> usersData == UpdatedUsers(old(usersData), old(CurrentKey()), (ud: UserData) => ud.(page := MealDetail))
      ensures index.None? ==> usersData == old(usersData)
      ensures currentUserId == old(currentUserId) && isRegistering == old(isRegistering)
      ensures isRemindersModalOpen == old(isRemindersModalOpen) && lastNotified == old(lastNotified)
      ensures Valid()
    {
      selectedMealIndex := index;
      if index.Some? {
        NavigateTo(MealDetail);
      }
    }

    /** `selectedMeal`: the meal at the selected index of the current user's log, when it exists. */
    function SelectedMeal(): (r: Option<(Meal, int)>)
      reads this
      ensures r.Some? <==> (CurrentUser().Some? && selectedMealIndex.Some?
                            && 0 <= selectedMealIndex.value < |CurrentUser().value.loggedMeals|)
      ensures r.Some? ==> r.value.1 == selectedMealIndex.value
                          && r.value.0 == CurrentUser().value.loggedMeals[r.value.1]
    {
      match CurrentUser()
      case Some(ud) =>
        if selectedMealIndex.Some? && 0 <= selectedMealIndex.value < |ud.loggedMeals| then
          Some((ud.loggedMeals[selectedMealIndex.value], selectedMealIndex.value))
        else None
      case None => None
    }

    method HandleThemePreferenceChange(preference: ThemePreference)
      requires Valid()
      modifies this
      ensures usersData == UpdatedUsers(old(usersData), old(CurrentKey()), (ud: UserData) => ud.(themePreference := preference))
      ensures SessionUnchanged() && Valid()
    {
      UpdateCurrentUser((ud: UserData) => ud.(themePreference := preference));
    }

    // ------------------------------------------------------------ logging

    method HandleMealLogged(meal: Meal, today: string, yesterday: string)
      requires Valid()
      modifies this
      ensures usersData == UpdatedUsers(old(usersData), old(CurrentKey()), (ud: UserData) => HandleLog(ud, MealEntry(meal), today, yesterday))
      ensures SessionUnchanged() && Valid()
    {
      UpdateCurrentUser((ud: UserData) => HandleLog(ud, MealEntry(meal), today, yesterday));
    }

    method HandleActivityLogged(activity: Activity, today: string, yesterday: string)
      requires Valid()
      modifies this
      ensures usersData == UpdatedUsers(old(usersData), old(CurrentKey()), (ud: UserData) => HandleLog(ud, ActivityEntry(activity), today, yesterday))
      ensures SessionUnchanged() && Valid()
    {
      UpdateCurrentUser((ud: UserData) => HandleLog(ud, ActivityEntry(activity), today, yesterday));
    }

    method HandleMealRemoved(mealIndex: int)
      requires Valid()
      modifies this
      ensures usersData == UpdatedUsers(old(usersData), old(CurrentKey()), (ud: UserData) => ud.(loggedMeals := RemoveAt(ud.loggedMeals, mealIndex)))
      ensures SessionUnchanged() && Valid()
    {
      UpdateCurrentUser((ud: UserData) => ud.(loggedMeals := RemoveAt(ud.loggedMeals, mealIndex)));
    }

    /** Remove a meal, go to `newPage` and forget the selected meal. */
    method HandleMealRemovedAndNavigate(mealIndex: int, newPage: Page)
      requires Valid()
      modifies this
      ensures usersData == UpdatedUsers(old(usersData), old(CurrentKey()),
                                        (ud: UserData) => ud.(loggedMeals := RemoveAt(ud.loggedMeals, mealIndex), page := newPage))
      ensures selectedMealIndex == None
      ensures currentUserId == old(currentUserId) && isRegistering == old(isRegistering)
      ensures isRemindersModalOpen == old(isRemindersModalOpen) && lastNotified == old(lastNotified)
      ensures Valid()
    {
      UpdateCurrentUser((ud: UserData) => ud.(loggedMeals := RemoveAt(ud.loggedMeals, mealIndex), page := newPage));
      selectedMealIndex := None;
    }

    method HandleActivityRemoved(activityIndex: int)
      requires Valid()
      modifies this
      ensures usersData == UpdatedUsers(old(usersData), old(CurrentKey()),
                                        (ud: UserData) => ud.(loggedActivities := RemoveAt(ud.loggedActivities, activityIndex)))
      ensures SessionUnchanged() && Valid()
    {
      UpdateCurrentUser((ud: UserData) => ud.(loggedActivities := RemoveAt(ud.loggedActivities, activityIndex)));
    }

    // ------------------------------------------------------------ goals, weight and profile

    method HandleMacrosUpdate(newGoals: MacroGoals)
      requires Valid()
      modifies this
      ensures usersData == UpdatedUsers(old(usersData), old(CurrentKey()), (ud: UserData) => ud.(macroGoals := newGoals, page := Settings))
      ensures SessionUnchanged() && Valid()
    {
      UpdateCurrentUser((ud: UserData) => ud.(macroGoals := newGoals, page := Settings));
    }

    /** `handleWeightUpdate`: record today's weight in the sorted history, set the goal, go to settings. */
    method HandleWeightUpdate(newCurrentWeight: real, newGoalWeight: real, today: string)
      requires Valid()
      modifies this
      ensures usersData == UpdatedUsers(old(usersData), old(CurrentKey()),
        (ud: UserData) => ud.(weightHistory := UpsertedHistory(ud.weightHistory, today, newCurrentWeight),
                  goalWeight := newGoalWeight, page := Settings))
      ensures SessionUnchanged() && Valid()
    {
      var key := CurrentKey();
      if key.Some? && key.value in usersData {
        var ud := usersData[key.value];
        var newHistory := UpsertWeight(ud.weightHistory, today, newCurrentWeight);
        WeightUpdateKeepsWellFormed(ud, today, newCurrentWeight, newGoalWeight);
        usersData := usersData[key.value := ud.(weightHistory := newHistory, goalWeight := newGoalWeight, page := Settings)];
      }
    }

    method HandleProfileUpdate(newProfile: UserProfile)
      requires Valid()
      modifies this
      ensures usersData == UpdatedUsers(old(usersData), old(CurrentKey()), (ud: UserData) => UpdateProfile(ud, newProfile))
      ensures SessionUnchanged() && Valid()
    {
      UpdateCurrentUser((ud: UserData) => UpdateProfile(ud, newProfile));
    }

    method HandleWaterIntakeUpdate(date: string, newIntake: real)
      requires Valid()
      modifies this
      ensures usersData == UpdatedUsers(old(usersData), old(CurrentKey()), SetWater(date, newIntake))
      ensures SessionUnchanged() && Valid()
    {
      UpdateCurrentUser(SetWater(date, newIntake));
    }

    // ------------------------------------------------------------ foods, prepped meals, activities, reminders

    method ToggleFavoriteFood(food: FoodSearchResult)
      requires Valid()
      modifies this
      ensures usersData == UpdatedUsers(old(usersData), old(CurrentKey()),
                                        (ud: UserData) => ud.(favoriteFoods := ToggleFavorite(ud.favoriteFoods, food)))
      ensures SessionUnchanged() && Valid()
    {
      UpdateCurrentUser((ud: UserData) => ud.(favoriteFoods := ToggleFavorite(ud.favoriteFoods, food)));
    }

    method AddFoodToRecents(food: FoodSearchResult)
      requires Valid()
      modifies this
      ensures usersData == UpdatedUsers(old(usersData), old(CurrentKey()),
                                        (ud: UserData) => ud.(recentFoods := AddToRecents(ud.recentFoods, food)))
      ensures SessionUnchanged() && Valid()
    {
      forall id | id in usersData {
        RecentsStayDistinct(usersData[id].recentFoods, food);
      }
      UpdateCurrentUser((ud: UserData) => ud.(recentFoods := AddToRecents(ud.recentFoods, food)));
    }

    /** `handlePreppedMealAdd`: append the meal under a fresh id. */
    method HandlePreppedMealAdd(meal: PreppedMeal, freshId: string)
      requires Valid()
      modifies this
      ensures usersData == UpdatedUsers(old(usersData), old(CurrentKey()),
                                        (ud: UserData) => ud.(preppedMeals := ud.preppedMeals + [meal.(id := freshId)]))
      ensures SessionUnchanged() && Valid()
    {
      var newMeal := meal.(id := freshId);
      UpdateCurrentUser((ud: UserData) => ud.(preppedMeals := ud.preppedMeals + [newMeal]));
    }

    /** `handlePreppedMealLogged`: log the scaled meal through the same path as any meal. */
    method HandlePreppedMealLogged(meal: PreppedMeal, servings: int, mealType: MealType, date: string,
                                   today: string, yesterday: string)
      requires Valid()
      modifies this
      ensures usersData == UpdatedUsers(old(usersData), old(CurrentKey()),
        (ud: UserData) => HandleLog(ud, MealEntry(PreppedMealAsMeal(meal, servings, mealType, date)), today, yesterday))
      ensures SessionUnchanged() && Valid()
    {
      HandleMealLogged(PreppedMealAsMeal(meal, servings, mealType, date), today, yesterday);
    }

    method HandlePreppedMealDelete(mealId: string)
      requires Valid()
      modifies this
      ensures usersData == UpdatedUsers(old(usersData), old(CurrentKey()),
                                        (ud: UserData) => ud.(preppedMeals := WithoutId(ud.preppedMeals, mealId)))
      ensures SessionUnchanged() && Valid()
    {
      UpdateCurrentUser((ud: UserData) => ud.(preppedMeals := WithoutId(ud.preppedMeals, mealId)));
    }

    method HandleCustomActivityAdd(activity: CustomActivity)
      requires Valid()
      modifies this
      ensures usersData == UpdatedUsers(old(usersData), old(CurrentKey()),
                                        (ud: UserData) => ud.(customActivities := ud.customActivities + [activity]))
      ensures SessionUnchanged() && Valid()
    {
      UpdateCurrentUser((ud: UserData) => ud.(customActivities := ud.customActivities + [activity]));
    }

    method HandleRemindersUpdate(newSettings: ReminderSettings)
      requires Valid()
      modifies this
      ensures usersData == UpdatedUsers(old(usersData), old(CurrentKey()), (ud: UserData) => ud.(reminders := newSettings))
      ensures SessionUnchanged() && Valid()
    {
      UpdateCurrentUser((ud: UserData) => ud.(reminders := newSettings));
    }

    // ------------------------------------------------------------ reminder timer

    /**
     * One tick of the reminder timer at `hour`:`minute` on `today`.  Without a
     * signed-in user or without notification permission nothing happens; otherwise
     * the due types fire, in the order the reminders are listed, and are marked as
     * fired today.
     */
    method Tick(permissionGranted: bool, today: string, hour: int, minute: int)
      returns (notifications: seq<Notification>)
      modifies this
      ensures var now := ClockText(hour, minute);
        old(CurrentUser()).Some? && permissionGranted ==>
          var fired := DueTypes(old(CurrentUser()).value.reminders, old(lastNotified), today, now, ReminderTypes);
          notifications == Notify(fired) && lastNotified == MarkFired(old(lastNotified), fired, today)
      ensures !(old(CurrentUser()).Some? && permissionGranted) ==> notifications == [] && lastNotified == old(lastNotified)
      ensures usersData == old(usersData) && currentUserId == old(currentUserId)
      ensures isRegistering == old(isRegistering) && selectedMealIndex == old(selectedMealIndex)
      ensures isRemindersModalOpen == old(isRemindersModalOpen)
    {
      notifications := [];
      var current := CurrentUser();
      if current.None? || !permissionGranted {
        return;
      }
      notifications, lastNotified := FireDue(current.value.reminders, lastNotified, today, ClockText(hour, minute));
    }
  }

  /** The loop of one timer tick: fire every due type in list order and record it as fired today. */
  method FireDue(reminders: ReminderSettings, lastNotified: map<ReminderType, string>, today: string, now: string)
    returns (notifications: seq<Notification>, newLastNotified: map<ReminderType, string>)
    ensures var fired := DueTypes(reminders, lastNotified, today, now, ReminderTypes);
      notifications == Notify(fired) && newLastNotified == MarkFired(lastNotified, fired, today)
  {
    notifications, newLastNotified := [], lastNotified;
    ghost var fired: seq<ReminderType> := [];
    ReminderTypesComplete();
    for i := 0 to |ReminderTypes|
      invariant fired == DueTypes(reminders, lastNotified, today, now, ReminderTypes[..i])
      invariant notifications == Notify(fired)
      invariant newLastNotified == MarkFired(lastNotified, fired, today)
    {
      var t := ReminderTypes[i];
      assert ReminderTypes[..i + 1] == ReminderTypes[..i] + [t];
      assert t !in ReminderTypes[..i];
      FireStep(reminders, lastNotified, today, now, ReminderTypes[..i], t, fired, newLastNotified);
      var reminder := reminders.Get(t);
      if reminder.enabled && reminder.time == now && !(t in newLastNotified && newLastNotified[t] == today) {
        notifications := notifications + [NotificationFor(t)];
        fired := fired + [t];
        newLastNotified := newLastNotified[t := today];
      }
    }
    assert ReminderTypes[..|ReminderTypes|] == ReminderTypes;
  }
}
