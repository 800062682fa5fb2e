/**
 * The log-activity screen: the list of activities to choose from, the duration typed
 * as hours and minutes, the MET estimate of the calories burned, the log action and
 * the form that adds a custom activity.
 */
module LogActivity {
  import opened Wrappers
  import opened Types
  import opened Numeric
  import Reducers
  import Store

  /** The six built-in activities with their MET values. */
  const DefaultActivities: seq<CustomActivity> := [
    CustomActivity("Running", "\U{1F3C3}", 9.8),
    CustomActivity("Walking", "\U{1F6B6}", 3.5),
    CustomActivity("Cycling", "\U{1F6B4}", 7.5),
    CustomActivity("Weight Lifting", "\U{1F3CB}\U{FE0F}", 3.5),
    CustomActivity("Yoga", "\U{1F9D8}", 2.5),
    CustomActivity("Swimming", "\U{1F3CA}", 7.0)
  ]

  /** `allActivities`: the built-in ones first, then the user's own, in the order they were added. */
  function AllActivities(custom: seq<CustomActivity>): (r: seq<CustomActivity>)
    ensures |r| == |DefaultActivities| + |custom|
    ensures r[..|DefaultActivities|] == DefaultActivities && r[|DefaultActivities|..] == custom
    ensures forall a :: a in r <==> a in DefaultActivities || a in custom
  {
    DefaultActivities + custom
  }

  /** `totalDurationInMinutes`: `(parseInt(hours) || 0) * 60 + (parseInt(minutes) || 0)`. */
  function DurationInMinutes(hours: string, minutes: string): int {
    ParseIntOr(hours, 0) * 60 + ParseIntOr(minutes, 0)
  }

  /** Text of digits alone (what the inputs keep) reads as its decimal value, the empty text as 0. */
  lemma DigitTextValue(s: string)
    requires AllDigits(s)
    ensures ParseIntOr(s, 0) == DigitsValue(s)
  {
    if s != [] {
      ParseIntOfDigits(s, []);
      assert s + [] == s;
    }
  }

  /** Once both inputs hold only digits the duration is the minutes they spell, never negative. */
  lemma DurationOfDigitInputs(hours: string, minutes: string)
    requires AllDigits(hours) && AllDigits(minutes)
    ensures DurationInMinutes(hours, minutes) == DigitsValue(hours) * 60 + DigitsValue(minutes)
    ensures DurationInMinutes(hours, minutes) >= 0
  {
    DigitTextValue(hours);
    DigitTextValue(minutes);
  }

  /**
   * `caloriesBurned`: 0 without a selection, a positive duration or a positive weight;
   * otherwise the rounded MET x kilograms x hours.
   */
  function CaloriesBurned(selected: Option<CustomActivity>, durationInMinutes: int, weightLbs: real): (r: int)
    ensures selected.None? || durationInMinutes <= 0 || weightLbs <= 0.0 ==> r == 0
    ensures selected.Some? && durationInMinutes > 0 && weightLbs > 0.0 ==>
      var exact := selected.value.met * (weightLbs / 2.20462) * (durationInMinutes as real / 60.0);
      exact - 0.5 < r as real <= exact + 0.5
  {
    if selected.None? || durationInMinutes <= 0 || weightLbs <= 0.0 then 0
    else
      var weightInKg := weightLbs / 2.20462;
      var durationInHours := durationInMinutes as real / 60.0;
      Round(selected.value.met * weightInKg * durationInHours)
  }

  /** With a non-negative MET the estimate is never negative and grows with the duration. */
  lemma CaloriesGrowWithDuration(activity: CustomActivity, d1: int, d2: int, weightLbs: real)
    requires activity.met >= 0.0 && 0 < d1 <= d2
    ensures 0 <= CaloriesBurned(Some(activity), d1, weightLbs) <= CaloriesBurned(Some(activity), d2, weightLbs)
  {
    if weightLbs > 0.0 {
      var kg := weightLbs / 2.20462;
      var e1 := activity.met * kg * (d1 as real / 60.0);
      var e2 := activity.met * kg * (d2 as real / 60.0);
      assert activity.met * kg >= 0.0;
      assert 0.0 <= e1 <= e2 by {
        MultiplyMonotone(activity.met * kg, d1 as real / 60.0, d2 as real / 60.0);
      }
      RoundMonotone(0.0, e1);
      RoundMonotone(e1, e2);
    }
  }

  lemma MultiplyMonotone(k: real, x: real, y: real)
    requires k >= 0.0 && 0.0 <= x <= y
    ensures 0.0 <= k * x <= k * y
  {
  }

  const DefaultEmoji: string := "\U{1F3C3}"

  class LogActivityForm {
    var selectedActivity: Option<CustomActivity>
    var hours: string
    var minutes: string
    var isModalOpen: bool
    var newType: string
    var newEmoji: string
    var newMet: string

    constructor ()
      ensures selectedActivity.None? && hours == "" && minutes == "" && !isModalOpen
      ensures newType == "" && newEmoji == DefaultEmoji && newMet == ""
    {
      selectedActivity := None;
      hours := "";
      minutes := "";
      isModalOpen := false;
      newType := "";
      newEmoji := DefaultEmoji;
      newMet := "";
    }

    predicate DigitInputs()
      reads this
    {
      AllDigits(hours) && AllDigits(minutes)
    }

    function Duration(): int
      reads this
    {
      DurationInMinutes(hours, minutes)
    }

    /** Tapping an activity selects it. */
    method Select(activity: CustomActivity)
      modifies this
      ensures selectedActivity == Some(activity)
      ensures hours == old(hours) && minutes == old(minutes) && isModalOpen == old(isModalOpen)
      ensures newType == old(newType) && newEmoji == old(newEmoji) && newMet == old(newMet)
    {
      selectedActivity := Some(activity);
    }

    /** The hours input keeps only the digits of what is typed. */
    method SetHours(text: string)
      modifies this
      ensures hours == DigitsOnly(text) && minutes == old(minutes) && selectedActivity == old(selectedActivity)
      ensures old(DigitInputs()) ==> DigitInputs()
      ensures isModalOpen == old(isModalOpen) && newType == old(newType) && newEmoji == old(newEmoji) && newMet == old(newMet)
    {
      hours := DigitsOnly(text);
    }

    /** The minutes input keeps only the digits of what is typed. */
    method SetMinutes(text: string)
      modifies this
      ensures minutes == DigitsOnly(text) && hours == old(hours) && selectedActivity == old(selectedActivity)
      ensures old(DigitInputs()) ==> DigitInputs()
      ensures isModalOpen == old(isModalOpen) && newType == old(newType) && newEmoji == old(newEmoji) && newMet == old(newMet)
    {
      minutes := DigitsOnly(text);
    }

    /**
     * `handleLog`: refused without a selection or with a duration that is not positive;
     * otherwise the activity, named after its type and dated today, goes through the
     * store's log path.
     */
    method HandleLog(store: Store.AppStore, today: string, yesterday: string) returns (logged: bool)
      requires store.Valid()
      modifies store
      ensures logged <==> selectedActivity.Some? && Duration() > 0
      ensures !logged ==> store.usersData == old(store.usersData)
      ensures logged ==>
        var a := selectedActivity.value;
        var activity := Activity(a.activityType, a.activityType, Duration(),
                                 CaloriesBurned(selectedActivity, Duration(), old(store.CurrentWeight())), today);
        store.usersData == Store.UpdatedUsers(old(store.usersData), old(store.CurrentKey()),
          (ud: UserData) => Reducers.HandleLog(ud, Reducers.ActivityEntry(activity), today, yesterday))
      ensures store.currentUserId == old(store.currentUserId) && store.Valid()
    {
      var duration := DurationInMinutes(hours, minutes);
      if selectedActivity.None? || duration <= 0 {
        return false;
      }
      var calories := CaloriesBurned(selectedActivity, duration, store.CurrentWeight());
      var a := selectedActivity.value;
      store.HandleActivityLogged(Activity(a.activityType, a.activityType, duration, calories, today), today, yesterday);
      logged := true;
    }

    method OpenModal()
      modifies this
      ensures isModalOpen
      ensures selectedActivity == old(selectedActivity) && hours == old(hours) && minutes == old(minutes)
      ensures newType == old(newType) && newEmoji == old(newEmoji) && newMet == old(newMet)
    {
      isModalOpen := true;
    }

    /** `handleCloseModal`: close and reset the new-activity fields. */
    method CloseModal()
      modifies this
      ensures !isModalOpen && newType == "" && newEmoji == DefaultEmoji && newMet == ""
      ensures selectedActivity == old(selectedActivity) && hours == old(hours) && minutes == old(minutes)
    {
      isModalOpen := false;
      newType := "";
      newEmoji := DefaultEmoji;
      newMet := "";
    }

    /**
     * `handleSaveNewActivity`: `parsedMet` is `parseFloat` of the MET text (`None` for
     * `NaN`).  Saved, with the trimmed name, only when that name and the emoji are not
     * empty and the MET is a positive number; then the form closes and resets.
     */
    method SaveNewActivity(store: Store.AppStore, parsedMet: Option<real>) returns (saved: bool)
      requires store.Valid()
      modifies this, store
      ensures saved <==> ValidNewActivity(old(newType), old(newEmoji), parsedMet)
      ensures saved ==> store.usersData == Store.UpdatedUsers(old(store.usersData), old(store.CurrentKey()),
        (ud: UserData) => ud.(customActivities := ud.customActivities + [CustomActivity(Trim(old(newType)), old(newEmoji), parsedMet.value)]))
      ensures saved ==> !isModalOpen && newType == "" && newEmoji == DefaultEmoji && newMet == ""
      ensures !saved ==> store.usersData == old(store.usersData) && isModalOpen == old(isModalOpen)
                         && newType == old(newType) && newEmoji == old(newEmoji) && newMet == old(newMet)
      ensures selectedActivity == old(selectedActivity) && hours == old(hours) && minutes == old(minutes)
      ensures store.currentUserId == old(store.currentUserId) && store.Valid()
    {
      if !ValidNewActivity(newType, newEmoji, parsedMet) {
        return false;
      }
      store.HandleCustomActivityAdd(CustomActivity(Trim(newType), newEmoji, parsedMet.value));
      CloseModal();
      saved := true;
    }
  }

  /** A custom activity needs a name that is not blank, an emoji and a positive MET. */
  predicate ValidNewActivity(name: string, emoji: string, met: Option<real>) {
    Trim(name) != [] && emoji != [] && met.Some? && met.value > 0.0
  }

  /** A saved custom activity is offered after the built-in ones and has a positive MET. */
  lemma SavedActivityIsOffered(custom: seq<CustomActivity>, name: string, emoji: string, met: Option<real>)
    requires ValidNewActivity(name, emoji, met)
    ensures var a := CustomActivity(Trim(name), emoji, met.value);
      var offered := AllActivities(custom + [a]);
      offered[|offered| - 1] == a && a.met > 0.0 && a.activityType != []
  {
  }
}
