/**
 * The profile editor: a copy of the signed-in user's profile that the inputs edit
 * field by field, saved as a whole through the store's profile update (which also
 * recomputes the macro goals).
 */
module ProfileEditor {
  import opened Types
  import opened Numeric
  import Units
  import Reducers
  import Nutrition
  import Store
  import Onboarding

  class ProfileForm {
    var profile: UserProfile

    /** The editor starts from the profile the context offers. */
    constructor (store: Store.AppStore)
      ensures profile == store.ProfileOrDefault()
    {
      profile := store.ProfileOrDefault();
    }

    /** The name box copies the text as typed. */
    method SetName(value: string)
      modifies this
      ensures profile == old(profile).(name := value)
    {
      profile := profile.(name := value);
    }

    /** An avatar button: the picked emoji replaces the avatar. */
    method SetAvatar(avatar: string)
      modifies this
      ensures profile == old(profile).(avatar := avatar)
    {
      profile := profile.(avatar := avatar);
    }

    /** The age box: `parseInt(text) || 0`. */
    method SetAge(text: string)
      modifies this
      ensures profile == old(profile).(age := ParseIntOr(text, 0))
      ensures ParseInt(text).None? ==> profile.age == 0
    {
      profile := profile.(age := ParseIntOr(text, 0));
    }

    method SetGender(g: Gender)
      modifies this
      ensures profile == old(profile).(gender := g)
    {
      profile := profile.(gender := g);
    }

    method SetActivityLevel(level: ActivityLevel)
      modifies this
      ensures profile == old(profile).(activityLevel := level)
    {
      profile := profile.(activityLevel := level);
    }

    method SetPrimaryGoal(goal: PrimaryGoal)
      modifies this
      ensures profile == old(profile).(primaryGoal := goal)
    {
      profile := profile.(primaryGoal := goal);
    }

    method SetUnitSystem(u: UnitSystem)
      modifies this
      ensures profile == old(profile).(unitSystem := u)
    {
      profile := profile.(unitSystem := u);
    }

    /** `handleHeightChange('feet', text)`: new feet, the inches part kept. */
    method SetFeet(text: string)
      modifies this
      ensures profile == old(profile).(height := Onboarding.WithFeet(old(profile.height), ParseIntOr(text, 0)))
      ensures profile.height == ParseIntOr(text, 0) as real * 12.0 + Rem12(old(profile.height))
    {
      profile := profile.(height := Onboarding.WithFeet(profile.height, ParseIntOr(text, 0)));
    }

    /** `handleHeightChange('inches', text)`: the feet part kept, new inches. */
    method SetInches(text: string)
      modifies this
      ensures profile == old(profile).(height := Onboarding.WithInches(old(profile.height), ParseIntOr(text, 0)))
      ensures profile.height == (old(profile.height) / 12.0).Floor as real * 12.0 + ParseIntOr(text, 0) as real
    {
      profile := profile.(height := Onboarding.WithInches(profile.height, ParseIntOr(text, 0)));
    }

    /** The centimetre box (metric): whole centimetres converted back to inches. */
    method SetHeightCm(text: string)
      modifies this
      ensures profile == old(profile).(height := Units.CmToInches(ParseIntOr(text, 0) as real))
    {
      profile := profile.(height := Units.CmToInches(ParseIntOr(text, 0) as real));
    }

    /** `handleSave`: the whole edited profile goes to the store. */
    method Save(store: Store.AppStore)
      requires store.Valid()
      modifies store
      ensures var edited := profile;
        store.usersData == Store.UpdatedUsers(old(store.usersData), old(store.CurrentKey()),
          (ud: UserData) => Reducers.UpdateProfile(ud, edited))
      ensures store.currentUserId == old(store.currentUserId) && store.Valid()
    {
      store.HandleProfileUpdate(profile);
    }
  }

  /**
   * After a save the signed-in user holds the edited profile and goals recomputed for
   * it, at the last recorded weight or 150 lb when there is none.
   */
  lemma SavedProfileRecomputesGoals(ud: UserData, edited: UserProfile)
    ensures var r := Reducers.UpdateProfile(ud, edited);
      && r.profile == edited && r.page == Settings
      && r.macroGoals == Nutrition.CalculateGoals(edited, Reducers.LastWeightOr(ud.weightHistory, 150.0))
      && r.loggedMeals == ud.loggedMeals && r.weightHistory == ud.weightHistory
  {
  }
}
