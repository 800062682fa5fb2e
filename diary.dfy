/** The diary's own state: the selected day, stepped by the arrow buttons, and the delete button. */
module Diary {
  import opened Types
  import opened Reducers
  import Store

  class DiaryView {
    var selectedDay: int

    constructor (today: int)
      ensures selectedDay == today
    {
      selectedDay := today;
    }

    /** `changeDate`: move the selected day by `amount` days. */
    method ChangeDate(amount: int)
      modifies this
      ensures selectedDay == old(selectedDay) + amount
    {
      selectedDay := selectedDay + amount;
    }
  }

  /** The current user's meal log as the context exposes it (empty when signed out). */
  function LoggedMeals(store: Store.AppStore): seq<Meal>
    reads store
  {
    match store.CurrentUser()
    case Some(ud) => ud.loggedMeals
    case None => []
  }

  /**
   * `handleDelete`: remove the meal at log index `index` when there is a meal there
   * and the user confirms; otherwise nothing changes.
   */
  method HandleDelete(store: Store.AppStore, index: int, confirmed: bool)
    requires store.Valid()
    modifies store
    ensures 0 <= index < |old(LoggedMeals(store))| && confirmed ==>
      store.usersData == Store.UpdatedUsers(old(store.usersData), old(store.CurrentKey()),
                                            (ud: UserData) => ud.(loggedMeals := RemoveAt(ud.loggedMeals, index)))
    ensures 0 <= index < |old(LoggedMeals(store))| && confirmed ==>
      LoggedMeals(store) == RemoveAt(old(LoggedMeals(store)), index)
    ensures !(0 <= index < |old(LoggedMeals(store))| && confirmed) ==> store.usersData == old(store.usersData)
    ensures store.currentUserId == old(store.currentUserId) && store.Valid()
  {
    var meals := LoggedMeals(store);
    if 0 <= index < |meals| && confirmed {
      store.HandleMealRemoved(index);
    }
  }
}
