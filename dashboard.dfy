/**
 * The dashboard's own state: the selected day, stepped one at a time by the arrow
 * buttons or by a horizontal swipe, and the water button that adds to the selected
 * day's intake.  The selected day is a day number; its `YYYY-MM-DD` text comes from
 * the date helpers, which are not part of this model, and is passed in where needed.
 */
module Dashboard {
  import opened Wrappers
  import opened Types
  import opened Reducers
  import Store

  /** The day step a finished swipe makes: more than 50 pixels to the right goes back a day, to the left forward. */
  function SwipeOffset(delta: real): (offset: int)
    ensures -1 <= offset <= 1
    ensures offset == 0 <==> -50.0 <= delta <= 50.0
    ensures offset == -1 <==> delta > 50.0
    ensures offset == 1 <==> delta < -50.0
  {
    if (if delta < 0.0 then -delta else delta) > 50.0 then
      if delta > 0.0 then -1 else 1
    else 0
  }

  /** Opposite swipes of the same length step in opposite directions. */
  lemma SwipeIsSymmetric(delta: real)
    ensures SwipeOffset(-delta) == -SwipeOffset(delta)
  {
  }

  class DashboardView {
    var selectedDay: int
    var touchStartX: real
    var touchDeltaX: real
    var isSwiping: bool

    constructor (today: int)
      ensures selectedDay == today && touchStartX == 0.0 && touchDeltaX == 0.0 && !isSwiping
    {
      selectedDay := today;
      touchStartX := 0.0;
      touchDeltaX := 0.0;
      isSwiping := false;
    }

    /** `changeDay`: move the selected day by `offset` days. */
    method ChangeDay(offset: int)
      modifies this
      ensures selectedDay == old(selectedDay) + offset
      ensures touchStartX == old(touchStartX) && touchDeltaX == old(touchDeltaX) && isSwiping == old(isSwiping)
    {
      selectedDay := selectedDay + offset;
    }

    method TouchStart(x: real)
      modifies this
      ensures touchStartX == x && isSwiping
      ensures selectedDay == old(selectedDay) && touchDeltaX == old(touchDeltaX)
    {
      touchStartX := x;
      isSwiping := true;
    }

    /** A move is measured from the start point; a touch that started at x = 0 is ignored. */
    method TouchMove(x: real)
      modifies this
      ensures old(touchStartX) == 0.0 ==> touchDeltaX == old(touchDeltaX)
      ensures old(touchStartX) != 0.0 ==> touchDeltaX == x - old(touchStartX)
      ensures selectedDay == old(selectedDay) && touchStartX == old(touchStartX) && isSwiping == old(isSwiping)
    {
      if touchStartX == 0.0 {
        return;
      }
      touchDeltaX := x - touchStartX;
    }

    /** Ending a touch applies the swipe rule to the distance moved, then clears the gesture. */
    method TouchEnd()
      modifies this
      ensures selectedDay == old(selectedDay) + SwipeOffset(old(touchDeltaX))
      ensures touchStartX == 0.0 && touchDeltaX == 0.0 && !isSwiping
    {
      var threshold := 50.0;
      if (if touchDeltaX < 0.0 then -touchDeltaX else touchDeltaX) > threshold {
        if touchDeltaX > 0.0 {
          ChangeDay(-1);
        } else {
          ChangeDay(1);
        }
      }
      touchStartX := 0.0;
      touchDeltaX := 0.0;
      isSwiping := false;
    }
  }

  /** The current user's water table as the context exposes it (empty when signed out). */
  function WaterHistory(store: Store.AppStore): DateTable
    reads store
  {
    match store.CurrentUser()
    case Some(ud) => ud.waterIntakeHistory
    case None => []
  }

  /** The water button: set the selected day's intake to what it was (0 if none) plus `amount`. */
  method AddWater(store: Store.AppStore, date: string, amount: real)
    requires store.Valid()
    modifies store
    ensures store.CurrentUser().Some? <==> old(store.CurrentUser()).Some?
    ensures store.CurrentUser().Some? ==>
      && AmountOn(WaterHistory(store), date) == AmountOn(old(WaterHistory(store)), date) + amount
      && forall d :: d != date ==> AmountOn(WaterHistory(store), d) == AmountOn(old(WaterHistory(store)), d)
    ensures store.currentUserId == old(store.currentUserId)
    ensures forall id :: id in old(store.usersData) && old(store.CurrentKey()) != Some(id) ==>
      id in store.usersData && store.usersData[id] == old(store.usersData[id])
    ensures store.usersData == Store.UpdatedUsers(old(store.usersData), old(store.CurrentKey()),
                                                  Store.SetWater(date, IntakePlus(old(WaterHistory(store)), date, amount)))
    ensures store.SessionUnchanged()
    ensures store.Valid()
  {
    ghost var before := WaterHistory(store);
    var total := IntakePlus(WaterHistory(store), date, amount);
    store.HandleWaterIntakeUpdate(date, total);
    AddWaterOnlyThatDay(before, date, amount);
  }
}
