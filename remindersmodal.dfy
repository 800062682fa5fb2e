/**
 * The reminders dialog: a local copy of the five reminder slots that the rows edit
 * one field at a time, reset whenever the stored reminders change, and saved as a
 * whole before the dialog closes.  The browser's notification permission is an input.
 */
module RemindersModal {
  import opened Types
  import Store

  datatype Permission = PermissionDefault | PermissionGranted | PermissionDenied

  /** The one field a row's control changes: the time box or the on/off switch. */
  datatype ReminderEdit = EditTime(time: string) | EditEnabled(enabled: bool)

  /** `{ ...prev[type], ...newSettings }` for the field an edit carries. */
  function Merge(r: Reminder, edit: ReminderEdit): (m: Reminder)
    ensures edit.EditTime? ==> m.time == edit.time && m.enabled == r.enabled
    ensures edit.EditEnabled? ==> m.enabled == edit.enabled && m.time == r.time
  {
    match edit
    case EditTime(t) => r.(time := t)
    case EditEnabled(e) => r.(enabled := e)
  }

  /** The rows with their icons, in the order they are listed. */
  const Rows: seq<(ReminderType, string)> := [
    (BreakfastReminder, "\U{1F95E}"), (LunchReminder, "\U{1F957}"), (DinnerReminder, "\U{1F372}"),
    (SnacksReminder, "\U{1F34E}"), (WaterReminder, "\U{1F4A7}")
  ]

  /** The dialog lists the reminder types in the order the reminder timer visits them (each once). */
  lemma RowsListEveryTypeOnce()
    ensures |Rows| == |ReminderTypes|
    ensures forall i :: 0 <= i < |Rows| ==> Rows[i].0 == ReminderTypes[i]
  {
  }

  /** A control of the row for `t` is usable: nothing when permission is denied, the time box only when on. */
  predicate ControlEnabled(settings: ReminderSettings, permission: Permission, t: ReminderType, edit: ReminderEdit) {
    permission != PermissionDenied && (edit.EditTime? ==> settings.Get(t).enabled)
  }

  class ReminderDialog {
    var localSettings: ReminderSettings
    var permission: Permission

    constructor (reminders: ReminderSettings)
      ensures localSettings == reminders && permission == PermissionDefault
    {
      localSettings := reminders;
      permission := PermissionDefault;
    }

    /** The stored reminders changed: the local copy starts over from them. */
    method RemindersChanged(reminders: ReminderSettings)
      modifies this
      ensures localSettings == reminders && permission == old(permission)
    {
      localSettings := reminders;
    }

    /** The permission read from the browser when the dialog opens, or returned by a request. */
    method PermissionRead(p: Permission)
      modifies this
      ensures permission == p && localSettings == old(localSettings)
    {
      permission := p;
    }

    /**
     * `handleSettingChange` behind its control: a usable control merges its one field
     * into its own reminder; every other reminder, and a disabled control, changes nothing.
     */
    method Change(t: ReminderType, edit: ReminderEdit)
      modifies this
      ensures ControlEnabled(old(localSettings), permission, t, edit) ==>
        localSettings.Get(t) == Merge(old(localSettings).Get(t), edit)
      ensures !ControlEnabled(old(localSettings), permission, t, edit) ==> localSettings == old(localSettings)
      ensures forall u :: u != t ==> localSettings.Get(u) == old(localSettings).Get(u)
      ensures permission == old(permission)
    {
      if ControlEnabled(localSettings, permission, t, edit) {
        localSettings := localSettings.With(t, Merge(localSettings.Get(t), edit));
      }
    }

    /** `handleSave` behind its button: the whole local copy is stored, then the dialog closes; disabled when permission is denied. */
    method Save(store: Store.AppStore) returns (saved: bool)
      requires store.Valid()
      modifies store
      ensures saved <==> permission != PermissionDenied
      ensures saved ==> var settings := localSettings;
        store.usersData == Store.UpdatedUsers(old(store.usersData), old(store.CurrentKey()),
          (ud: UserData) => ud.(reminders := settings)) && !store.isRemindersModalOpen
      ensures !saved ==> store.usersData == old(store.usersData) && store.isRemindersModalOpen == old(store.isRemindersModalOpen)
      ensures store.currentUserId == old(store.currentUserId) && store.Valid()
    {
      if permission == PermissionDenied {
        return false;
      }
      var settings := localSettings;
      store.HandleRemindersUpdate(settings);
      store.CloseRemindersModal();
      saved := true;
    }
  }

  /** Switching a reminder off and on again restores it, whatever its time. */
  lemma OffThenOnRestores(settings: ReminderSettings, t: ReminderType)
    requires settings.Get(t).enabled
    ensures var off := settings.With(t, Merge(settings.Get(t), EditEnabled(false)));
      off.With(t, Merge(off.Get(t), EditEnabled(true))) == settings
  {
    var off := settings.With(t, Merge(settings.Get(t), EditEnabled(false)));
    var back := off.With(t, Merge(off.Get(t), EditEnabled(true)));
    assert forall u :: back.Get(u) == settings.Get(u);
    match t
    case BreakfastReminder =>
    case LunchReminder =>
    case DinnerReminder =>
    case SnacksReminder =>
    case WaterReminder =>
  }
}
