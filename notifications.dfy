/**
 * The body of the reminder timer: each tick compares every reminder of the current
 * user with the wall-clock time and notifies a type at most once per date.  The
 * record of which date each type last fired on is shared by all users and is never
 * cleared.
 */
module Notifications {
  import opened Types
  import opened Numeric

  datatype Notification = Notification(reminderType: ReminderType, title: string, body: string)

  /** `String(n).padStart(2, '0')`. */
  function Pad2(n: int): (s: string)
    ensures |s| >= 2
    ensures 0 <= n < 10 ==> s == ['0', DigitChar(n)]
    ensures 10 <= n < 100 ==> s == [DigitChar(n / 10), DigitChar(n % 10)]
    ensures 0 <= n < 100 ==> AllDigits(s) && DigitsValue(s) == n
  {
    var t := IntToString(n);
    assert 10 <= n < 100 ==> t == NatToString(n / 10) + [DigitChar(n % 10)];
    var s := if |t| >= 2 then t else "0" + t;
    if 0 <= n < 100 then TwoDigitsValue(s); s else s
  }

  /** Two digits read as tens and units. */
  lemma TwoDigitsValue(s: string)
    requires |s| == 2 && IsDigit(s[0]) && IsDigit(s[1])
    ensures AllDigits(s) && DigitsValue(s) == DigitValue(s[0]) * 10 + DigitValue(s[1])
  {
    var first := s[..1];
    assert first[..0] == [] && first[0] == s[0] && AllDigits(first);
    assert DigitsValue(first) == DigitValue(s[0]);
    assert s[..|s| - 1] == first;
  }

  /**
   * The `HH:MM` text a reminder time is compared with: for an hour and a minute
   * below 100, two digits reading as the hour, a colon, two digits reading as the minute.
   */
  function ClockText(hour: int, minute: int): (s: string)
    ensures 0 <= hour < 100 && 0 <= minute < 100 ==>
      && |s| == 5 && s[2] == ':'
      && AllDigits(s[..2]) && DigitsValue(s[..2]) == hour
      && AllDigits(s[3..]) && DigitsValue(s[3..]) == minute
  {
    var h, m := Pad2(hour), Pad2(minute);
    if |h| == 2 then SplitClock(h, m); h + ":" + m else h + ":" + m
  }

  lemma SplitClock(h: string, m: string)
    requires |h| == 2
    ensures (h + ":" + m)[..2] == h && (h + ":" + m)[2] == ':' && (h + ":" + m)[3..] == m
  {
  }

  /** Different times of day never share a clock text, so a reminder matches one minute only. */
  lemma ClockTextInjective(h1: int, m1: int, h2: int, m2: int)
    requires 0 <= h1 < 100 && 0 <= m1 < 100 && 0 <= h2 < 100 && 0 <= m2 < 100
    requires ClockText(h1, m1) == ClockText(h2, m2)
    ensures h1 == h2 && m1 == m2
  {
  }

  /** Single-digit fields are zero-padded: 8:05 reads `08:05`. */
  lemma ClockTextExample()
    ensures ClockText(8, 5) == "08:05"
  {
    assert Pad2(8) == "08" && Pad2(5) == "05";
  }

  /** The text of the notification for a type: water has its own, meals share one. */
  function NotificationFor(t: ReminderType): (n: Notification)
    ensures n.reminderType == t
  {
    if t == WaterReminder then
      Notification(t, "\U{1F4A7} Stay Hydrated!", "Time to log your water intake.")
    else
      Notification(t, "\U{1F37D}\U{FE0F} Meal Time!", "Don't forget to log your " + ReminderName(t) + ".")
  }

  /** A type is due when it is enabled, set to the current minute, and has not fired today. */
  predicate Due(reminders: ReminderSettings, lastNotified: map<ReminderType, string>,
                t: ReminderType, today: string, now: string) {
    reminders.Get(t).enabled && reminders.Get(t).time == now
    && !(t in lastNotified && lastNotified[t] == today)
  }

  /** The due types among `types`, in order. */
  function DueTypes(reminders: ReminderSettings, lastNotified: map<ReminderType, string>,
                    today: string, now: string, types: seq<ReminderType>): (r: seq<ReminderType>)
    ensures forall t :: t in r <==> t in types && Due(reminders, lastNotified, t, today, now)
    ensures |r| <= |types|
  {
    if types == [] then []
    else
      var init, last := types[..|types| - 1], types[|types| - 1];
      assert types == init + [last];
      DueTypes(reminders, lastNotified, today, now, init)
        + (if Due(reminders, lastNotified, last, today, now) then [last] else [])
  }

  /** The record after the types in `fired` fired on `today`. */
  function MarkFired(lastNotified: map<ReminderType, string>, fired: seq<ReminderType>, today: string)
    : (r: map<ReminderType, string>)
    ensures forall t :: t in fired ==> t in r && r[t] == today
    ensures forall t :: t !in fired ==> (t in r <==> t in lastNotified) && (t in r ==> r[t] == lastNotified[t])
  {
    lastNotified + map t | t in fired :: today
  }

  lemma DueTypesStep(reminders: ReminderSettings, lastNotified: map<ReminderType, string>,
                     today: string, now: string, types: seq<ReminderType>, t: ReminderType)
    ensures DueTypes(reminders, lastNotified, today, now, types + [t])
         == DueTypes(reminders, lastNotified, today, now, types)
            + (if Due(reminders, lastNotified, t, today, now) then [t] else [])
  {
    assert (types + [t])[..|types|] == types;
  }

  lemma MarkFiredStep(lastNotified: map<ReminderType, string>, fired: seq<ReminderType>, t: ReminderType, today: string)
    ensures MarkFired(lastNotified, fired + [t], today) == MarkFired(lastNotified, fired, today)[t := today]
  {
  }

  /** One step of a tick: how the due list, the notifications and the record grow with the next type. */
  lemma FireStep(reminders: ReminderSettings, lastNotified: map<ReminderType, string>, today: string, now: string,
                 prefix: seq<ReminderType>, t: ReminderType, fired: seq<ReminderType>,
                 recorded: map<ReminderType, string>)
    requires fired == DueTypes(reminders, lastNotified, today, now, prefix)
    requires recorded == MarkFired(lastNotified, fired, today)
    requires t !in prefix
    ensures var due := reminders.Get(t).enabled && reminders.Get(t).time == now
                       && !(t in recorded && recorded[t] == today);
      && DueTypes(reminders, lastNotified, today, now, prefix + [t]) == fired + (if due then [t] else [])
      && Notify(fired + [t]) == Notify(fired) + [NotificationFor(t)]
      && MarkFired(lastNotified, fired + [t], today) == recorded[t := today]
  {
    DueTypesStep(reminders, lastNotified, today, now, prefix, t);
    MarkFiredStep(lastNotified, fired, t, today);
    NotifyStep(fired, t);
    assert t !in fired;
  }

  lemma NotifyStep(types: seq<ReminderType>, t: ReminderType)
    ensures Notify(types + [t]) == Notify(types) + [NotificationFor(t)]
  {
  }

  function Notify(types: seq<ReminderType>): (r: seq<Notification>)
    ensures |r| == |types| && forall i :: 0 <= i < |types| ==> r[i].reminderType == types[i]
  {
    seq(|types|, i requires 0 <= i < |types| => NotificationFor(types[i]))
  }

  /** A type fires at most once per date: a later tick on the same date never fires it again. */
  lemma AtMostOncePerDay(reminders: ReminderSettings, lastNotified: map<ReminderType, string>,
                         today: string, now: string, later: string, laterReminders: ReminderSettings)
    ensures var fired := DueTypes(reminders, lastNotified, today, now, ReminderTypes);
      forall t :: t in fired ==> t !in DueTypes(laterReminders, MarkFired(lastNotified, fired, today), today, later, ReminderTypes)
  {
  }

  /** On a new date the record does not block anything: every enabled type set to the minute fires. */
  lemma NewDayFiresAgain(reminders: ReminderSettings, lastNotified: map<ReminderType, string>,
                         today: string, now: string)
    requires forall t :: t in lastNotified ==> lastNotified[t] != today
    ensures forall t :: t in DueTypes(reminders, lastNotified, today, now, ReminderTypes)
                    <==> reminders.Get(t).enabled && reminders.Get(t).time == now
  {
    ReminderTypesComplete();
  }

  /** With every reminder disabled, as a new user's are, nothing ever fires. */
  lemma DisabledNeverFires(reminders: ReminderSettings, lastNotified: map<ReminderType, string>,
                           today: string, now: string)
    requires forall t :: !reminders.Get(t).enabled
    ensures DueTypes(reminders, lastNotified, today, now, ReminderTypes) == []
  {
    NothingDue(reminders, lastNotified, today, now, ReminderTypes);
  }

  lemma {:induction false} NothingDue(reminders: ReminderSettings, lastNotified: map<ReminderType, string>,
                                      today: string, now: string, types: seq<ReminderType>)
    requires forall t :: t in types ==> !Due(reminders, lastNotified, t, today, now)
    ensures DueTypes(reminders, lastNotified, today, now, types) == []
  {
    if types != [] {
      NothingDue(reminders, lastNotified, today, now, types[..|types| - 1]);
    }
  }
}
