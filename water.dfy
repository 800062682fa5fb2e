/**
 * The water history screen: a bar for each of the last seven days, oldest first, and
 * the list of days with a positive intake, newest first.  The text of the date `i`
 * days before today comes from the date helpers and is passed in as `dayText`.
 */
module WaterHistory {
  import Wrappers
  import opened Types
  import opened DateOrder
  import opened Reducers
  import Seqs

  datatype DayBar = DayBar(date: string, intake: real, goal: real)

  /** `last7DaysData`: for i from 6 down to 0, the date i days ago with its intake (0 when absent). */
  method Last7Days(history: DateTable, waterGoal: real, dayText: nat -> string) returns (data: seq<DayBar>)
    ensures |data| == 7
    ensures forall k :: 0 <= k < 7 ==> data[k] == DayBar(dayText(6 - k), AmountOn(history, dayText(6 - k)), waterGoal)
    ensures data[6].date == dayText(0)
  {
    data := [];
    var i := 6;
    while i >= 0
      invariant -1 <= i <= 6
      invariant |data| == 6 - i
      invariant forall k :: 0 <= k < |data| ==> data[k] == DayBar(dayText(6 - k), AmountOn(history, dayText(6 - k)), waterGoal)
    {
      var dateString := dayText(i);
      var intake := AmountOn(history, dateString);
      data := data + [DayBar(dateString, intake, waterGoal)];
      i := i - 1;
    }
  }

  datatype WaterEntry = WaterEntry(date: string, intake: real)

  function EntryDate(e: WaterEntry): string {
    e.date
  }

  /** `Object.entries(history).map(([date, intake]) => ({ date, intake }))`, in table order. */
  function Entries(history: DateTable): (r: seq<WaterEntry>)
    ensures |r| == |history|
    ensures forall k :: 0 <= k < |r| ==> r[k] == WaterEntry(history[k].0, history[k].1)
  {
    seq(|history|, k requires 0 <= k < |history| => WaterEntry(history[k].0, history[k].1))
  }

  /** The entries of a table are its pairs, as records. */
  lemma EntriesMembers(history: DateTable)
    ensures forall e :: e in Entries(history) <==> (e.date, e.intake) in history
  {
    var r := Entries(history);
    forall e: WaterEntry | (e.date, e.intake) in history
      ensures e in r
    {
      var k :| 0 <= k < |history| && history[k] == (e.date, e.intake);
      assert r[k] == e;
    }
  }

  /** The test `entry.intake > 0`. */
  function PositiveIntake(): WaterEntry -> bool {
    (e: WaterEntry) => e.intake > 0.0
  }

  /** The table's entries with a positive intake, in table order. */
  function Positive(history: DateTable): (r: seq<WaterEntry>)
    ensures forall e :: e in r <==> (e.date, e.intake) in history && e.intake > 0.0
  {
    EntriesMembers(history);
    Seqs.FilterMembers(Entries(history), PositiveIntake());
    Seqs.Filter(Entries(history), PositiveIntake())
  }

  /**
   * The filter keeps the table's order and multiplicity: it distributes over
   * concatenation and keeps one day exactly when its intake is positive.
   */
  lemma PositiveKeepsOrder(a: DateTable, b: DateTable, date: string, intake: real)
    ensures Positive(a + b) == Positive(a) + Positive(b)
    ensures Positive([(date, intake)]) == if intake > 0.0 then [WaterEntry(date, intake)] else []
  {
    assert Entries(a + b) == Entries(a) + Entries(b);
    Seqs.FilterAppend(Entries(a), Entries(b), PositiveIntake());
    assert Entries([(date, intake)]) == [WaterEntry(date, intake)];
    Seqs.FilterOne(WaterEntry(date, intake), PositiveIntake());
  }

  /** `loggedEntries`: the days with a positive intake, newest first. */
  function LoggedEntries(history: DateTable): seq<WaterEntry> {
    SortBy(Positive(history), EntryDate, true)
  }

  /**
   * The list is ordered newest first, holds exactly the table's positive entries, and
   * with one entry per date (as the store keeps it) names each such date once.
   */
  lemma LoggedEntriesProperties(history: DateTable)
    ensures SortedBy(LoggedEntries(history), EntryDate, true)
    ensures forall e :: e in LoggedEntries(history) <==> (e.date, e.intake) in history && e.intake > 0.0
    ensures forall e :: e in LoggedEntries(history) ==> e.intake > 0.0
  {
    SortBySorted(Positive(history), EntryDate, true);
    assert forall e :: e in LoggedEntries(history) <==> e in multiset(Positive(history));
  }

  /** A date whose intake is 0 or absent is never listed. */
  lemma ZeroDaysNotListed(history: DateTable, date: string)
    requires AmountOn(history, date) <= 0.0
    requires DistinctDates(history)
    ensures forall e :: e in LoggedEntries(history) ==> e.date != date
  {
    LoggedEntriesProperties(history);
    forall e | e in LoggedEntries(history)
      ensures e.date != date
    {
      if e.date == date {
        LookupFindsEntry(history, e.date, e.intake);
      }
    }
  }

  /** With one entry per date, an entry of the table is what the lookup finds. */
  lemma {:induction false} LookupFindsEntry(t: DateTable, date: string, v: real)
    requires DistinctDates(t) && (date, v) in t
    ensures Lookup(t, date) == Wrappers.Some(v)
  {
    if t[0] != (date, v) {
      assert (date, v) in t[1..];
      LookupFindsEntry(t[1..], date, v);
    }
  }
}
