/** The reminder store: one persisted list of reminders under a single key.
    Every mutation loads the whole list, transforms it and writes it back.
    The transformations are functions on `seq<Reminder>`; the store itself is
    a class whose one field is the persisted slot. */
module ReminderStorage {
  import opened ReminderModel

  /** What the storage key holds: nothing, something that cannot be read
      back as a list (a failed read or a failed parse), or a list. */
  datatype Slot = Absent | Unreadable | Present(list: seq<Reminder>)

  /** The list a read yields: the stored list, or the empty list when the
      key is absent, the stored value cannot be parsed, or `getItem` itself
      rejects (`readOk` false), whatever the slot holds. */
  function Load(slot: Slot, readOk: bool): seq<Reminder> {
    if readOk && slot.Present? then slot.list else []
  }

  // ---------------------------------------------------------------------
  // List transformations
  // ---------------------------------------------------------------------

  /** `reminders.map(x => x.id === u.id ? u : x)`. */
  function ReplaceById(rs: seq<Reminder>, u: Reminder): (r: seq<Reminder>)
    ensures |r| == |rs|
    ensures forall i :: 0 <= i < |rs| && rs[i].id == u.id ==> r[i] == u
    ensures forall i :: 0 <= i < |rs| && rs[i].id != u.id ==> r[i] == rs[i]
    ensures (forall i :: 0 <= i < |rs| ==> rs[i].id != u.id) ==> r == rs
  {
    if rs == [] then []
    else [if rs[0].id == u.id then u else rs[0]] + ReplaceById(rs[1..], u)
  }

  /** `reminders.filter(x => x.id !== id)`. */
  function RemoveById(rs: seq<Reminder>, id: string): (r: seq<Reminder>)
    ensures |r| <= |rs|
    ensures forall x :: x in r <==> x in rs && x.id != id
    ensures (forall i :: 0 <= i < |rs| ==> rs[i].id != id) ==> r == rs
  {
    if rs == [] then []
    else if rs[0].id == id then RemoveById(rs[1..], id)
    else [rs[0]] + RemoveById(rs[1..], id)
  }

  /** Removal works element by element, so the survivors keep their order. */
  lemma {:induction false} RemoveByIdAppend(a: seq<Reminder>, b: seq<Reminder>, id: string)
    ensures RemoveById(a + b, id) == RemoveById(a, id) + RemoveById(b, id)
  {
    if a != [] {
      assert (a + b)[0] == a[0] && (a + b)[1..] == a[1..] + b;
      RemoveByIdAppend(a[1..], b, id);
    } else {
      assert a + b == b;
    }
  }

  /** The reminder with `completed` set and `completedAt` stamped. */
  function Completed(x: Reminder, now: int): Reminder {
    x.(completed := true, completedAt := Some(now))
  }

  /** `reminders.map(x => x.id === id ? {...x, completed: true, completedAt: now} : x)`. */
  function CompleteById(rs: seq<Reminder>, id: string, now: int): (r: seq<Reminder>)
    ensures |r| == |rs|
    ensures forall i :: 0 <= i < |rs| && rs[i].id == id ==>
      r[i].completed && r[i].completedAt == Some(now) && r[i] == rs[i].(completed := true, completedAt := Some(now))
    ensures forall i :: 0 <= i < |rs| && rs[i].id != id ==> r[i] == rs[i]
  {
    if rs == [] then []
    else [if rs[0].id == id then Completed(rs[0], now) else rs[0]] + CompleteById(rs[1..], id, now)
  }

  /** `reminders.find(x => x.id === id)`: the first reminder with that id. */
  function FindById(rs: seq<Reminder>, id: string): (r: Option<Reminder>)
    ensures r.None? <==> forall i :: 0 <= i < |rs| ==> rs[i].id != id
    ensures r.Some? ==> r.value.id == id && exists i :: 0 <= i < |rs| && rs[i] == r.value && forall j :: 0 <= j < i ==> rs[j].id != id
  {
    if rs == [] then None
    else if rs[0].id == id then Some(rs[0])
    else
      var r := FindById(rs[1..], id);
      if r.Some? then
        var i :| 0 <= i < |rs[1..]| && rs[1..][i] == r.value && forall j :: 0 <= j < i ==> rs[1..][j].id != id;
        assert rs[i + 1] == r.value && forall j :: 0 <= j < i + 1 ==> rs[j].id != id;
        r
      else r
  }

  // ---------------------------------------------------------------------
  // Completion of one day of a recurring reminder
  // ---------------------------------------------------------------------

  /** A timestamp lies in the local day `[start, end]`. */
  predicate InDay(t: int, start: int, end: int) {
    start <= t <= end
  }

  /** Some completion entry lies in the day `[start, end]`. */
  predicate CompletedOnDay(dates: seq<int>, start: int, end: int) {
    exists i :: 0 <= i < |dates| && InDay(dates[i], start, end)
  }

  /** The completion entries outside the day `[start, end]`, in order. */
  function DropDay(dates: seq<int>, start: int, end: int): (r: seq<int>)
    ensures !CompletedOnDay(r, start, end)
    ensures forall d :: d in r <==> d in dates && !InDay(d, start, end)
    ensures !CompletedOnDay(dates, start, end) ==> r == dates
  {
    if dates == [] then []
    else if InDay(dates[0], start, end) then DropDay(dates[1..], start, end)
    else
      var tail := DropDay(dates[1..], start, end);
      assert !CompletedOnDay(dates, start, end) ==> !CompletedOnDay(dates[1..], start, end) by {
        if CompletedOnDay(dates[1..], start, end) {
          var i :| 0 <= i < |dates[1..]| && InDay(dates[1..][i], start, end);
          assert dates[i + 1] == dates[1..][i];
        }
      }
      [dates[0]] + tail
  }

  /** Dropping the day's entries works entry by entry. */
  lemma {:induction false} DropDayAppend(a: seq<int>, b: seq<int>, start: int, end: int)
    ensures DropDay(a + b, start, end) == DropDay(a, start, end) + DropDay(b, start, end)
  {
    if a != [] {
      assert (a + b)[0] == a[0] && (a + b)[1..] == a[1..] + b;
      DropDayAppend(a[1..], b, start, end);
      if !InDay(a[0], start, end) {
        assert DropDay(a + b, start, end) == [a[0]] + (DropDay(a[1..], start, end) + DropDay(b, start, end));
      }
    } else {
      assert a + b == b;
    }
  }

  /** The recurring branch of the toggle: drop every entry of the day if
      there is one, otherwise append `date`. */
  function ToggleDates(dates: seq<int>, date: int, start: int, end: int): seq<int> {
    if CompletedOnDay(dates, start, end) then DropDay(dates, start, end)
    else dates + [date]
  }

  /** The toggle flips "completed on that day" and never touches an entry
      outside the day. */
  lemma ToggleDatesFlips(dates: seq<int>, date: int, start: int, end: int)
    requires InDay(date, start, end)
    ensures CompletedOnDay(ToggleDates(dates, date, start, end), start, end) == !CompletedOnDay(dates, start, end)
    ensures forall d :: !InDay(d, start, end) ==> (d in ToggleDates(dates, date, start, end) <==> d in dates)
  {
    var r := ToggleDates(dates, date, start, end);
    if !CompletedOnDay(dates, start, end) {
      assert r[|dates|] == date;
    }
  }

  /** Two toggles of a day with no completion entry restore the entries. */
  lemma ToggleDatesRoundTrip(dates: seq<int>, date: int, start: int, end: int)
    requires InDay(date, start, end)
    requires !CompletedOnDay(dates, start, end)
    ensures ToggleDates(ToggleDates(dates, date, start, end), date, start, end) == dates
  {
    var once := dates + [date];
    assert once[|dates|] == date;
    DropDayAppend(dates, [date], start, end);
    assert DropDay([date], start, end) == [];
  }

  /** The reminder after toggling its completion for the day `[start, end]`
      holding `date`. */
  function ToggleReminder(x: Reminder, date: int, start: int, end: int): Reminder {
    if x.recurrence.Some? then
      x.(completedDates := Some(ToggleDates(x.completedDates.GetOr([]), date, start, end)))
    else
      x.(completed := !x.completed, completedAt := if !x.completed then Some(date) else None)
  }

  /** What the toggle does to each kind of reminder. */
  lemma ToggleReminderSpec(x: Reminder, date: int, start: int, end: int)
    requires InDay(date, start, end)
    ensures var t := ToggleReminder(x, date, start, end);
      && t.id == x.id
      && (x.recurrence.Some? ==>
            && t == x.(completedDates := t.completedDates)
            && t.completedDates.Some?
            && CompletedOnDay(t.completedDates.value, start, end) == !CompletedOnDay(x.completedDates.GetOr([]), start, end)
            && (CompletedOnDay(x.completedDates.GetOr([]), start, end) ==> t.completedDates.value == DropDay(x.completedDates.GetOr([]), start, end))
            && (!CompletedOnDay(x.completedDates.GetOr([]), start, end) ==> t.completedDates.value == x.completedDates.GetOr([]) + [date]))
      && (x.recurrence.None? ==>
            && t == x.(completed := t.completed, completedAt := t.completedAt)
            && t.completed == !x.completed
            && t.completedAt == (if t.completed then Some(date) else None))
  {
    ToggleDatesFlips(x.completedDates.GetOr([]), date, start, end);
  }

  /** Toggling twice with the same date undoes the first toggle: for a
      recurring reminder with no entry in that day (an absent list reads as
      empty), and for a single-shot reminder that was not completed. */
  lemma ToggleReminderRoundTrip(x: Reminder, date: int, start: int, end: int)
    requires InDay(date, start, end)
    requires x.recurrence.Some? ==> !CompletedOnDay(x.completedDates.GetOr([]), start, end)
    requires x.recurrence.None? ==> !x.completed && x.completedAt.None?
    ensures ToggleReminder(ToggleReminder(x, date, start, end), date, start, end)
         == x.(completedDates := if x.recurrence.Some? then Some(x.completedDates.GetOr([])) else x.completedDates)
  {
    if x.recurrence.Some? {
      ToggleDatesRoundTrip(x.completedDates.GetOr([]), date, start, end);
    }
  }

  /** The stored list after toggling reminder `id`: the first reminder with
      that id is toggled, and the result replaces every reminder with that id. */
  function ToggleInList(rs: seq<Reminder>, id: string, date: int, start: int, end: int): seq<Reminder> {
    match FindById(rs, id)
    case None => rs
    case Some(x) => ReplaceById(rs, ToggleReminder(x, date, start, end))
  }

  /** An unknown id leaves the list as it is; otherwise only the entries with
      that id change, each into the toggled first match. */
  lemma ToggleInListSpec(rs: seq<Reminder>, id: string, date: int, start: int, end: int)
    ensures var r := ToggleInList(rs, id, date, start, end);
      && |r| == |rs|
      && ((forall i :: 0 <= i < |rs| ==> rs[i].id != id) ==> r == rs)
      && (forall i :: 0 <= i < |rs| && rs[i].id != id ==> r[i] == rs[i])
      && (forall i :: 0 <= i < |rs| && rs[i].id == id ==>
            exists k :: 0 <= k < i + 1 && rs[k].id == id && (forall j :: 0 <= j < k ==> rs[j].id != id)
                    && r[i] == ToggleReminder(rs[k], date, start, end))
  {
    var f := FindById(rs, id);
    if f.Some? {
      var k :| 0 <= k < |rs| && rs[k] == f.value && forall j :: 0 <= j < k ==> rs[j].id != id;
      var t := ToggleReminder(f.value, date, start, end);
      assert t.id == id;
      forall i | 0 <= i < |rs| && rs[i].id == id
        ensures exists k :: 0 <= k < i + 1 && rs[k].id == id && (forall j :: 0 <= j < k ==> rs[j].id != id)
                        && ToggleInList(rs, id, date, start, end)[i] == ToggleReminder(rs[k], date, start, end)
      {
        assert k <= i;
        assert ToggleInList(rs, id, date, start, end)[i] == t;
      }
    }
  }

  /** Toggling through the store flips, for every reminder with the id,
      whether the first match counts as done on the local day of `date`:
      the day's entries for a recurring reminder, `completed` otherwise. */
  lemma ToggleInListFlips(rs: seq<Reminder>, id: string, date: int, clock: LocalClock)
    requires clock.Valid()
    requires FindById(rs, id).Some?
    ensures var x, start, end := FindById(rs, id).value, clock.dayStart(date), clock.dayEnd(date);
      var r := ToggleInList(rs, id, date, start, end);
      forall i :: 0 <= i < |rs| && rs[i].id == id ==>
        && (x.recurrence.Some? ==>
              r[i].completedDates.Some?
              && CompletedOnDay(r[i].completedDates.value, start, end) == !CompletedOnDay(x.completedDates.GetOr([]), start, end))
        && (x.recurrence.None? ==> r[i].completed == !x.completed)
  {
    var x, start, end := FindById(rs, id).value, clock.dayStart(date), clock.dayEnd(date);
    assert InDay(date, start, end);
    ToggleReminderSpec(x, date, start, end);
  }

  // ---------------------------------------------------------------------
  // The store
  // ---------------------------------------------------------------------

  /** The persisted reminder list under its one storage key. */
  class ReminderStore {
    var slot: Slot

    constructor ()
      ensures slot == Absent
    {
      slot := Absent;
    }

    /** `getReminders`: the stored list, or the empty list when the key is
        absent, the stored value cannot be parsed, or the read rejects
        (`readOk` false). A failed read yields the empty list even while a
        good list is stored. */
    method GetReminders(readOk: bool) returns (rs: seq<Reminder>)
      ensures readOk && slot.Present? ==> rs == slot.list
      ensures !readOk || !slot.Present? ==> rs == []
    {
      if !readOk {
        return [];
      }
      match slot
      case Present(list) => rs := list;
      case _ => rs := [];
    }

    /** `saveReminder`: append without any duplicate-id check. */
    method SaveReminder(r: Reminder, readOk: bool)
      modifies this
      ensures slot == Present(Load(old(slot), readOk) + [r])
    {
      var existing := GetReminders(readOk);
      slot := Present(existing + [r]);
    }

    /** `updateReminder`: replace every reminder with the same id. */
    method UpdateReminder(u: Reminder, readOk: bool)
      modifies this
      ensures slot == Present(ReplaceById(Load(old(slot), readOk), u))
    {
      var reminders := GetReminders(readOk);
      slot := Present(ReplaceById(reminders, u));
    }

    /** `toggleReminderCompletion`: nothing is written for an unknown id.
        It reads the list twice, once itself (`readOk`) and once inside
        `updateReminder` (`updateReadOk`); a failure of the second read
        writes the empty list. */
    method ToggleReminderCompletion(id: string, date: int, clock: LocalClock, readOk: bool, updateReadOk: bool)
      modifies this
      ensures FindById(Load(old(slot), readOk), id).None? ==> slot == old(slot)
      ensures FindById(Load(old(slot), readOk), id).Some? && updateReadOk ==>
        slot == Present(ToggleInList(Load(old(slot), true), id, date, clock.dayStart(date), clock.dayEnd(date)))
      ensures FindById(Load(old(slot), readOk), id).Some? && !updateReadOk ==> slot == Present([])
    {
      var reminders := GetReminders(readOk);
      var found := FindById(reminders, id);
      if found.None? {
        return;
      }
      var reminder := found.value;
      var startOfDay, endOfDay := clock.dayStart(date), clock.dayEnd(date);
      var updated: Reminder;
      if reminder.recurrence.Some? {
        var isCompleted := CompletedOnDay(reminder.completedDates.GetOr([]), startOfDay, endOfDay);
        var completedDates := reminder.completedDates.GetOr([]);
        if isCompleted {
          completedDates := DropDay(completedDates, startOfDay, endOfDay);
        } else {
          completedDates := completedDates + [date];
        }
        updated := reminder.(completedDates := Some(completedDates));
      } else {
        updated := reminder.(completed := !reminder.completed,
                             completedAt := if !reminder.completed then Some(date) else None);
      }
      UpdateReminder(updated, updateReadOk);
    }

    /** `completeReminder`, with the current time passed in as `now`. */
    method CompleteReminder(id: string, now: int, readOk: bool)
      modifies this
      ensures slot == Present(CompleteById(Load(old(slot), readOk), id, now))
    {
      var reminders := GetReminders(readOk);
      slot := Present(CompleteById(reminders, id, now));
    }

    /** `deleteReminder`: drop every reminder with the id. */
    method DeleteReminder(id: string, readOk: bool)
      modifies this
      ensures slot == Present(RemoveById(Load(old(slot), readOk), id))
    {
      var reminders := GetReminders(readOk);
      slot := Present(RemoveById(reminders, id));
    }
  }
}
