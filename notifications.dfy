/** Notification planning and lifecycle. The platform's notification service
    is a `Scheduler` object holding the scheduled entries; the planner turns a
    reminder into the requests it schedules, and the lifecycle operations
    cancel and replan against the scheduler. */
module NotificationManager {
  import opened ReminderModel

  /** `NOTIFICATION_REPEAT_INTERVAL_MINUTES`, and the same interval in
      milliseconds and in seconds. */
  const RepeatIntervalMinutes: int := 1
  const RepeatMs: int := RepeatIntervalMinutes * MinuteMs
  const RepeatSeconds: int := RepeatIntervalMinutes * 60

  /** Number of overdue reminders of a one-shot reminder: one per interval
      up to and including 24 hours after the due time. */
  const OverdueCount: int := 1440

  /** Notification content; `reminderId` is `data.reminderId`, the tag by
      which a reminder's notifications are found again. */
  datatype Content = Content(title: string, body: string, reminderId: string)

  /** The trigger kinds the planner uses. */
  datatype Trigger =
    | AtDate(date: int)
    | DailyAt(hour: int, minute: int)
    | WeeklyAt(hour: int, minute: int, weekday: int)
    | MonthlyAt(hour: int, minute: int, day: int)
    | TimeInterval(seconds: int, repeats: bool)

  /** What `scheduleNotificationAsync` is given. */
  datatype Request = Request(content: Content, trigger: Trigger)

  /** A scheduled notification, with the identifier the service assigned. */
  datatype Entry = Entry(identifier: nat, request: Request)

  function Tag(q: Request): string {
    q.content.reminderId
  }

  // ---------------------------------------------------------------------
  // Sequences of requests and entries
  // ---------------------------------------------------------------------

  /** The requests of a sequence of entries, in order. */
  function Requests(es: seq<Entry>): (qs: seq<Request>)
    ensures |qs| == |es|
    ensures forall i :: 0 <= i < |es| ==> qs[i] == es[i].request
  {
    if es == [] then [] else [es[0].request] + Requests(es[1..])
  }

  lemma RequestsAppend(a: seq<Entry>, b: seq<Entry>)
    ensures Requests(a + b) == Requests(a) + Requests(b)
  {
    var whole, parts := Requests(a + b), Requests(a) + Requests(b);
    forall i | 0 <= i < |whole|
      ensures whole[i] == parts[i]
    {
      if i >= |a| {
        assert parts[i] == Requests(b)[i - |a|];
      }
    }
  }

  /** The requests not tagged `tag`, in order. */
  function DropTag(qs: seq<Request>, tag: string): seq<Request> {
    if qs == [] then []
    else if Tag(qs[0]) == tag then DropTag(qs[1..], tag)
    else [qs[0]] + DropTag(qs[1..], tag)
  }

  /** The requests tagged `tag`, in order. */
  function OnlyTag(qs: seq<Request>, tag: string): seq<Request> {
    if qs == [] then []
    else if Tag(qs[0]) == tag then [qs[0]] + OnlyTag(qs[1..], tag)
    else OnlyTag(qs[1..], tag)
  }

  /** Dropping a tag nobody carries changes nothing. */
  lemma {:induction false} DropTagNone(qs: seq<Request>, tag: string)
    requires forall q :: q in qs ==> Tag(q) != tag
    ensures DropTag(qs, tag) == qs
  {
    if qs != [] {
      assert qs[0] in qs && forall q :: q in qs[1..] ==> q in qs;
      DropTagNone(qs[1..], tag);
    }
  }

  /** Selecting a tag: everything when all carry it, nothing when none does. */
  lemma {:induction false} OnlyTagUniform(qs: seq<Request>, tag: string)
    ensures (forall q :: q in qs ==> Tag(q) == tag) ==> OnlyTag(qs, tag) == qs
    ensures (forall q :: q in qs ==> Tag(q) != tag) ==> OnlyTag(qs, tag) == []
  {
    if qs != [] {
      assert qs[0] in qs && forall q :: q in qs[1..] ==> q in qs;
      OnlyTagUniform(qs[1..], tag);
    }
  }

  lemma {:induction false} OnlyTagAppend(a: seq<Request>, b: seq<Request>, tag: string)
    ensures OnlyTag(a + b, tag) == OnlyTag(a, tag) + OnlyTag(b, tag)
  {
    if a == [] {
      assert a + b == b;
    } else {
      assert (a + b)[0] == a[0] && (a + b)[1..] == a[1..] + b;
      OnlyTagAppend(a[1..], b, tag);
      if Tag(a[0]) == tag {
        assert OnlyTag(a + b, tag) == [a[0]] + (OnlyTag(a[1..], tag) + OnlyTag(b, tag));
      }
    }
  }

  /** The entries not tagged `tag`: what is left once a reminder's
      notifications are cancelled. */
  function WithoutTag(es: seq<Entry>, tag: string): seq<Entry> {
    if es == [] then []
    else if Tag(es[0].request) == tag then WithoutTag(es[1..], tag)
    else [es[0]] + WithoutTag(es[1..], tag)
  }

  /** `WithoutTag` keeps exactly the entries with another tag. */
  lemma {:induction false} WithoutTagMembers(es: seq<Entry>, tag: string)
    ensures forall e :: e in WithoutTag(es, tag) <==> e in es && Tag(e.request) != tag
  {
    if es != [] {
      WithoutTagMembers(es[1..], tag);
    }
  }

  /** Dropping entries by tag drops their requests by tag. */
  lemma {:induction false} RequestsWithoutTag(es: seq<Entry>, tag: string)
    ensures Requests(WithoutTag(es, tag)) == DropTag(Requests(es), tag)
  {
    if es != [] {
      RequestsWithoutTag(es[1..], tag);
      assert Requests(es)[0] == es[0].request && Requests(es)[1..] == Requests(es[1..]);
      if Tag(es[0].request) != tag {
        RequestsAppend([es[0]], WithoutTag(es[1..], tag));
      }
    }
  }

  /** The entries tagged `tag`: `getAllScheduledNotificationsAsync()`
      filtered on `data.reminderId`. */
  function Tagged(es: seq<Entry>, tag: string): seq<Entry> {
    if es == [] then []
    else if Tag(es[0].request) == tag then [es[0]] + Tagged(es[1..], tag)
    else Tagged(es[1..], tag)
  }

  /** `Tagged` keeps exactly the entries with that tag. */
  lemma {:induction false} TaggedMembers(es: seq<Entry>, tag: string)
    ensures forall e :: e in Tagged(es, tag) <==> e in es && Tag(e.request) == tag
  {
    if es != [] {
      TaggedMembers(es[1..], tag);
    }
  }

  /** The entries whose identifier is not in `ids`. */
  function WithoutIdents(es: seq<Entry>, ids: set<nat>): seq<Entry> {
    if es == [] then []
    else if es[0].identifier in ids then WithoutIdents(es[1..], ids)
    else [es[0]] + WithoutIdents(es[1..], ids)
  }

  /** `WithoutIdents` keeps exactly the entries whose identifier is not in `ids`. */
  lemma {:induction false} WithoutIdentsMembers(es: seq<Entry>, ids: set<nat>)
    ensures forall e :: e in WithoutIdents(es, ids) <==> e in es && e.identifier !in ids
    ensures ids == {} ==> WithoutIdents(es, ids) == es
  {
    if es != [] {
      WithoutIdentsMembers(es[1..], ids);
    }
  }

  /** Cancelling identifiers one at a time is cancelling them together. */
  lemma {:induction false} WithoutIdentsStep(es: seq<Entry>, ids: set<nat>, x: nat)
    ensures WithoutIdents(WithoutIdents(es, ids), {x}) == WithoutIdents(es, ids + {x})
  {
    if es != [] {
      WithoutIdentsStep(es[1..], ids, x);
      if es[0].identifier !in ids {
        var w := WithoutIdents(es, ids);
        assert w == [es[0]] + WithoutIdents(es[1..], ids);
        assert w[0] == es[0] && w[1..] == WithoutIdents(es[1..], ids);
      }
    }
  }

  /** Removing by identifier removes by tag when exactly the tagged entries
      carry the identifiers removed. */
  lemma {:induction false} WithoutIdentsIsWithoutTag(es: seq<Entry>, ids: set<nat>, tag: string)
    requires forall e :: e in es ==> (e.identifier in ids <==> Tag(e.request) == tag)
    ensures WithoutIdents(es, ids) == WithoutTag(es, tag)
  {
    if es != [] {
      assert es[0] in es && forall e :: e in es[1..] ==> e in es;
      WithoutIdentsIsWithoutTag(es[1..], ids, tag);
    }
  }

  /** The identifiers in a sequence of entries. */
  function Idents(es: seq<Entry>): set<nat> {
    set e | e in es :: e.identifier
  }

  /** No identifier occurs twice. */
  predicate UniqueIdents(es: seq<Entry>) {
    forall i, j :: 0 <= i < j < |es| ==> es[i].identifier != es[j].identifier
  }

  /** With unique identifiers, the identifiers of the entries tagged `tag`
      pick out exactly the entries tagged `tag`. */
  lemma TaggedIdents(es: seq<Entry>, tag: string)
    requires UniqueIdents(es)
    ensures forall e :: e in es ==> (e.identifier in Idents(Tagged(es, tag)) <==> Tag(e.request) == tag)
  {
    TaggedMembers(es, tag);
    forall e | e in es && e.identifier in Idents(Tagged(es, tag))
      ensures Tag(e.request) == tag
    {
      var t :| t in Tagged(es, tag) && t.identifier == e.identifier;
      var i :| 0 <= i < |es| && es[i] == e;
      var j :| 0 <= j < |es| && es[j] == t;
      assert i == j;
    }
  }

  /** Entries stamped with consecutive identifiers from `n`. */
  function Stamp(qs: seq<Request>, n: nat): (r: seq<Entry>)
    ensures |r| == |qs|
    ensures forall i :: 0 <= i < |qs| ==> r[i] == Entry(n + i, qs[i])
    ensures Requests(r) == qs
  {
    if qs == [] then [] else [Entry(n, qs[0])] + Stamp(qs[1..], n + 1)
  }

  /** Stamped identifiers start at `n`. */
  lemma StampIdents(qs: seq<Request>, n: nat)
    ensures forall e :: e in Stamp(qs, n) ==> n <= e.identifier
  {
    forall e | e in Stamp(qs, n)
      ensures n <= e.identifier
    {
      var i :| 0 <= i < |qs| && Stamp(qs, n)[i] == e;
    }
  }

  lemma StampAppend(a: seq<Request>, b: seq<Request>, n: nat)
    ensures Stamp(a + b, n) == Stamp(a, n) + Stamp(b, n + |a|)
  {
    var whole, parts := Stamp(a + b, n), Stamp(a, n) + Stamp(b, n + |a|);
    forall i | 0 <= i < |whole|
      ensures whole[i] == parts[i]
    {
      if i >= |a| {
        assert parts[i] == Stamp(b, n + |a|)[i - |a|];
      }
    }
  }

  /** Scheduling one more request extends the stamped batch by one. */
  lemma StampSnoc(es: seq<Entry>, before: seq<Entry>, done: seq<Request>, q: Request, n: nat)
    requires before == es + Stamp(done, n)
    ensures before + [Entry(n + |done|, q)] == es + Stamp(done + [q], n)
  {
    StampAppend(done, [q], n);
    assert Stamp([q], n + |done|) == [Entry(n + |done|, q)];
  }

  // ---------------------------------------------------------------------
  // The planner
  // ---------------------------------------------------------------------

  /** The content every notification of `r` starts from. */
  function BaseContent(r: Reminder): Content {
    Content("Reminder: " + r.title, "This task is due!", r.id)
  }

  /** The base content with the overdue title and the given body; the spread
      keeps `data.reminderId`. */
  function OverdueContent(c: Content, title: string, body: string): Content {
    c.(title := "Overdue: " + title, body := body)
  }

  /** Overdue requests at `from`, `from + RepeatMs`, ... while not after `end`. */
  function OverdueRun(c: Content, from: int, end: int): seq<Request>
    decreases end - from + RepeatMs
  {
    if from > end then [] else [Request(c, AtDate(from))] + OverdueRun(c, from + RepeatMs, end)
  }

  /** One request per interval from `from` up to and including `end`. */
  lemma {:induction false} OverdueRunShape(c: Content, from: int, end: int)
    ensures |OverdueRun(c, from, end)| == if from > end then 0 else (end - from) / RepeatMs + 1
    ensures forall k :: 0 <= k < |OverdueRun(c, from, end)| ==>
      OverdueRun(c, from, end)[k] == Request(c, AtDate(from + k * RepeatMs))
    decreases end - from + RepeatMs
  {
    if from <= end {
      OverdueRunShape(c, from + RepeatMs, end);
      var run := OverdueRun(c, from, end);
      var rest := OverdueRun(c, from + RepeatMs, end);
      assert run == [Request(c, AtDate(from))] + rest;
      forall k | 1 <= k < |run|
        ensures run[k] == Request(c, AtDate(from + k * RepeatMs))
      {
        assert run[k] == rest[k - 1];
      }
    }
  }

  /** `scheduleOneTimeNotification`: one request at the due time, then the
      overdue requests up to 24 hours later. */
  function OneTimePlan(r: Reminder, c: Content): seq<Request> {
    [Request(c, AtDate(r.dueDate))]
      + OverdueRun(OverdueContent(c, r.title, "This task is overdue! Please complete it."),
                   r.dueDate + RepeatMs, r.dueDate + DayMs)
  }

  /** `calculateRecurringTrigger`: a calendar trigger at the due time of day,
      or nothing for a recurrence type the scheduler has no trigger for. */
  function CalculateRecurringTrigger(r: Reminder, clock: LocalClock): Option<Trigger> {
    if r.recurrence.None? then None
    else
      var due := r.dueDate;
      match r.recurrence.value
      case Daily => Some(DailyAt(clock.hours(due), clock.minutes(due)))
      case Weekly => Some(WeeklyAt(clock.hours(due), clock.minutes(due), clock.weekday(due) + 1))
      case Monthly => Some(MonthlyAt(clock.hours(due), clock.minutes(due), clock.dayOfMonth(due)))
      case Other => None
  }

  /** The fields of a calendar trigger are in their ranges. */
  lemma RecurringTriggerRanges(r: Reminder, clock: LocalClock)
    requires clock.Valid()
    ensures match CalculateRecurringTrigger(r, clock)
      case None => r.recurrence.None? || r.recurrence == Some(Other)
      case Some(t) =>
        && r.recurrence.Some? && r.recurrence.value != Other
        && 0 <= t.hour < 24 && 0 <= t.minute < 60
        && t.hour == clock.hours(r.dueDate) && t.minute == clock.minutes(r.dueDate)
        && (r.recurrence.value == Daily <==> t.DailyAt?)
        && (r.recurrence.value == Weekly <==> t.WeeklyAt?)
        && (r.recurrence.value == Monthly <==> t.MonthlyAt?)
        && (t.WeeklyAt? ==> 1 <= t.weekday <= 7 && t.weekday == clock.weekday(r.dueDate) + 1)
        && (t.MonthlyAt? ==> 1 <= t.day <= 31 && t.day == clock.dayOfMonth(r.dueDate))
  {
  }

  /** `scheduleRecurringNotification`: the calendar trigger and one repeating
      overdue trigger, or nothing without a calendar trigger. */
  function RecurringPlan(r: Reminder, c: Content, clock: LocalClock): seq<Request> {
    match CalculateRecurringTrigger(r, clock)
    case None => []
    case Some(t) =>
      [Request(c, t),
       Request(OverdueContent(c, r.title, "This recurring task is due! Please complete it."),
               TimeInterval(RepeatSeconds, true))]
  }

  /** What `scheduleNotification` schedules for `r` at time `now`. */
  function Plan(r: Reminder, now: int, clock: LocalClock): seq<Request> {
    if r.completed || r.dueDate <= now then []
    else if r.recurrence.Some? then RecurringPlan(r, BaseContent(r), clock)
    else OneTimePlan(r, BaseContent(r))
  }

  /** Every planned notification carries the reminder's id. */
  lemma PlanTagged(r: Reminder, now: int, clock: LocalClock)
    ensures forall q :: q in Plan(r, now, clock) ==> Tag(q) == r.id
  {
    var c := OverdueContent(BaseContent(r), r.title, "This task is overdue! Please complete it.");
    OverdueRunShape(c, r.dueDate + RepeatMs, r.dueDate + DayMs);
  }

  /** Nothing is planned exactly when the reminder is completed, is not due in
      the future, or recurs by a type without a calendar trigger. */
  lemma PlanEmpty(r: Reminder, now: int, clock: LocalClock)
    ensures Plan(r, now, clock) == [] <==> r.completed || r.dueDate <= now || r.recurrence == Some(Other)
  {
  }

  /** A pending one-shot reminder: one trigger at the due time, then 1440
      overdue triggers a minute apart, strictly increasing, the last 24 hours
      after the due time. */
  lemma OneTimePlanShape(r: Reminder, now: int, clock: LocalClock)
    requires !r.completed && now < r.dueDate && r.recurrence.None?
    ensures var p := Plan(r, now, clock);
      && |p| == 1 + OverdueCount
      && p[0] == Request(BaseContent(r), AtDate(r.dueDate))
      && (forall k :: 1 <= k <= OverdueCount ==>
            p[k] == Request(BaseContent(r).(title := "Overdue: " + r.title, body := "This task is overdue! Please complete it."),
                            AtDate(r.dueDate + k * 60000)))
      && p[OverdueCount].trigger == AtDate(r.dueDate + DayMs)
      && (forall i, j :: 0 <= i < j < |p| ==> p[i].trigger.date < p[j].trigger.date)
  {
    var c := OverdueContent(BaseContent(r), r.title, "This task is overdue! Please complete it.");
    var run := OverdueRun(c, r.dueDate + RepeatMs, r.dueDate + DayMs);
    OverdueRunShape(c, r.dueDate + RepeatMs, r.dueDate + DayMs);
    var p := Plan(r, now, clock);
    assert p == [Request(BaseContent(r), AtDate(r.dueDate))] + run;
    assert |run| == OverdueCount;
    forall k | 1 <= k < |p|
      ensures p[k] == Request(c, AtDate(r.dueDate + k * 60000))
    {
      assert p[k] == run[k - 1];
    }
  }

  /** A pending reminder recurring daily, weekly or monthly: the calendar
      trigger with the base content and one repeating 60-second overdue
      trigger. */
  lemma RecurringPlanShape(r: Reminder, now: int, clock: LocalClock)
    requires !r.completed && now < r.dueDate
    requires r.recurrence.Some? && r.recurrence.value != Other
    ensures var p := Plan(r, now, clock);
      && |p| == 2
      && CalculateRecurringTrigger(r, clock).Some?
      && p[0] == Request(BaseContent(r), CalculateRecurringTrigger(r, clock).value)
      && p[1] == Request(BaseContent(r).(title := "Overdue: " + r.title, body := "This recurring task is due! Please complete it."),
                         TimeInterval(60, true))
  {
  }

  /** Replanning one reminder on top of the scheduled requests `acc`. */
  function Replan(acc: seq<Request>, r: Reminder, now: int, clock: LocalClock): seq<Request> {
    DropTag(acc, r.id) + Plan(r, now, clock)
  }

  /** Replanning each reminder of `rs` in turn, starting from nothing. */
  function ReplanAll(rs: seq<Reminder>, now: int, clock: LocalClock): seq<Request>
    decreases |rs|
  {
    if rs == [] then []
    else Replan(ReplanAll(rs[..|rs| - 1], now, clock), rs[|rs| - 1], now, clock)
  }

  /** The plans of the reminders of `rs`, concatenated. */
  function PlanEach(rs: seq<Reminder>, now: int, clock: LocalClock): seq<Request>
    decreases |rs|
  {
    if rs == [] then []
    else PlanEach(rs[..|rs| - 1], now, clock) + Plan(rs[|rs| - 1], now, clock)
  }

  predicate DistinctIds(rs: seq<Reminder>) {
    forall i, j :: 0 <= i < j < |rs| ==> rs[i].id != rs[j].id
  }

  /** Every request in `PlanEach(rs)` is tagged with the id of a reminder of `rs`. */
  lemma {:induction false} PlanEachTagged(rs: seq<Reminder>, now: int, clock: LocalClock)
    ensures forall q :: q in PlanEach(rs, now, clock) ==> exists i :: 0 <= i < |rs| && Tag(q) == rs[i].id
    decreases |rs|
  {
    if rs != [] {
      var n := |rs| - 1;
      PlanEachTagged(rs[..n], now, clock);
      PlanTagged(rs[n], now, clock);
      forall q | q in PlanEach(rs, now, clock)
        ensures exists i :: 0 <= i < |rs| && Tag(q) == rs[i].id
      {
        if q in PlanEach(rs[..n], now, clock) {
          var i :| 0 <= i < n && Tag(q) == rs[..n][i].id;
          assert rs[i] == rs[..n][i];
        } else {
          assert Tag(q) == rs[n].id;
        }
      }
    }
  }

  /** With distinct ids, replanning every reminder in turn leaves exactly the
      concatenation of their plans: no reminder's replan cancels another's. */
  lemma {:induction false} ReplanAllDistinct(rs: seq<Reminder>, now: int, clock: LocalClock)
    requires DistinctIds(rs)
    ensures ReplanAll(rs, now, clock) == PlanEach(rs, now, clock)
    decreases |rs|
  {
    if rs != [] {
      var n := |rs| - 1;
      var prefix := rs[..n];
      assert DistinctIds(prefix);
      ReplanAllDistinct(prefix, now, clock);
      PlanEachTagged(prefix, now, clock);
      forall q | q in PlanEach(prefix, now, clock)
        ensures Tag(q) != rs[n].id
      {
        var i :| 0 <= i < n && Tag(q) == prefix[i].id;
        assert prefix[i] == rs[i];
      }
      DropTagNone(PlanEach(prefix, now, clock), rs[n].id);
    }
  }

  /** With distinct ids, the requests of `PlanEach(rs)` tagged with the id
      of `rs[k]` are exactly the plan of `rs[k]`. */
  lemma {:induction false} PlanEachOwnPlan(rs: seq<Reminder>, now: int, clock: LocalClock, k: nat)
    requires DistinctIds(rs) && k < |rs|
    ensures OnlyTag(PlanEach(rs, now, clock), rs[k].id) == Plan(rs[k], now, clock)
    decreases |rs|
  {
    var n := |rs| - 1;
    var prefix := rs[..n];
    var last := rs[n];
    PlanTagged(last, now, clock);
    OnlyTagAppend(PlanEach(prefix, now, clock), Plan(last, now, clock), rs[k].id);
    OnlyTagUniform(Plan(last, now, clock), rs[k].id);
    if k == n {
      PlanEachTagged(prefix, now, clock);
      forall q | q in PlanEach(prefix, now, clock)
        ensures Tag(q) != last.id
      {
        var i :| 0 <= i < n && Tag(q) == prefix[i].id;
        assert prefix[i] == rs[i];
      }
      OnlyTagUniform(PlanEach(prefix, now, clock), last.id);
    } else {
      assert DistinctIds(prefix) && prefix[k] == rs[k];
      PlanEachOwnPlan(prefix, now, clock, k);
    }
  }

  /** With distinct ids, the requests tagged with one reminder's id after
      replanning all of them are exactly that reminder's plan. */
  lemma ReplanAllOwnPlan(rs: seq<Reminder>, now: int, clock: LocalClock, k: nat)
    requires DistinctIds(rs) && k < |rs|
    ensures OnlyTag(ReplanAll(rs, now, clock), rs[k].id) == Plan(rs[k], now, clock)
  {
    ReplanAllDistinct(rs, now, clock);
    PlanEachOwnPlan(rs, now, clock, k);
  }

  // ---------------------------------------------------------------------
  // The platform's notification service
  // ---------------------------------------------------------------------

  /** The scheduled notifications, each under a distinct identifier. */
  class Scheduler {
    var entries: seq<Entry>
    var nextId: nat

    ghost predicate Valid()
      reads this
    {
      && UniqueIdents(entries)
      && forall e :: e in entries ==> e.identifier < nextId
    }

    constructor ()
      ensures Valid() && entries == [] && nextId == 0
    {
      entries, nextId := [], 0;
    }

    /** `scheduleNotificationAsync`: add an entry under a fresh identifier. */
    method Schedule(q: Request) returns (identifier: nat)
      requires Valid()
      modifies this
      ensures Valid()
      ensures identifier == old(nextId) && nextId == old(nextId) + 1
      ensures entries == old(entries) + [Entry(identifier, q)]
    {
      identifier := nextId;
      entries := entries + [Entry(identifier, q)];
      nextId := nextId + 1;
    }

    /** `getAllScheduledNotificationsAsync`. */
    method GetAllScheduled() returns (es: seq<Entry>)
      ensures es == entries
    {
      es := entries;
    }

    /** `cancelScheduledNotificationAsync`: an unknown identifier is ignored. */
    method CancelScheduled(identifier: nat)
      requires Valid()
      modifies this
      ensures Valid() && nextId == old(nextId)
      ensures entries == WithoutIdents(old(entries), {identifier})
    {
      WithoutIdentsUnique(entries, {identifier});
      WithoutIdentsMembers(entries, {identifier});
      entries := WithoutIdents(entries, {identifier});
    }

    /** `cancelAllScheduledNotificationsAsync`. */
    method CancelAll()
      requires Valid()
      modifies this
      ensures Valid() && nextId == old(nextId) && entries == []
    {
      entries := [];
    }
  }

  /** Removing entries keeps the identifiers unique. */
  lemma {:induction false} WithoutIdentsUnique(es: seq<Entry>, ids: set<nat>)
    requires UniqueIdents(es)
    ensures UniqueIdents(WithoutIdents(es, ids))
  {
    if es != [] {
      var tail := es[1..];
      assert UniqueIdents(tail) by {
        forall i, j | 0 <= i < j < |tail|
          ensures tail[i].identifier != tail[j].identifier
        {
          assert tail[i] == es[i + 1] && tail[j] == es[j + 1];
        }
      }
      WithoutIdentsUnique(tail, ids);
      WithoutIdentsMembers(tail, ids);
      var rest := WithoutIdents(tail, ids);
      if es[0].identifier !in ids {
        var w := WithoutIdents(es, ids);
        assert w == [es[0]] + rest;
        forall i, j | 0 <= i < j < |w|
          ensures w[i].identifier != w[j].identifier
        {
          assert w[j] == rest[j - 1];
          if i == 0 {
            assert w[j] in tail;
            var k :| 0 <= k < |tail| && tail[k] == w[j];
            assert es[k + 1] == w[j];
          } else {
            assert w[i] == rest[i - 1];
          }
        }
      }
    }
  }

  // ---------------------------------------------------------------------
  // Lifecycle operations
  // ---------------------------------------------------------------------

  /** `cancelNotification`: cancel, one identifier at a time, every entry
      tagged `reminderId`. */
  method CancelNotification(s: Scheduler, reminderId: string)
    requires s.Valid()
    modifies s
    ensures s.Valid() && s.nextId == old(s.nextId)
    ensures s.entries == WithoutTag(old(s.entries), reminderId)
  {
    var scheduled := s.GetAllScheduled();
    var notifications := Tagged(scheduled, reminderId);
    ghost var cancelled: set<nat> := {};
    WithoutIdentsMembers(scheduled, cancelled);
    for i := 0 to |notifications|
      invariant s.Valid() && s.nextId == old(s.nextId)
      invariant cancelled == Idents(notifications[..i])
      invariant s.entries == WithoutIdents(scheduled, cancelled)
    {
      s.CancelScheduled(notifications[i].identifier);
      WithoutIdentsStep(scheduled, cancelled, notifications[i].identifier);
      assert notifications[..i + 1] == notifications[..i] + [notifications[i]];
      cancelled := cancelled + {notifications[i].identifier};
    }
    assert notifications[..|notifications|] == notifications;
    TaggedIdents(scheduled, reminderId);
    WithoutIdentsIsWithoutTag(scheduled, cancelled, reminderId);
  }

  /** One turn of the overdue loop moves one request from the run to the
      requests already scheduled. */
  lemma OverdueStep(done: seq<Request>, c: Content, time: int, end: int)
    requires time <= end
    ensures (done + [Request(c, AtDate(time))]) + OverdueRun(c, time + RepeatMs, end) == done + OverdueRun(c, time, end)
  {
    assert OverdueRun(c, time, end) == [Request(c, AtDate(time))] + OverdueRun(c, time + RepeatMs, end);
  }

  /** `scheduleOneTimeNotification`: the due-time request, then one overdue
      request per interval while `time <= endTime`. */
  method ScheduleOneTimeNotification(s: Scheduler, r: Reminder, content: Content)
    requires s.Valid()
    modifies s
    ensures s.Valid()
    ensures s.entries == old(s.entries) + Stamp(OneTimePlan(r, content), old(s.nextId))
    ensures s.nextId == old(s.nextId) + |OneTimePlan(r, content)|
  {
    ghost var es0, n0 := s.entries, s.nextId;
    var dueDate := r.dueDate;
    var _ := s.Schedule(Request(content, AtDate(dueDate)));
    var overdue := OverdueContent(content, r.title, "This task is overdue! Please complete it.");
    var endTime := dueDate + DayMs;
    var time := dueDate + RepeatMs;
    ghost var plan := OneTimePlan(r, content);
    ghost var done := [Request(content, AtDate(dueDate))];
    assert s.entries == es0 + Stamp(done, n0) by {
      StampSnoc(es0, es0, [], done[0], n0);
    }
    while time <= endTime
      invariant s.Valid()
      invariant done + OverdueRun(overdue, time, endTime) == plan
      invariant s.nextId == n0 + |done|
      invariant s.entries == es0 + Stamp(done, n0)
      decreases endTime - time
    {
      var q := Request(overdue, AtDate(time));
      ghost var before := s.entries;
      var identifier := s.Schedule(q);
      assert (done + [q]) + OverdueRun(overdue, time + RepeatMs, endTime) == plan by {
        OverdueStep(done, overdue, time, endTime);
      }
      StampSnoc(es0, before, done, q, n0);
      done := done + [q];
      time := time + RepeatMs;
    }
    assert OverdueRun(overdue, time, endTime) == [];
    assert done == plan;
  }

  /** `scheduleRecurringNotification`: nothing without a calendar trigger,
      otherwise the calendar request and then the repeating overdue one. */
  method ScheduleRecurringNotification(s: Scheduler, r: Reminder, content: Content, clock: LocalClock)
    requires s.Valid()
    modifies s
    ensures s.Valid()
    ensures s.entries == old(s.entries) + Stamp(RecurringPlan(r, content, clock), old(s.nextId))
    ensures s.nextId == old(s.nextId) + |RecurringPlan(r, content, clock)|
  {
    var trigger := CalculateRecurringTrigger(r, clock);
    if trigger.None? {
      return;
    }
    var _ := s.Schedule(Request(content, trigger.value));
    var followUp := TimeInterval(RepeatSeconds, true);
    var _ := s.Schedule(Request(OverdueContent(content, r.title, "This recurring task is due! Please complete it."), followUp));
  }

  /** `scheduleNotification`: cancel everything tagged with the reminder's
      id, then schedule its plan. Entries of other reminders stay as they
      were, and none of the reminder's earlier entries survives. */
  method ScheduleNotification(s: Scheduler, r: Reminder, now: int, clock: LocalClock)
    requires s.Valid()
    modifies s
    ensures s.Valid()
    ensures s.entries == WithoutTag(old(s.entries), r.id) + Stamp(Plan(r, now, clock), old(s.nextId))
    ensures s.nextId == old(s.nextId) + |Plan(r, now, clock)|
    ensures forall e :: e in s.entries && e in old(s.entries) ==> Tag(e.request) != r.id
    ensures forall tag :: tag != r.id ==> Tagged(s.entries, tag) == Tagged(old(s.entries), tag)
    ensures Requests(Tagged(s.entries, r.id)) == Plan(r, now, clock)
    ensures r.completed || r.dueDate <= now ==> Tagged(s.entries, r.id) == []
  {
    ScheduleEffect(s.entries, s.nextId, r, now, clock);
    CancelNotification(s, r.id);
    if r.completed {
      return;
    }
    if r.dueDate <= now {
      return;
    }
    var content := BaseContent(r);
    if r.recurrence.Some? {
      ScheduleRecurringNotification(s, r, content, clock);
    } else {
      ScheduleOneTimeNotification(s, r, content);
    }
  }

  /** Facts about the scheduler state `ScheduleNotification` leaves. */
  lemma ScheduleEffect(es: seq<Entry>, n: nat, r: Reminder, now: int, clock: LocalClock)
    requires forall e :: e in es ==> e.identifier < n
    ensures var after := WithoutTag(es, r.id) + Stamp(Plan(r, now, clock), n);
      && (forall e :: e in after && e in es ==> Tag(e.request) != r.id)
      && (forall tag :: tag != r.id ==> Tagged(after, tag) == Tagged(es, tag))
      && Requests(Tagged(after, r.id)) == Plan(r, now, clock)
  {
    var plan := Plan(r, now, clock);
    PlanTagged(r, now, clock);
    ReplaceNoStale(es, n, r.id, plan);
    ReplaceOtherTags(es, n, r.id, plan);
    ReplaceOwnTag(es, n, r.id, plan);
  }

  /** After replacing the entries tagged `id` by freshly stamped ones, none of
      the old entries tagged `id` is left. */
  lemma ReplaceNoStale(es: seq<Entry>, n: nat, id: string, plan: seq<Request>)
    requires forall e :: e in es ==> e.identifier < n
    ensures forall e :: e in WithoutTag(es, id) + Stamp(plan, n) && e in es ==> Tag(e.request) != id
  {
    WithoutTagMembers(es, id);
    StampIdents(plan, n);
  }

  /** Replacing the entries tagged `id` leaves every other tag's entries as they were. */
  lemma ReplaceOtherTags(es: seq<Entry>, n: nat, id: string, plan: seq<Request>)
    requires forall q :: q in plan ==> Tag(q) == id
    ensures forall tag :: tag != id ==> Tagged(WithoutTag(es, id) + Stamp(plan, n), tag) == Tagged(es, tag)
  {
    forall tag | tag != id
      ensures Tagged(WithoutTag(es, id) + Stamp(plan, n), tag) == Tagged(es, tag)
    {
      TaggedAppend(WithoutTag(es, id), Stamp(plan, n), tag);
      TaggedWithoutTag(es, id, tag);
      TaggedOfStamp(plan, n, tag);
      OnlyTagUniform(plan, tag);
    }
  }

  /** After the replacement, the entries tagged `id` carry exactly `plan`. */
  lemma ReplaceOwnTag(es: seq<Entry>, n: nat, id: string, plan: seq<Request>)
    requires forall q :: q in plan ==> Tag(q) == id
    ensures Requests(Tagged(WithoutTag(es, id) + Stamp(plan, n), id)) == plan
  {
    TaggedAppend(WithoutTag(es, id), Stamp(plan, n), id);
    TaggedWithoutTag(es, id, id);
    TaggedOfStamp(plan, n, id);
    OnlyTagUniform(plan, id);
  }

  lemma {:induction false} TaggedAppend(a: seq<Entry>, b: seq<Entry>, tag: string)
    ensures Tagged(a + b, tag) == Tagged(a, tag) + Tagged(b, tag)
  {
    if a == [] {
      assert a + b == b;
    } else {
      assert (a + b)[0] == a[0] && (a + b)[1..] == a[1..] + b;
      TaggedAppend(a[1..], b, tag);
      if Tag(a[0].request) == tag {
        assert Tagged(a + b, tag) == [a[0]] + (Tagged(a[1..], tag) + Tagged(b, tag));
      }
    }
  }

  /** Removing tag `a` leaves nothing tagged `a` and everything else tagged as before. */
  lemma {:induction false} TaggedWithoutTag(es: seq<Entry>, a: string, b: string)
    ensures Tagged(WithoutTag(es, a), b) == if a == b then [] else Tagged(es, b)
  {
    if es != [] {
      TaggedWithoutTag(es[1..], a, b);
      if Tag(es[0].request) != a {
        var w := WithoutTag(es, a);
        assert w == [es[0]] + WithoutTag(es[1..], a);
        assert w[0] == es[0] && w[1..] == WithoutTag(es[1..], a);
      }
    }
  }

  /** Stamped requests all tagged `a`: those tagged `tag` are all of them
      when `tag == a` and none otherwise. */
  lemma {:induction false} TaggedOfStamp(qs: seq<Request>, n: nat, a: string)
    ensures Requests(Tagged(Stamp(qs, n), a)) == OnlyTag(qs, a)
  {
    if qs != [] {
      var st := Stamp(qs, n);
      assert st[1..] == Stamp(qs[1..], n + 1);
      TaggedOfStamp(qs[1..], n + 1, a);
      if Tag(qs[0]) == a {
        RequestsAppend([st[0]], Tagged(st[1..], a));
      }
    }
  }

  /** `rescheduleAllNotifications`: cancel everything, then schedule each
      reminder in turn. */
  method RescheduleAllNotifications(s: Scheduler, rs: seq<Reminder>, now: int, clock: LocalClock)
    requires s.Valid()
    modifies s
    ensures s.Valid()
    ensures Requests(s.entries) == ReplanAll(rs, now, clock)
    ensures forall e :: e in s.entries ==> old(s.nextId) <= e.identifier
  {
    s.CancelAll();
    for i := 0 to |rs|
      invariant s.Valid() && old(s.nextId) <= s.nextId
      invariant Requests(s.entries) == ReplanAll(rs[..i], now, clock)
      invariant forall e :: e in s.entries ==> old(s.nextId) <= e.identifier
    {
      ghost var before, n := s.entries, s.nextId;
      ScheduleNotification(s, rs[i], now, clock);
      ghost var plan := Plan(rs[i], now, clock);
      RequestsAppend(WithoutTag(before, rs[i].id), Stamp(plan, n));
      RequestsWithoutTag(before, rs[i].id);
      WithoutTagMembers(before, rs[i].id);
      StampIdents(plan, n);
      assert rs[..i + 1][..i] == rs[..i];
    }
    assert rs[..|rs|] == rs;
  }
}
