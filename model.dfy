/** The reminder record shared by the store and the notification planner,
    with timestamps as integer milliseconds since the epoch. */
module ReminderModel {

  datatype Option<+T> = None | Some(value: T) {
    /** The value, or `default` when absent (the source's `x || default`). */
    function GetOr(default: T): T {
      match this
      case Some(v) => v
      case None => default
    }
  }

  /** `recurrence.type`. `Other` stands for every value the notification
      planner does not recognise, 'custom' among them. */
  datatype RecType = Daily | Weekly | Monthly | Other

  /** A reminder as persisted. `recurrence` and `completedDates` are optional:
      a reminder without `recurrence` is single-shot and uses
      `completed`/`completedAt`; a recurring one keeps one timestamp per
      completed day in `completedDates`. */
  datatype Reminder = Reminder(
    id: string,
    title: string,
    dueDate: int,
    completed: bool,
    completedAt: Option<int>,
    createdAt: int,
    recurrence: Option<RecType>,
    completedDates: Option<seq<int>>)

  /** Milliseconds in one minute and in 24 hours. */
  const MinuteMs: int := 60000
  const DayMs: int := 86400000

  /** The host's local calendar, as seen through `Date`: the first and last
      millisecond of the local day holding an instant (`setHours(0, 0, 0, 0)`
      and `setHours(23, 59, 59, 999)`), and the local `getHours()`,
      `getMinutes()`, `getDay()` and `getDate()` of an instant. The time zone
      and its daylight-saving rules are not modelled: any clock meeting
      `Valid()` is admitted. */
  datatype LocalClock = LocalClock(
    dayStart: int -> int,
    dayEnd: int -> int,
    hours: int -> int,
    minutes: int -> int,
    weekday: int -> int,
    dayOfMonth: int -> int)
  {
    /** The range facts every local calendar satisfies. */
    ghost predicate Valid() {
      && (forall t :: dayStart(t) <= t)
      && (forall t :: t <= dayEnd(t))
      && (forall t :: 0 <= hours(t) < 24)
      && (forall t :: 0 <= minutes(t) < 60)
      && (forall t :: 0 <= weekday(t) < 7)
      && (forall t :: 1 <= dayOfMonth(t) <= 31)
    }
  }
}
