# Reminders: store and notification planner, in Dafny

A model of the two utility modules at the heart of a personal reminders app:

- **The reminder store** (`utils/reminderStorage.ts`). All reminders live as one
  list under a single storage key. Each operation loads the whole list,
  transforms it and writes it back: append, replace by id, delete by id,
  mark complete, and toggle completion for a date. A single-shot reminder
  toggles a `completed` flag and a `completedAt` timestamp. A recurring one
  keeps a list `completedDates`. Toggling a date removes every entry inside
  that date's local day, or appends the date if there is none.
- **The notification planner** (`utils/notificationManager.ts`). It turns a
  reminder into tagged notification requests for the platform scheduler.
  Every request carries `data.reminderId`. It first cancels the reminder's
  old notifications. It plans nothing for a completed reminder or one not
  due in the future. A single-shot reminder gets one trigger at its due time,
  then one "Overdue" trigger every minute up to 24 hours later. A recurring
  reminder gets a daily, weekly or monthly calendar trigger plus one
  repeating 60-second "Overdue" trigger. `rescheduleAllNotifications` clears
  everything and replans every reminder.

Files:

- `model.dfy`, module `ReminderModel`: the `Reminder` record, with timestamps
  as integer milliseconds, and `LocalClock`. `LocalClock` is the host's local
  calendar: day bounds, hours, minutes, weekday and day of month. It is given
  as function values, and `Valid()` states their ranges.
- `storage.dfy`, module `ReminderStorage`: the list transformations as
  functions with their lemmas. `ReminderStore` is a class whose one field is
  the persisted slot, and its methods mirror the exported async functions.
- `notifications.dfy`, module `NotificationManager`: the `Scheduler` class
  stands for the platform notification service. It holds a sequence of
  entries, each an identifier plus a request (content and trigger). The
  planner is a set of functions (`Plan`, `OneTimePlan`, `RecurringPlan`,
  `CalculateRecurringTrigger`). The lifecycle operations are module-level
  methods that take the `Scheduler`, proved to leave the state those functions describe.

The `Reminder` interface in `types/reminder.ts` declares neither `recurrence` nor
`completedDates`. The store reads both; the planner reads only `recurrence`. The model adds them as optional
fields. `recurrence` is reduced to its type: `Daily`, `Weekly`, `Monthly`, or
`Other`. `Other` covers 'custom' and every other value, none of which has a
calendar trigger.

Three behaviours of the code worth knowing:

- A reminder whose due date is not after the current time gets no
  notifications at all, recurring or not (utils/notificationManager.ts:54-57).
- A recurrence type without a calendar trigger, 'custom' among them, gets
  nothing, not even the overdue trigger (utils/notificationManager.ts:119 and
  :177-178).
- The store module never touches the scheduler: deleting or completing a
  reminder leaves its scheduled notifications in place.

## Model

| member | source | states |
|---|---|---|
| `ReminderStorage.ReminderStore.GetReminders` | utils/reminderStorage.ts:17-24 | the stored list when one is present and the read succeeds; the empty list when the key is absent, the stored value cannot be parsed, or the read rejects, even while a good list is stored |
| `ReminderStorage.ReminderStore.SaveReminder` | utils/reminderStorage.ts:6-15 | the new stored list is the loaded one (empty if absent, unparsable or the read rejected) with the reminder appended last; there is no duplicate-id check |
| `ReminderStorage.ReplaceById` | utils/reminderStorage.ts:27-33 | same length; every element whose id matches becomes the given record, every other element is unchanged; an absent id changes nothing |
| `ReminderStorage.ReminderStore.UpdateReminder` | utils/reminderStorage.ts:27-38 | the stored list becomes `ReplaceById` of the loaded list, so a rejected read writes the empty list |
| `ReminderStorage.FindById` | utils/reminderStorage.ts:43-44 | `None` exactly when no reminder has the id; otherwise the first reminder with that id |
| `ReminderStorage.DropDay` | utils/reminderStorage.ts:59-64 | no entry of the result lies in the day; the result holds exactly the entries outside the day; with no entry in the day, nothing changes |
| `ReminderStorage.DropDayAppend` | utils/reminderStorage.ts:61-64 | the filter works entry by entry, so the surviving entries keep their order |
| `ReminderStorage.ToggleDatesFlips` | utils/reminderStorage.ts:51-68 | for a date inside the day, "completed on that day" flips, and entries outside the day are neither added nor removed |
| `ReminderStorage.ToggleDatesRoundTrip` | utils/reminderStorage.ts:53-68 | with no entry in the date's day, toggling twice restores the completion list exactly |
| `ReminderStorage.ToggleReminderSpec` | utils/reminderStorage.ts:46-76 | recurring: only `completedDates` changes; all of the day's entries are removed if there was one, else the date is appended; "completed that day" flips. Single-shot: `completed` flips, `completedAt` is the date when now completed and absent otherwise, nothing else changes |
| `ReminderStorage.ToggleReminderRoundTrip` | utils/reminderStorage.ts:51-76 | two toggles with one date give back the reminder (an absent completion list comes back empty) for a recurring reminder without an entry that day, or for an uncompleted single-shot one |
| `ReminderStorage.ToggleInListSpec` | utils/reminderStorage.ts:40-77 | an unknown id leaves the list unchanged; otherwise the length stays, other ids are untouched, and every element with the id becomes the toggled copy of the first element with that id |
| `ReminderStorage.ToggleInListFlips` | utils/reminderStorage.ts:42-77 | under a valid local calendar, every element with the id ends up with "completed on the date's day" (recurring) or `completed` (single-shot) flipped relative to the first match |
| `ReminderStorage.ReminderStore.ToggleReminderCompletion` | utils/reminderStorage.ts:40-82 | an unknown id, or a failed first read, writes nothing; otherwise the stored list becomes `ToggleInList` with the day bounds of the date, or the empty list when the second read inside `updateReminder` rejects |
| `ReminderStorage.CompleteById` | utils/reminderStorage.ts:86-95 | same length; matching ids get `completed = true` and `completedAt = now` with every other field kept; other elements are unchanged |
| `ReminderStorage.ReminderStore.CompleteReminder` | utils/reminderStorage.ts:84-101 | the stored list becomes `CompleteById` of the loaded list at the given time, so a rejected read writes the empty list |
| `ReminderStorage.RemoveById` | utils/reminderStorage.ts:103-107 | the result holds exactly the reminders with another id and is no longer than the input; an absent id changes nothing |
| `ReminderStorage.RemoveByIdAppend` | utils/reminderStorage.ts:106 | removal works element by element, so the survivors keep their order |
| `ReminderStorage.ReminderStore.DeleteReminder` | utils/reminderStorage.ts:103-112 | the stored list becomes `RemoveById` of the loaded list, so a rejected read writes the empty list |
| `NotificationManager.Scheduler.Schedule` | utils/notificationManager.ts:81-87 | appends the request under a fresh identifier; identifiers stay unique |
| `NotificationManager.Scheduler.GetAllScheduled` | utils/notificationManager.ts:183 | returns every scheduled entry |
| `NotificationManager.Scheduler.CancelScheduled` | utils/notificationManager.ts:189 | removes the entry with that identifier, if any, and nothing else |
| `NotificationManager.Scheduler.CancelAll` | utils/notificationManager.ts:195 | nothing remains scheduled |
| `NotificationManager.TaggedMembers` | utils/notificationManager.ts:183-186 | the filter keeps exactly the entries whose `data.reminderId` is the id |
| `NotificationManager.TaggedIdents` | utils/notificationManager.ts:184-190 | with unique identifiers, the identifiers of the filtered entries pick out exactly the entries with that tag |
| `NotificationManager.WithoutIdentsStep` | utils/notificationManager.ts:188-190 | cancelling identifiers one at a time equals cancelling the whole set at once |
| `NotificationManager.WithoutIdentsIsWithoutTag` | utils/notificationManager.ts:188-190 | cancelling by identifier equals cancelling by tag when exactly the tagged entries carry the cancelled identifiers |
| `NotificationManager.CancelNotification` | utils/notificationManager.ts:182-191 | afterwards the scheduled entries are the old ones minus exactly those tagged with the id, in order |
| `NotificationManager.WithoutTagMembers` | utils/notificationManager.ts:182-191 | what survives a cancel is exactly the entries with another tag |
| `NotificationManager.OverdueRunShape` | utils/notificationManager.ts:94-110 | the overdue loop yields floor((end - from) / 60000) + 1 requests when `from <= end` and none otherwise; request k fires at `from + k * 60000` |
| `NotificationManager.ScheduleOneTimeNotification` | utils/notificationManager.ts:74-111 | the scheduler gains exactly `OneTimePlan` under consecutive fresh identifiers |
| `NotificationManager.OneTimePlanShape` | utils/notificationManager.ts:81-110 | a pending single-shot reminder gets 1 + 1440 triggers: one at the due time with the base content, then overdue triggers at `due + k*60000` for k = 1..1440, the last at `due + 24h`, strictly increasing |
| `NotificationManager.RecurringTriggerRanges` | utils/notificationManager.ts:144-180 | no trigger for no recurrence or an unknown type; otherwise the trigger kind matches the type, hour and minute come from the due date, weekday is `getDay() + 1` in 1..7, and day of month is in 1..31 |
| `NotificationManager.ScheduleRecurringNotification` | utils/notificationManager.ts:113-142 | the scheduler gains exactly `RecurringPlan`: nothing without a calendar trigger, else the calendar request and then the repeating overdue request |
| `NotificationManager.RecurringPlanShape` | utils/notificationManager.ts:117-141 | a pending daily, weekly or monthly reminder gets exactly two triggers: the calendar trigger with the base content, and a repeating 60-second interval with the overdue content |
| `NotificationManager.PlanEmpty` | utils/notificationManager.ts:50-57 | nothing is planned if and only if the reminder is completed, is not due after now, or recurs by a type without a calendar trigger |
| `NotificationManager.PlanTagged` | utils/notificationManager.ts:59-141 | every planned request, including the overdue variants built by spreading the base content, carries `data.reminderId = r.id` |
| `NotificationManager.ScheduleNotification` | utils/notificationManager.ts:44-72 | the new state is the old entries minus those tagged with the id, followed by the plan under fresh identifiers; no earlier entry of the reminder survives; other tags are untouched; the reminder's entries are exactly its plan, and none at all when it is completed or past |
| `NotificationManager.ScheduleEffect` | utils/notificationManager.ts:47-71 | for any earlier state, cancel-then-plan leaves no stale entry of the reminder, leaves every other tag as it was, and leaves exactly the plan under the reminder's tag |
| `NotificationManager.ReplaceNoStale` | utils/notificationManager.ts:47-48 | entries stamped after the cancel are fresh, so no old entry with the tag is left |
| `NotificationManager.ReplaceOtherTags` | utils/notificationManager.ts:182-186 | replacing one tag's entries keeps every other tag's entries as they were |
| `NotificationManager.RescheduleAllNotifications` | utils/notificationManager.ts:193-201 | afterwards the scheduled requests are `ReplanAll` of the reminders (each replan drops that id, then appends its plan), and no entry from before the call survives |
| `NotificationManager.ReplanAllDistinct` | utils/notificationManager.ts:193-201 | with distinct ids, replanning in turn yields exactly the concatenation of every reminder's plan |
| `NotificationManager.ReplanAllOwnPlan` | utils/notificationManager.ts:193-201 | with distinct ids, the requests tagged with a reminder's id after the pass are exactly that reminder's plan |

## Left out

- Storage write failures: `AsyncStorage.setItem` rejecting, the rethrow and the `console.error` logging are not modelled. Every write succeeds.
- A stored value that cannot be parsed is the `Unreadable` slot. A rejected `getItem` is a `readOk: bool` argument. Both read as the empty list, and a later write replaces what was stored, as in the code. Why a read fails is not modelled: the caller chooses `readOk`.
- JSON encoding and ISO date strings: timestamps are integer milliseconds. Invalid dates (`NaN`) cannot occur in the model.
- Time zones and daylight saving: `LocalClock` admits any calendar meeting its range facts. The 24-hour overdue horizon is `dueDate + 86400000`. On a daylight-saving change day, `setHours(getHours() + 24)` can land an hour earlier or later.
- `RescheduleAllNotifications`: it takes one `now` for the whole pass, while the code reads the clock again for each reminder.
- Expo notification identifiers are strings; the model uses a counter, which keeps them unique.
- `CancelNotification`, `ScheduleOneTimeNotification`, `ScheduleRecurringNotification`, `ScheduleNotification`, `RescheduleAllNotifications`: every `Scheduler` call succeeds. A rejected `scheduleNotificationAsync` or `cancelScheduledNotificationAsync` is not modelled. Nothing in the code catches one, so it would stop the operation partway: stale entries still scheduled, a partial overdue run, later reminders not rescheduled. The postconditions hold only for runs without such a rejection.
- Platform behaviour of the scheduler is not modelled: delivery, firing of past-dated triggers, and limits on pending notifications.
- `registerForPushNotificationsAsync` and `setNotificationHandler`: permissions and channel setup, pure platform I/O.
- `initializeNotifications`: `app/_layout.tsx` imports it from the storage module, but the module shown does not define it. It is not part of this model.
- Concurrency: the async calls are treated as sequential and atomic. Lost updates between concurrent read-modify-write calls are not modelled.
- Due-on-date evaluation of a recurrence (daily/weekly/monthly/custom membership of a day): no such function appears in these two modules.
- `customDays` of a custom recurrence: the planner never reads it, and the model folds 'custom' into `Other`.
