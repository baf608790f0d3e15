# Class notification bot — a Dafny model

The bot posts a Discord webhook message about each class of the day. An
"Upcoming Class" notice goes out 15 minutes before the start. The notice is
edited into "Current Class" when the class starts, and deleted when it ends. A
separate script builds the weekly timetable the bot reads. This project models,
and proves properties of:

- **Chrono** (`chrono.dfy`): the parts of `chrono` the bot uses, on integers.
  - A time of day is minutes since midnight (0..1439).
  - A date is a day number, where day 0 is a Monday.
  - The clock counts nanoseconds.
  - `NaiveTime - Duration` wraps around midnight.
- **Sched** (`sched.dfy`, from `bot/src/sched.rs`):
  - `Class::try_from`, with its error order and its empty-link rule;
  - the seven-slot `Schedule` that `from_map` fills;
  - lookup by weekday and by date.
- **GetSchedule** (`get_schedule.dfy`, from `bot/src/get_schedule.rs`): the older,
  flat loader. Each day's classes become sessions tagged with that day's weekday,
  concatenated in order.
- **Webhook** (`webhook.dfy`, from `bot/src/webhook_manager.rs`): the class
  `WebhookManager`.
  - Its one piece of state is the map `sent`, from course code to message id.
  - It has `send_upcoming`, `set_starting`, `delete` and `delete_all`.
  - It builds the message text and the URLs.
  - Each method returns the request it issues. The server's answer is a parameter.
- **Timeline** (`timeline.dfy`, from `events` in `bot/src/main.rs`):
  - three entries per class;
  - stable-sorted by time of day, so ties keep push order.
- **Dispatch** (`dispatch.dfy`, from `main_today` and `main` in `bot/src/main.rs`):
  - the skip, wait or dispatch-now decision for each event;
  - the manager method chosen by each phase;
  - the in-order walk of a day's timeline against the clock;
  - the daily loop: `delete_all`, the day, then the sleep until 02:00 of the next day.
- **BuildWeekly** (`build_weekly.dfy`, from `build_weekly.js`):
  - the grouping of every course's template sessions into the Monday–Friday lists;
  - the `TypeError`s the script throws;
  - the per-day sort by `startTime`.

Code that changes state is imperative Dafny:
- `from_map`'s loop over the array;
- the manager's methods on its `sent` field;
- the loops of `events`, `main_today`, `main`, `delete_all` and of the JavaScript
  `main`.

Each method is proved against a specification function, and the properties are
lemmas about those functions. The library sorts (`sort_by_key` and
`Array.prototype.sort`) are pure insertion-sort functions; the source has no
sort loop of its own.

Inputs from the outside world are parameters:
- the clock;
- how late each sleep returns;
- how long each dispatch takes;
- the webhook's answers;
- the `%H:%M` parser, as a function from strings to optional times.

Behaviour of the code worth knowing, all of it modelled as written:
- The timeline sort has no tie-break by phase or course id. It is a stable sort
  by time alone, so ties keep push order.
- `set_starting` never creates a message when the course has no record; it does
  nothing.
- The notice window and the missed-event threshold are hard-coded to 15 minutes.
  They are not configurable.
- `delete` removes the record before the request is sent. A failed delete leaves
  no record behind.
- A class is accepted with any two well-formed times, even an end before its
  start.
- Duplicate course ids are not rejected.
- Waits are not cancellable.
- A class starting before 00:15 has its Upcoming notice wrapped to 23:xx of the
  same date, so the notice comes last on that day's timeline, after the class has
  ended; it is posted then and removed by the next day's `delete_all`
  (`Timeline.AfterMidnightTimeline`). The notice is neither sent before midnight
  nor skipped.
- The comment on `MAX_RESPONSE_SIZE` says 8MB, but the value is 8 * 1024 bytes.
  The model uses the value.

## Model

| member | source | states |
|---|---|---|
| `Chrono.Hour` | bot/src/sched.rs:46-47 | the hour of a parsed time is in 0..23 |
| `Chrono.Minute` | bot/src/sched.rs:46-47 | the minute of a parsed time is in 0..59 |
| `Chrono.HourMinute` | bot/src/main.rs:19 | the time built from an hour and a minute (`and_hms(2, 0, 0)`) has exactly that hour and minute |
| `Chrono.ShiftBack` | bot/src/main.rs:79 | subtracting minutes wraps around midnight: adding them back gives the start time modulo a day; without a wrap it is plain subtraction, and across midnight it is one day more |
| `Chrono.WeekdayPeriodic` | bot/src/sched.rs:75-77 | dates a whole number of weeks apart fall on the same weekday |
| `Chrono.Instant` | bot/src/main.rs:39 | `today.and_time(t)` lies on `today`, `t` minutes after its midnight |
| `Chrono.DateOf` | bot/src/main.rs:28 | the local date of an instant is the day whose span contains it |
| `Sched.LinkFromJson` | bot/src/sched.rs:52 | the link is absent exactly when the JSON link is empty, and is otherwise the JSON link itself |
| `Sched.TryFrom` | bot/src/sched.rs:45-54 | a bad start time gives "Error parsing startTime" first; "Error parsing endTime" comes only when the start parses and the end does not; success exactly when both parse, copying the course and taking the parsed times and the normalised link |
| `Sched.TryFromAcceptsAnyOrder` | bot/src/sched.rs:45-54 | any two well-formed times are accepted, with no check that the start precedes the end |
| `Sched.ClassesOnDateByWeekday` | bot/src/sched.rs:71-77 | two dates with the same weekday have the same classes |
| `Sched.ClassesOnDateWeekly` | bot/src/sched.rs:75-77 | a date and the same weekday any number of weeks later have the same classes |
| `Sched.FromMap` | bot/src/sched.rs:63-69 | the schedule has seven slots, and slot `w` holds the map's classes for `w` when the map has that weekday, else nothing, whatever the map's iteration order |
| `GetSchedule.FromJsonAndDay` | bot/src/get_schedule.rs:33-41 | a session exists exactly when both times parse, and then it has the given weekday, the course copied, the parsed times, and no link exactly when the JSON link is empty |
| `GetSchedule.SessionsOfDayAt` | bot/src/get_schedule.rs:51-53 | one day's classes all convert or the load aborts, and the converted list has one session per class at the same position |
| `GetSchedule.FlattenSucceeds` | bot/src/get_schedule.rs:37-56 | the loader succeeds exactly when every start and end time of every day parses; any malformed time aborts it |
| `GetSchedule.FlattenLength` | bot/src/get_schedule.rs:50-56 | the output has one session per class summed over all days, repeated weekdays included |
| `GetSchedule.OffsetBound` | bot/src/get_schedule.rs:50-56 | the sessions of each day fit within the output, starting at that day's offset |
| `GetSchedule.FlattenAt` | bot/src/get_schedule.rs:50-56 | class `j` of day `i` appears at position offset(i) + j, converted and tagged with day `i`'s weekday, so the output is the days' classes in day order and then class order |
| `Webhook.TwoDigits` | bot/src/webhook_manager.rs:30-31 | a number below 100 renders as two decimal digits that read back as the number |
| `Webhook.FormatHM` | bot/src/webhook_manager.rs:30-31 | `%H:%M` renders five characters with a colon in the middle |
| `Webhook.FormatHMRoundTrip` | bot/src/webhook_manager.rs:30-31 | a rendered time reads back as itself |
| `Webhook.FormatHMInjective` | bot/src/webhook_manager.rs:30-31 | distinct times of day render differently |
| `Webhook.DescriptionTimes` | bot/src/webhook_manager.rs:28-38 | both times can be read back from the description |
| `Webhook.TrimEndSlashes` | bot/src/webhook_manager.rs:114 | `trim_end_matches('/')` gives a prefix that does not end in '/' and drops only slashes |
| `Webhook.TrimEndSlashesIdempotent` | bot/src/webhook_manager.rs:114 | trimming twice is trimming once |
| `Webhook.UpcomingUri` | bot/src/webhook_manager.rs:49 | the post URL is the webhook URL, unchanged, followed by exactly the ten characters `?wait=true` |
| `Webhook.MessageUri` | bot/src/webhook_manager.rs:100 | the message URL is the base, unchanged, then exactly the ten characters `/messages/`, then the id |
| `Webhook.DeleteUriAgreesWithMessageUri` | bot/src/webhook_manager.rs:100-114 | the edit URL and the delete URL of one message agree exactly when the webhook URL does not end with '/' |
| `Webhook.RequestsOfOneMessage` | bot/src/webhook_manager.rs:28-116 | the edit and the delete of one message go to the same URL exactly when the webhook URL does not end with '/', and the edit carries the same description as the post |
| `Webhook.AfterUpcoming` | bot/src/webhook_manager.rs:58-71 | the course's id is recorded, overwriting an older one, exactly when the size hint (absent counts as 8 * 1024) is at most 8 * 1024 and the id is a string; otherwise `sent` is unchanged; no other course changes |
| `Webhook.AfterDelete` | bot/src/webhook_manager.rs:112 | the course's record is gone and every other record is kept |
| `Webhook.UpcomingThenDelete` | bot/src/webhook_manager.rs:69-112 | posting and then deleting a course that had no record restores `sent` |
| `Webhook.WebhookManager.constructor` | bot/src/webhook_manager.rs:19-25 | a new manager has recorded nothing |
| `Webhook.WebhookManager.SendUpcoming` | bot/src/webhook_manager.rs:27-73 | posts the "Upcoming Class" embed to the `?wait=true` URL and updates `sent` as `AfterUpcoming` says |
| `Webhook.WebhookManager.SetStarting` | bot/src/webhook_manager.rs:75-109 | with no record it answers `None` and issues nothing; with one it patches the "Current Class" embed at the unstripped message URL and answers `Some`; `sent` never changes |
| `Webhook.WebhookManager.Delete` | bot/src/webhook_manager.rs:111-125 | removes the record before the request, so it is gone whatever the outcome; issues the delete at the stripped URL only when a record existed; answers `Some` only on status 204 |
| `Webhook.WebhookManager.DeleteAll` | bot/src/webhook_manager.rs:127-140 | leaves `sent` empty whatever happens; deletes the messages of distinct recorded courses one by one and stops at the first failure; answers `Some` exactly when every record was deleted with 204 |
| `Webhook.DrainOne` | bot/src/webhook_manager.rs:128 | taking one more pending record keeps the drained bookkeeping: each record is either pending or issued, exactly once |
| `Webhook.DeleteOne` | bot/src/webhook_manager.rs:129-131 | the issued requests stay the deletes of the issued records, in order |
| `Webhook.Drain` | bot/src/webhook_manager.rs:128-139 | the loop over the drained map issues deletes for distinct records, every one before the last answered 204, and ends early exactly at a failure |
| `Timeline.PushedLength` | bot/src/main.rs:77-82 | the loop pushes three entries per class |
| `Timeline.PushedAt` | bot/src/main.rs:78-81 | entry 3k + j of the pushed list is entry j of class k's three |
| `Timeline.InsertKeeps` | bot/src/main.rs:83 | inserting adds the entry once and keeps all others |
| `Timeline.InsertSorted` | bot/src/main.rs:83 | inserting into a time-ordered list keeps it ordered |
| `Timeline.InsertWithTime` | bot/src/main.rs:83 | the inserted entry goes first among the entries at its time, and no other time is affected |
| `Timeline.SortByTimeSorts` | bot/src/main.rs:83 | the sort orders by time of day and outputs a permutation of its input |
| `Timeline.SortByTimeStable` | bot/src/main.rs:78-83 | the sort is stable: at every time the entries come out in push order (class order, then Upcoming, Starting, Ending) |
| `Timeline.SortByTimeMembers` | bot/src/main.rs:83 | an entry is in the sorted list exactly when it was pushed |
| `Timeline.Events` | bot/src/main.rs:76-85 | `events` returns the stable sort of the pushed list: three entries per class, time-ordered, a permutation of what was pushed |
| `Timeline.SortedContainsClass` | bot/src/main.rs:79-83 | every class's three entries are on the timeline |
| `Timeline.SortedOnlyFromClasses` | bot/src/main.rs:78-83 | nothing is on the timeline but the three entries of some class |
| `Timeline.OneClassTimeline` | bot/src/main.rs:76-85 | a class from 09:00 to 10:00 gives the notice at 08:45, then the start, then the end |
| `Timeline.AfterMidnightTimeline` | bot/src/main.rs:77-83 | a class from 00:10 to 01:00 gives the start, then the end, then the notice at 23:55, which wrapped around midnight onto the same date |
| `Dispatch.Classify` | bot/src/main.rs:40-50 | an event is skipped exactly when it is more than 15 minutes late (strictly); the bot sleeps first exactly when its instant lies ahead; otherwise it is dispatched at once |
| `Dispatch.MidClassStart` | bot/src/main.rs:40-50 | starting at 09:30 skips the 08:45 notice and the 09:00 start and waits for the 10:00 end |
| `Dispatch.CallFor` | bot/src/main.rs:54-64 | Upcoming calls `send_upcoming`, Starting `set_starting` and Ending `delete`, on the event's class |
| `Dispatch.RunSoFarExtend` | bot/src/main.rs:39-65 | handling the next timeline entry after the ones already handled is again a run in list order |
| `Dispatch.FollowedAt` | bot/src/main.rs:39-64 | every step handled its timeline entry from the `sent` it met, and changed `sent` as its manager call does |
| `Dispatch.ClockedAt` | bot/src/main.rs:39-50 | every step reads the clock within the run's span and is dispatched no earlier than it read it |
| `Dispatch.ClockedStart` | bot/src/main.rs:39 | a run never ends before it starts |
| `Dispatch.ClockedOrdered` | bot/src/main.rs:39-50 | entries are handled strictly in order: each is dispatched before the next one reads the clock |
| `Dispatch.DayStepAt` | bot/src/main.rs:39-64 | step i of a day handled timeline entry i: a skipped step called no manager method, any other exactly its phase's method, and one that waited was dispatched at or after its instant |
| `Dispatch.HandleEvent` | bot/src/main.rs:40-64 | one iteration decides from the clock, sleeps until the instant when it lies ahead, and issues its phase's call, changing `sent` as that call does |
| `Dispatch.HandleAll` | bot/src/main.rs:39-65 | the loop handles the whole timeline in order, each step from the `sent` the previous step left |
| `Dispatch.MainToday` | bot/src/main.rs:25-65 | `main_today` handles the timeline of the start's date, built from that date's classes with the 15-minute window |
| `Dispatch.NextReset` | bot/src/main.rs:19 | the next reset lies after now, on the next date |
| `Dispatch.RunDay` | bot/src/main.rs:16-20 | one iteration of `main`: `delete_all` empties `sent`, deleting the messages of distinct recorded courses until the first delete that does not answer 204, so either every record was deleted or the last delete failed; then the day runs from an empty `sent`; then the sleep until 02:00 of the following date |
| `Dispatch.DaysExtend` | bot/src/main.rs:15-21 | appending a day that follows the last one keeps the log of days consistent |
| `Dispatch.LoopSoFarExtend` | bot/src/main.rs:15-21 | one more iteration of `main`'s loop, run from where the loop stood, keeps the log of days consistent, leaves the manager holding what that day left, and wakes after its reset |
| `Dispatch.Run` | bot/src/main.rs:13-21 | the first `days` iterations of `main`: each day runs `main_today` on the schedule read that day, after a purge that, answered by that day's delete outcomes, deletes distinct courses the day before left recorded until the first failure; days run on strictly increasing dates |
| `BuildWeekly.StrLessIrreflexive` | build_weekly.js:26 | no string is less than itself |
| `BuildWeekly.StrLessTransitive` | build_weekly.js:26 | string `<` is transitive |
| `BuildWeekly.StrLessTotal` | build_weekly.js:26 | of two distinct strings, one is less than the other |
| `BuildWeekly.NotAfterTransitive` | build_weekly.js:26 | "starts no later than" is transitive |
| `BuildWeekly.InsertByStartKeeps` | build_weekly.js:26 | inserting adds the entry once and keeps all others |
| `BuildWeekly.InsertByStartSorted` | build_weekly.js:26 | inserting into a list ordered by start time keeps it ordered |
| `BuildWeekly.SortByStartSorts` | build_weekly.js:25-27 | the per-day sort orders by `startTime` string and outputs a permutation of its input |
| `BuildWeekly.SortByStartKeepsTies` | build_weekly.js:25-27 | the model's own choice, not the script's behaviour (the comparator never answers 0, so an engine may order ties either way): two entries with the same `startTime` come out of the model's sort in push order |
| `BuildWeekly.OnDayAppend` | build_weekly.js:13-23 | the entries a day receives from two runs of pushes are the first run's followed by the second's |
| `BuildWeekly.WeekOf` | build_weekly.js:4-11 | the generated object has exactly the keys Monday to Friday |
| `BuildWeekly.WeekOfPush` | build_weekly.js:16-21 | one push appends its entry to its own day's list and leaves the other days alone |
| `BuildWeekly.OnWeekdaysAll` | build_weekly.js:15-16 | the loop's running check means every session so far falls on Monday to Friday |
| `BuildWeekly.PushStep` | build_weekly.js:15-21 | a session on a weekday extends its day's list by the pushed entry |
| `BuildWeekly.PushStop` | build_weekly.js:16 | the first session off the weekdays is the one whose day is reported |
| `BuildWeekly.PushDone` | build_weekly.js:15-22 | when the loop finishes, no session lies off the weekdays |
| `BuildWeekly.FirstBadDay` | build_weekly.js:16 | when a session's day is not Monday to Friday, the first such day is reported, and it is not a weekday |
| `BuildWeekly.FirstBadDayAt` | build_weekly.js:15-16 | the reported day is the day of the first session, in order, that is off the weekdays |
| `BuildWeekly.CourseError` | build_weekly.js:14-16 | a missing slot throws before any session is looked at; otherwise the error names a day that is not a weekday |
| `BuildWeekly.EmptyWeek` | build_weekly.js:9-11 | the first loop gives an empty list for each of Monday to Friday and no other key |
| `BuildWeekly.PushSessions` | build_weekly.js:15-22 | the inner loop throws exactly when some session's day is not Monday to Friday, naming the first; otherwise each day has gained that course's entries with an empty link, in session order |
| `BuildWeekly.Group` | build_weekly.js:13-23 | the nested loops throw exactly when some course's slot is missing or has a session off the weekdays, with the first such course's error; otherwise each day holds exactly the entries pushed to it, in push order |
| `BuildWeekly.SortDays` | build_weekly.js:25-27 | each of Monday to Friday is replaced by its sorted list |
| `BuildWeekly.Build` | build_weekly.js:6-28 | the script throws as `Group` says; otherwise the output has exactly the keys Monday to Friday, and each day is its pushed entries sorted by `startTime`, in order and as a permutation |
| `BuildWeekly.SessionPushesLength` | build_weekly.js:15-22 | a course pushes one entry per session of its slot |
| `BuildWeekly.CoursePushesLength` | build_weekly.js:13-23 | the loops push as many entries as the courses' slots have sessions |
| `BuildWeekly.CountOnPush` | build_weekly.js:16 | a push adds one entry to its own day and none to the others |
| `BuildWeekly.CountOnAll` | build_weekly.js:13-23 | when every push goes to a weekday, the weekdays hold all the pushes between them |
| `BuildWeekly.CountOnEmpty` | build_weekly.js:9-11 | before any push, all the days are empty |
| `BuildWeekly.SessionPushesOnDays` | build_weekly.js:15-21 | a course whose sessions fall on weekdays pushes only to weekdays |
| `BuildWeekly.CoursePushesOnDays` | build_weekly.js:13-23 | when no course throws, every push goes to a weekday |
| `BuildWeekly.EntriesCount` | build_weekly.js:13-23 | when nothing throws, Monday to Friday together hold one entry per session of every course's slot |

## Definitions

These members define what the source computes and carry no separate claim; the
lemmas named with each state their properties.

- `Chrono.WeekdayOf` (bot/src/sched.rs:75-77): the weekday of a date, counted
  from Monday; `Chrono.WeekdayPeriodic` states that it repeats every seven days.
- `Sched.ClassesOnWeekday` (bot/src/sched.rs:71-73): slot `w` of the schedule.
- `Sched.ClassesOnDate` (bot/src/sched.rs:75-77): the classes of the date's
  weekday; `Sched.ClassesOnDateByWeekday` and `Sched.ClassesOnDateWeekly` state
  that only the weekday matters.
- `GetSchedule.SessionsOfDay` (bot/src/get_schedule.rs:51-53): one day's classes
  converted; `GetSchedule.SessionsOfDayAt` states its shape.
- `GetSchedule.Flatten` (bot/src/get_schedule.rs:50-56): the `flat_map` over the
  days; `GetSchedule.FlattenSucceeds`, `GetSchedule.FlattenLength` and
  `GetSchedule.FlattenAt` state when it succeeds and what it holds where.
- `Webhook.TimeRange` (bot/src/webhook_manager.rs:28-32) and
  `Webhook.Description` (bot/src/webhook_manager.rs:34-38): the embed's text;
  `Webhook.DescriptionTimes`, with `Webhook.FormatHMRoundTrip`, states that both
  times are recoverable from it.
- `Webhook.DeleteUri` (bot/src/webhook_manager.rs:114, 129): the message URL
  under the stripped webhook URL; `Webhook.DeleteUriAgreesWithMessageUri` states
  when it differs from the edit URL.
- `Webhook.UpcomingRequest`, `Webhook.StartingRequest` and
  `Webhook.DeleteRequest` (bot/src/webhook_manager.rs:28-54, 79-105, 114-116):
  the requests the manager's methods issue; `Webhook.RequestsOfOneMessage`
  relates them.
- `Webhook.SizeUpper` and `Webhook.Tracked` (bot/src/webhook_manager.rs:58-69):
  the size check and the `"id"` test; `Webhook.AfterUpcoming` states what they
  decide.
- `Webhook.Answer` (bot/src/webhook_manager.rs:133): the outside world's
  answer to the `k`-th delete, an input of the model.
- `Timeline.PushedFor` (bot/src/main.rs:79-81) and `Timeline.Pushed`
  (bot/src/main.rs:77-82): the three entries of a class and the pushed list;
  `Timeline.PushedLength`, `Timeline.PushedAt` and `Timeline.SortedContainsClass`
  state their layout and that they reach the timeline.
- `Timeline.SortByTime` (bot/src/main.rs:83): the stable sort;
  `Timeline.SortByTimeSorts`, `Timeline.SortByTimeStable` and
  `Timeline.SortByTimeMembers` state its properties.
- `Dispatch.RequestOf` (bot/src/main.rs:54-64): the request of a manager call,
  built by the same functions the manager's methods use.
- `Dispatch.DayTimeline` (bot/src/main.rs:35): the timeline of a date;
  `Dispatch.MainToday` and `Dispatch.DayStepAt` state how it is handled.
- `BuildWeekly.SessionPushes`, `BuildWeekly.CoursePushes` and
  `BuildWeekly.OnDay` (build_weekly.js:13-23): the pushes of the nested loops and
  the entries one day receives; `BuildWeekly.OnDayAppend`,
  `BuildWeekly.SessionPushesLength`, `BuildWeekly.CoursePushesLength` and
  `BuildWeekly.EntriesCount` state their properties.
- `BuildWeekly.SortByStart` (build_weekly.js:26): the per-day sort;
  `BuildWeekly.SortByStartSorts` states its properties.

## Left out

- HTTP and JSON in the webhook manager are not modelled:
  - the hyper client and header building;
  - reading the body;
  - the `serde_json` parse of the post response.

  What the server answered is a parameter instead: the size hint, the `"id"`
  string, and the status or request failure.
- The clock does not advance between `delete_all` and `main_today`, nor between
  the `Local::today()` read and the first `Local::now()` of `main_today`: the
  deletes, the schedule read and the log writes take no time in the model. Only
  the sleeps (late by `overshoot`) and the handling of each event (`busy`) do.
- The `unwrap` panics on network and JSON failure are not modelled. A failed post
  is taken as a response without an id. A failed edit request panics at its
  `unwrap`, like a failed post; an edit that gets any answer is not
  distinguished, because `set_starting` answers `Some` whatever the status.
- Async is not modelled.
  - Tokio's sleeps are modelled as "the clock is at or after the instant", returning late by a parameter.
  - `Local::now()` is the integer clock carried through the run.
  - The clock is read once per iteration: `diff` in `main_today` and the log line then use the same reading.
- Time zones, DST and calendar arithmetic are not modelled. The next 02:00 is
  taken as the next date's 02:00 on a uniform local clock, so
  `to_std().unwrap()` never fails.
- The log file `test_log.txt` and its writes are not modelled.
- `main` runs forever. `Dispatch.Run` covers its first `days` iterations, for any
  number of days.
- `main_today` reads `../weekly.json` on every call. Reading the file is not
  modelled: `Dispatch.Run` takes, for each day, the schedule that day's read
  yields, and `Dispatch.MainToday` takes it already loaded.
- File opening and JSON deserialisation are not modelled in:
  - `get_weekly_schedule`, including its `try_into().unwrap()` on each class;
  - `get_schedule`'s file part;
  - `require` and `console.log` in `build_weekly.js`.

  Their inputs arrive already parsed.
- The internals of chrono's `%H:%M` parser are not modelled. It is the abstract
  `TimeParser`, which either fails or yields a time with hour below 24 and
  minute below 60.
- Which record `delete_all` reaches first is left arbitrary, because
  `HashMap::drain` order is unspecified.
- `Webhook.WebhookManager.DeleteAll` takes the outcomes of its deletes in issue
  order; an outcome missing from the list reads as no response.
- The accessors `course()`, `start_time()`, `end_time()` and `link()` are
  `Class`'s destructors. They return the stored fields unchanged, so no separate
  member states that.
- Sorting in place is modelled as pure functions equal to what each sort
  leaves:
  - `list.sort_by_key` is a stable insertion sort;
  - `weekly[day].sort(...)` is an insertion sort.
- `BuildWeekly.SortByStartSorts`: its contract states sortedness by start time and
  the permutation, but no order among entries with equal start times.
  - The comparator answers 1 for equal `startTime`s, which makes it inconsistent.
  - A JavaScript engine may therefore order such entries either way.
  - The model assumes the engine still orders distinct start times by the
    comparator.
- `BuildWeekly.Build`: its contract also says each day equals one particular
  sort of its entries, the model's insertion sort. That sort is stable: it keeps
  entries with equal `startTime` in push order (`BuildWeekly.SortByStartKeepsTies`).
  A JavaScript engine may order such entries differently under the comparator
  at `build_weekly.js:26`. The script promises only what the same contract also
  states: each day sorted by `startTime`, and a permutation of its pushed entries.
- JavaScript compares strings by UTF-16 code units. `BuildWeekly.StrLess`
  compares Dafny characters; the two agree on the ASCII `HH:MM` strings of a
  template.
- `courseSlots` lists the pairs of the course-to-slot object in its `for..in`
  enumeration order. That order puts integer-like keys first; the model takes
  the order as given.
- A template value that is not an array of sessions, and a session without
  `day`, `startTime` or `endTime`, are not modelled: the model's inputs are typed.
