# Habit ledger and streak engine — a Dafny model

This project models the habit-tracking core of a small web application:
- the server's habit controller (`server/controllers/habitController.js`);
- the records it reads and writes (`server/models/User.js`, `server/models/HabitLog.js`);
- the client's check-in log service (`client/src/habitCheckService.js`).

A user logs habit events: a daily check-in, a "use" slip, or a "resist". From these the server keeps a per-user record with three parts:
- the habit settings;
- the streak anchors (`stats`);
- a capped history of events.

The server also keeps a store of per-day usage rows. From the record it derives a stats payload: the clean streak, the best streak, the money saved and today's usage against the baseline.

The model, module by module:

| module | file | what it holds |
|---|---|---|
| `Outcomes` | outcomes.dfy | the error answers (400 / 404 / 409 / 500) and an `Outcome` result type |
| `UtcDay` | day.dfy | `startOfUtcDay` on epoch milliseconds, and UTC day numbers |
| `Coerce` | coerce.dfy | `toNumber`, `clamp`, `safeDateFromTs`, `validateWhenNotFuture`, and `trim().slice(0, n)` |
| `UserModel` | user_model.dfy | the habit, stats and event records, with the schema's enums, defaults and ranges as invariants |
| `Ledger` | ledger.dfy | `pushHabitEvent` (append, keep the newest 500) and `buildRecentEvents` (newest first) |
| `HabitLog` | habit_log.dfy | the (user, UTC day) → units store, and the `incrementHabitLog` upsert as a class updated in place |
| `StatsProjection` | stats.dfy | `buildHabitStatsPayload`: the streak, the baseline money figures and today's usage |
| `Handlers` | handlers.dfy | `saveHabitSettings`, `logHabitUse`, `postHabitCheckIn` and `postHabitEvent` as functions from (record, store, request, clock) to an outcome |
| `HandlerProperties` | handler_props.dfy | what those handlers promise: the use/resist split, the check-in throttle, the best-streak ratchet, day bucketing, and invariants kept over any run of requests |
| `Controller` | controller.dfy | the same handlers as methods that update a `User` object field by field and the `HabitLogStore` in place, each proved to reach exactly the state its `Handlers` function describes |
| `HabitCheck` | habit_check.dfy | the client's `computeNextCheckAt`, `addLog`, and the normalisation done by `loadHabitCheck` / `saveHabitCheck` |

Modelling choices:

- **Numbers.**
  - Instants are integers: epoch milliseconds.
  - "Now" is a parameter of every operation that reads the clock.
  - Quantities, units and settings numbers are integers.
  - Money figures are exact `real`s.
- **Request values.** A raw request value is `Absent` (undefined, `null` or `""`), `Num(n)` or `NotFinite`. At every `toNumber` call site `null` and `undefined` give the same result, so one constructor serves for both.
- **Errors.** An error is an `Outcome` value carrying its `HabitError`. A refused request changes nothing.
- **The user record.** It carries every field the controller writes: `lastCheckInAt`, `lastCheckInMood`, `lastCheckInNote`, `resistsTotal`, `lastResistAt`, and check-in events with a mood. The schema does not declare these fields; see "Left out".

Behaviour of the code worth noting, which the model keeps:
- `recentEvents` holds up to 500 events, newest first. The number 25 appears only as the reported `dashboardDefaultLimit`; nothing is cut to it.
- The check-in mood is any text, trimmed and cut to 20 characters. No list of moods is enforced, and a missing mood is stored as "".
- `bestStreakDays` is raised only by an accepted check-in. Reading the stats or logging a use or resist never changes it. `HandlerProperties.HandleBestStreak` states this.
- A resist event leaves the streak anchors alone. A resist does not start a streak that never started.

## Model

| member | source | states |
|---|---|---|
| Outcomes.HabitError.Status | server/controllers/habitController.js:288-365 | validation errors answer 400, a missing user 404, a repeated check-in 409, and a rejected save 500; exactly the four validation errors answer 400 |
| UtcDay.StartOfUtcDay | server/controllers/habitController.js:16-18 | the result is a UTC midnight `d` with `d <= t < d + 86400000` |
| UtcDay.StartIsDayNumberTimesDay | server/controllers/habitController.js:16-18 | the start of `t`'s day is its day number times `DAY_MS` |
| UtcDay.DayStartUnique | server/controllers/habitController.js:16-18 | a midnight `d` with `d <= t < d + DAY_MS` is the start of `t`'s day, so the start of day is unique |
| UtcDay.StartOfUtcDayIdempotent | server/controllers/habitController.js:16-18 | taking the start of day twice changes nothing |
| UtcDay.SameDayIffSameDayNumber | server/controllers/habitController.js:311-313 | two instants have the same start of day exactly when they have the same UTC day number |
| UtcDay.DaysBetweenStarts | server/controllers/habitController.js:105-107 | the distance between two starts of day, divided by `DAY_MS`, is the difference of the day numbers |
| Coerce.ToNumber | server/controllers/habitController.js:20-23 | a finite non-negative number is kept; any other result is the fallback; a non-negative fallback gives a non-negative result |
| Coerce.Clamp | server/controllers/habitController.js:25-27 | the result lies in [lo, hi]; a value inside is kept; one below gives lo; one above gives hi |
| Coerce.SafeDateFromTs | server/controllers/habitController.js:29-37 | a positive timestamp in the `Date` range is taken as is; one beyond it is the invalid date; a missing, non-finite or non-positive one becomes now |
| Coerce.ValidateWhenNotFuture | server/controllers/habitController.js:39-45 | accepted exactly when the date is valid and at most 5 minutes after now; otherwise "Invalid timestamp." or "Timestamp is in the future." |
| Coerce.TimestampRule | server/controllers/habitController.js:29-45 | for a clock in the `Date` range, a timestamp is refused exactly when it is more than 300000 ms after now; an accepted one is `ts`, or now when `ts` is missing or not positive |
| Coerce.MissingTimestampAccepted | server/controllers/habitController.js:29-34 | a missing, non-finite or non-positive timestamp is accepted as now |
| Coerce.AcceptTimestamp | server/controllers/habitController.js:29-45 | a missing or non-positive timestamp is now; a positive one is accepted as is exactly when it is within the `Date` range and at most 5 minutes ahead; a refusal is "Invalid timestamp." or "Timestamp is in the future." |
| Coerce.PastTimestampAccepted | server/controllers/habitController.js:39-44 | every timestamp not after now is accepted |
| Coerce.TrimStart | server/controllers/habitController.js:299-300 | the result is a suffix not starting with white space, and everything dropped is white space |
| Coerce.TrimEnd | server/controllers/habitController.js:299-300 | the result is a prefix not ending with white space, and everything dropped is white space |
| Coerce.Trim | server/controllers/habitController.js:299-300 | the result is a contiguous piece of the input, with only white space cut before and after it, and it neither starts nor ends with white space |
| Coerce.CutCompose | server/controllers/habitController.js:299-300 | cutting leading white space and then trailing white space leaves the input cut at the first non-space character |
| Coerce.SliceTo | server/controllers/habitController.js:299-300 | the result is the prefix of length min(len, `n`): a short enough input is kept whole, and a longer one is cut to exactly `n` characters |
| Coerce.CleanText | server/controllers/habitController.js:299-300 | a string becomes the prefix of its trimmed form of length min(len, `limit`); a value that is not a string gives "" |
| Coerce.OrElse | server/controllers/habitController.js:191-197 | `a \|\| b`: a truthy `a` is kept, otherwise `b` |
| UserModel.ParseSubstance | server/models/User.js:8-12 | only the five enum names are accepted, each as the substance of that name |
| UserModel.SubstanceRoundTrip | server/models/User.js:8-12 | every substance's name parses back to it |
| UserModel.ParseIntent | server/models/User.js:14-18 | only the four enum names are accepted, each as the intent of that name |
| UserModel.IntentRoundTrip | server/models/User.js:14-18 | every intent's name parses back to it |
| UserModel.DefaultHabitValid | server/models/User.js:6-25 | the schema defaults (cigarettes, quit, 0 a day, cost 0, 20 a pack) satisfy the schema ranges |
| UserModel.NewAccountValid | server/models/User.js:82-86 | a new user has no events and a best streak of 0, and satisfies the record invariants |
| Ledger.Capped | server/controllers/habitController.js:52-54 | `slice(-500)`: the newest min(n, 500) entries, as a suffix |
| Ledger.Pushed | server/controllers/habitController.js:47-55 | after a push the history has min(n + 1, 500) entries, equal to the tail of old ++ [ev] and ending with `ev` |
| Ledger.PushBelowCap | server/controllers/habitController.js:47-50 | below the cap a push only appends |
| Ledger.PushAtCapEvictsOldest | server/controllers/habitController.js:52-54 | at the cap a push drops exactly the oldest entries and keeps the rest in order |
| Ledger.PushPreservesValid | server/controllers/habitController.js:47-55 | pushing a valid event keeps every entry valid and the length within the cap |
| Ledger.CappedOfAppend | server/controllers/habitController.js:47-55 | capping before an append and capping after it agree |
| Ledger.PushAllIsCapped | server/controllers/habitController.js:47-55 | any number of pushes on a capped history leave the newest 500 of all events ever pushed (FIFO eviction) |
| Ledger.ReverseAt | server/controllers/habitController.js:72 | `reverse()` puts the i-th last entry at position i |
| Ledger.Take | server/controllers/habitController.js:72 | `slice(0, n)` is the prefix of length min(n, len) |
| Ledger.RecentEvents | server/controllers/habitController.js:69-73 | `buildRecentEvents` has min(n, 500) entries, and entry i is the i-th newest stored event |
| Ledger.RecentEventsAreStored | server/controllers/habitController.js:69-73 | every recent event is a stored event |
| Ledger.RecentAfterPush | server/controllers/habitController.js:69-73 | right after a push the pushed event is the first recent event |
| HabitLog.KeyFor | server/models/HabitLog.js:15-19 | the row key of an instant holds the user and the UTC midnight of that instant's day |
| HabitLog.UnitsFor | server/models/HabitLog.js:20-24 | a missing row reads as the default 0 units |
| HabitLog.Incremented | server/controllers/habitController.js:57-67 | the upsert adds exactly `u` to the row of (user, day of `when`), counting from 0 for a new row; it adds that key and leaves every other row unchanged |
| HabitLog.IncrementPreservesValid | server/models/HabitLog.js:15-24 | a non-negative increment keeps every row's units at 0 or more and its day at a UTC midnight |
| HabitLog.SameDaySameRow | server/models/HabitLog.js:29-30 | instants on the same UTC day update the same (user, day) row |
| HabitLog.IncrementAllAddsSum | server/controllers/habitController.js:57-67 | repeated increments on one day add up to their sum and move no other row |
| HabitLog.HabitLogStore.constructor | server/models/HabitLog.js:7-27 | the collection starts empty and valid |
| HabitLog.HabitLogStore.IncrementHabitLog | server/controllers/habitController.js:57-67 | the in-place upsert leaves `Incremented(old rows)` and returns the row with its new units; a valid store stays valid under a non-negative increment |
| HabitLog.HabitLogStore.UnitsOn | server/controllers/habitController.js:91-93 | today's units are the row's units, 0 when there is no row, and never negative in a valid store |
| StatsProjection.StreakDays | server/controllers/habitController.js:100-112 | the streak is today's day number minus the anchor's day number (the last use, else the streak start), 0 when that is negative, and 0 with no anchor |
| StatsProjection.BaselineOf | server/controllers/habitController.js:79-84 | the baseline reads 0 / 20 / 0 without settings and the stored values for valid settings; units per pack is at least 1 |
| StatsProjection.BaselineSpendPerDay | server/controllers/habitController.js:86-89 | the daily spend is units per day times the cost of one unit; the zero guard changes nothing |
| StatsProjection.TodaySpend | server/controllers/habitController.js:95-98 | today's units priced at the cost of one unit, or 0 without a baseline |
| StatsProjection.MoneySaved | server/controllers/habitController.js:115-116 | zero streak or zero spend saves nothing, and a non-negative spend saves a non-negative amount |
| StatsProjection.MoneySavedPerDay | server/controllers/habitController.js:115-116 | money saved is 0 for no streak, and each further clean day adds exactly one day's spend, so it is streak × daily spend |
| StatsProjection.MoneySavedMonotone | server/controllers/habitController.js:115-116 | with a non-negative daily spend, a longer streak never saves less |
| StatsProjection.BuildHabitStatsPayload | server/controllers/habitController.js:75-150 | the payload reports the habit's substance, name and intent (none, "" and quit without a habit), its currency or "USD", the computed streak, the stored best streak and last check-in, today's units, the baseline read from the habit (units per day, pack size, pack cost), the daily spend and today's spend of that baseline, money saved = streak × daily spend, today against the baseline only when one is set, and the recent events |
| StatsProjection.StreakCountsFromLastUse | server/controllers/habitController.js:102-107 | with a last use not in the future, the streak is the number of UTC days since it |
| StatsProjection.UseTodayZeroStreak | server/controllers/habitController.js:100-107 | a use today leaves a streak of 0 whatever the streak start |
| StatsProjection.StreakIgnoresTimeOfDay | server/controllers/habitController.js:100-112 | the streak depends only on the day of `now`, not its time |
| StatsProjection.FourDayScenario | server/controllers/habitController.js:82-116 | a use four days ago at 20 a day, 10 per pack of 20, shows a 4-day streak, a spend of 10 a day and 40 saved |
| StatsProjection.FreshUserScenario | server/controllers/habitController.js:75-150 | a fresh user shows streak 0, best 0, nothing saved, no recent events and no baseline comparison |
| StatsProjection.NextDayAddsOneDaySpend | server/controllers/habitController.js:100-116 | reading the stats one UTC day later, with no use in between and the anchor not in the future, gives a streak one day longer and exactly one more day's spend saved |
| Handlers.ChosenSubstance | server/controllers/habitController.js:191 | a given substance is parsed; otherwise the stored one, else cigarettes, is reused |
| Handlers.ChosenIntent | server/controllers/habitController.js:193 | a given intent is parsed; otherwise the stored one, else quit, is reused |
| Handlers.NormalizeHabit | server/controllers/habitController.js:189-199 | the save succeeds exactly when substance and intent are in their enums; the stored habit then has those values, `toNumber` of the numbers, 20 for a zero or invalid pack size, the trimmed custom name (or ""), the trimmed currency (sent, else stored, else "USD"), and satisfies the schema ranges |
| Handlers.ParseUnits | server/controllers/habitController.js:237-243 | missing units mean 1; a negative or non-finite amount is refused with 400; any other number is kept |
| Handlers.EventQuantity | server/controllers/habitController.js:385 | `clamp(quantity \|\| 1, 1, 999)`: always in [1, 999]; a quantity inside is kept; a missing one, 0 or a negative one gives 1; one above 999 gives 999 |
| Handlers.SaveHabitSettings | server/controllers/habitController.js:179-211 | a missing user gives 404; otherwise the save succeeds exactly when the habit normalises, else 500; the stored habit is the normalised one; the streak start is set to today's UTC midnight only when unset, every other stats field and the event history are unchanged, and the store is untouched |
| Handlers.LogHabitUse | server/controllers/habitController.js:232-284 | bad units give 400 first, then a bad timestamp gives its 400, then a missing user gives exactly 404; otherwise it succeeds, returns the row of the event's UTC day, and no day's total goes down |
| Handlers.UseLogged | server/controllers/habitController.js:254-269 | the record update of a use: a positive amount sets `lastActivityAt`, `lastUseAt` and `lastResetAt` to the event time and the streak start to its midnight, changes no other stats field, and appends a use event of clamp(n, 1, 999); a zero amount changes only `lastActivityAt`; the habit is kept |
| Handlers.PostHabitCheckIn | server/controllers/habitController.js:288-365 | a bad timestamp gives its 400 first, then a missing user 404; otherwise it succeeds exactly when no check-in is stored for the event's UTC day, and the store is untouched |
| Handlers.CheckedInSameDay | server/controllers/habitController.js:307-317 | the throttle test holds exactly when a check-in is stored on the same UTC day number as the event time |
| Handlers.CheckedIn | server/controllers/habitController.js:319-354 | the record update of a check-in: time, mood, note and `lastActivityAt` stored; the streak start kept, or set to the event's midnight; the best streak not lowered; no other stats field changed (last use, resists and reset kept); a check-in event appended |
| Handlers.PostHabitEvent | server/controllers/habitController.js:371-435 | an unknown type gives 400 first, then a bad timestamp its 400, then a missing user 404; otherwise it succeeds; a resist leaves the store alone, and no day's total goes down |
| Handlers.EventRecorded | server/controllers/habitController.js:392-427 | the record update of an event: it is appended to the history; a resist sets `lastActivityAt` and `lastResistAt` to the event time and adds to `resistsTotal`; a use sets `lastActivityAt`, `lastUseAt` and `lastResetAt` to the event time and the streak start to its midnight; no other stats field changes |
| Handlers.Handle | server/controllers/habitController.js:179-435 | for a user that exists no request is answered with 404, and no day's total goes down |
| Handlers.Run | server/controllers/habitController.js:179-435 | over any sequence of requests no day's total ever goes down |
| HandlerProperties.SettingsDefaultsAccepted | server/controllers/habitController.js:189-199 | leaving out substance and intent never fails the save, and the stored (or default) intent is kept |
| HandlerProperties.SaveSettingsAnchorsStreak | server/controllers/habitController.js:199-203 | a saved habit satisfies the schema ranges; the streak start is kept, or set to today's midnight if unset; best streak, history and store are untouched |
| HandlerProperties.LogUseEffect | server/controllers/habitController.js:252-269 | the day's row grows by the raw n; a positive n moves both anchors to the use and records a use of clamp(n, 1, 999); n = 0 only sets `lastActivityAt`; every other row is unchanged |
| HandlerProperties.LogUseRejectsBadUnits | server/controllers/habitController.js:238-243 | negative or non-finite units are refused with 400, before anything else is looked at |
| HandlerProperties.UseEventResetsAnchors | server/controllers/habitController.js:411-425 | a use sets `lastUseAt` to the event time and the streak start to its midnight, records a quantity in [1, 999], and adds that quantity to the event day's row |
| HandlerProperties.ResistKeepsAnchors | server/controllers/habitController.js:394-403 | a resist adds its quantity to `resistsTotal` and leaves the anchors, the best streak, the streak and the store unchanged |
| HandlerProperties.EventRejectsUnknownType | server/controllers/habitController.js:377-379 | any type other than use or resist is refused with 400 |
| HandlerProperties.CheckInThrottle | server/controllers/habitController.js:307-317 | a check-in is refused with 409 exactly when the stored check-in is on the same UTC day as the new event time, and that is its only failure once the timestamp is accepted |
| HandlerProperties.CheckInRatchet | server/controllers/habitController.js:329-354 | an accepted check-in sets the best streak to max(old best, current streak), records the check-in time and a check-in event, and leaves the last use and the store alone |
| HandlerProperties.CheckedInRatchet | server/controllers/habitController.js:319-354 | the record update of an accepted check-in, on its own: the same ratchet, with the new check-in event last in the history |
| HandlerProperties.NextDayCheckInAccepted | server/controllers/habitController.js:307-317 | after an accepted check-in, a check-in on a later UTC day is accepted |
| HandlerProperties.CheckInThenResistScenario | server/controllers/habitController.js:319-403 | check in, then resist q: `resistsTotal` = q, still no last use, and the streak as after the check-in |
| HandlerProperties.HandleBestStreak | server/controllers/habitController.js:343-345 | no request lowers the best streak, and only a check-in can change it |
| HandlerProperties.HandleCheckInFields | server/controllers/habitController.js:179-435 | only a check-in writes `lastCheckInAt`, its mood and note, so no other request re-opens the throttle; every accepted use, resist or check-in sets `lastActivityAt` to the event time |
| HandlerProperties.CheckInStoresCleanText | server/controllers/habitController.js:299-354 | an accepted check-in stores the mood and note as the sent text trimmed and cut to 20 and 500 characters ("" for a non-string), both on the record and in the check-in event |
| HandlerProperties.EventStoresCleanNote | server/controllers/habitController.js:385-427 | an accepted use or resist records its note trimmed and cut to 500 characters, and its clamped quantity |
| HandlerProperties.LogUseKeepsBest | server/controllers/habitController.js:254-269 | `logHabitUse` never changes the best streak |
| HandlerProperties.EventKeepsBest | server/controllers/habitController.js:392-422 | `postHabitEvent` never changes the best streak |
| HandlerProperties.SettingsPreservesValid | server/controllers/habitController.js:189-203 | a settings save keeps the record invariants and does not touch the store |
| HandlerProperties.LogUsePreservesValid | server/controllers/habitController.js:252-269 | `logHabitUse` keeps the record and store invariants |
| HandlerProperties.UseLoggedValid | server/controllers/habitController.js:254-269 | the record update of `logHabitUse` keeps the record invariants |
| HandlerProperties.CheckInPreservesValid | server/controllers/habitController.js:299-354 | a check-in keeps the record invariants (mood at most 20, note at most 500) and does not touch the store |
| HandlerProperties.CheckedInValid | server/controllers/habitController.js:319-354 | the record update of a check-in keeps the record invariants |
| HandlerProperties.EventPreservesValid | server/controllers/habitController.js:385-425 | `postHabitEvent` keeps the record and store invariants |
| HandlerProperties.EventRecordedValid | server/controllers/habitController.js:392-422 | the record update of a use or resist keeps the record invariants |
| HandlerProperties.HandlePreservesValid | server/controllers/habitController.js:179-435 | every accepted request keeps the record and store invariants |
| HandlerProperties.RunKeepsInvariants | server/controllers/habitController.js:179-435 | over any sequence of requests, accepted or refused, the record stays valid, the history stays within 500, and the best streak never decreases |
| Controller.User.constructor | server/models/User.js:82-86 | a new user document has no habit, default stats and an empty history |
| Controller.User.PushHabitEvent | server/controllers/habitController.js:47-55 | the in-place push leaves `Pushed(old history, ev)`: at most 500 entries, ending with `ev` |
| Controller.User.RecordUse | server/controllers/habitController.js:254-269 | the field-by-field updates of `logHabitUse` leave exactly the record `Handlers.UseLogged` describes |
| Controller.User.RecordCheckIn | server/controllers/habitController.js:319-354 | the field-by-field updates of a check-in leave exactly the record `Handlers.CheckedIn` describes |
| Controller.User.RecordEvent | server/controllers/habitController.js:392-422 | the field-by-field updates of a use or resist leave exactly the record `Handlers.EventRecorded` describes |
| Controller.SaveHabitSettings | server/controllers/habitController.js:179-211 | the user ends in the record `Handlers.SaveHabitSettings` gives, or is untouched when that fails; a valid record stays valid |
| Controller.LogHabitUse | server/controllers/habitController.js:232-284 | user and store end as `Handlers.LogHabitUse` gives and the reply carries the updated row and the stats, or both are untouched when it fails; invariants are kept |
| Controller.PostHabitCheckIn | server/controllers/habitController.js:288-365 | the user ends as `Handlers.PostHabitCheckIn` gives and the reply carries the stats, or is untouched on 400 / 404 / 409; a valid record stays valid |
| Controller.PostHabitEvent | server/controllers/habitController.js:371-435 | user and store end as `Handlers.PostHabitEvent` gives, or are untouched when it fails; invariants are kept |
| Controller.ApplyEvent | server/controllers/habitController.js:392-427 | the in-place updates of an accepted use or resist leave the user as `Handlers.EventRecorded` and, for a use, the store as `Incremented`; invariants are kept |
| Controller.GetHabitStats | server/controllers/habitController.js:215-228 | a missing user gives 404; otherwise the payload of the stored record and today's row, whose money saved is streak × daily spend |
| HabitCheck.Frequency | client/src/habitCheckService.js:85-87 | the frequency is never 0: a missing, null, false or 0 frequency gives 60, `true` gives 1 (`Number(true)`), and a non-zero number is kept |
| HabitCheck.ComputeNextCheckAt | client/src/habitCheckService.js:82-90 | the next prompt is exactly frequency × 60000 ms after the given time, or after now when none is given |
| HabitCheck.UnitsOf | client/src/habitCheckService.js:103-107 | units are 0 when not used, the number given when used, 1 when used with units `true`, and 0 when used with no units |
| HabitCheck.AddLog | client/src/habitCheckService.js:93-116 | the new state keeps the config, appends exactly one entry (now, whether used, the units) after the earlier ones, and schedules the next check one frequency after now; a null state starts from the defaults |
| HabitCheck.AddLogAppends | client/src/habitCheckService.js:93-116 | `addLog` appends exactly one entry, keeps the earlier ones and the config, and reschedules from now |
| HabitCheck.AddLogFromNothing | client/src/habitCheckService.js:94-99 | on a null state `addLog` starts from the defaults (disabled, 60 minutes) with a one-entry log |
| HabitCheck.LastLogs | client/src/habitCheckService.js:71-73 | `slice(-200)`: the newest min(n, 200) entries, as a suffix |
| HabitCheck.MergeConfig | client/src/habitCheckService.js:38-41 | each stored config key overrides the default, a key missing from the stored config takes its default value, and a missing config gives the defaults |
| HabitCheck.LoadHabitCheck | client/src/habitCheckService.js:14-54 | nothing readable gives the default state; otherwise the merged config, `nextCheckAt` only when a number, and logs only when an array |
| HabitCheck.SaveHabitCheck | client/src/habitCheckService.js:56-80 | the saved config has a boolean `enabled` and a non-zero numeric frequency, and at most the newest 200 logs are kept |
| HabitCheck.LoadAfterSave | client/src/habitCheckService.js:14-80 | loading what was saved gives the state with `enabled` coerced to a boolean, the frequency resolved and the log cut to 200 |
| HabitCheck.SaveLoadSaveIdempotent | client/src/habitCheckService.js:14-80 | saving again what was loaded from a save writes the same thing |

## Left out

- HTTP plumbing is not modelled: Express requests and responses, `getUserId`, the 401 "Not authenticated." answer, and the JSON bodies. Handlers take the found user (or none) and the request fields, and answer with an `Outcome`.
- Mongoose and MongoDB are not modelled: `findById`, `save`, `findOneAndUpdate`, `lean`. The user record and the HabitLog collection are in-memory values and objects.
- The 500 answers for storage errors are not modelled. The one 500 the model keeps is a save that fails the schema's enum check (`SaveRejected`).
- Storage atomicity of the upsert and concurrent requests are not modelled. Requests run one at a time.
- The schema mismatch is not modelled. `User.js` does not declare `lastCheckInAt`, `resistsTotal`, `lastResistAt` or the check-in mood and note. Its event `type` enum has no "checkin". Under Mongoose's strict mode those fields are dropped, and a check-in event fails validation on save. The model follows the record the controller means to write. It keeps the declared constraints as invariants on the other fields.
- Floating point is not modelled. Money is exact `real` arithmetic, and nothing is claimed about IEEE rounding.
- Fractional and NaN quantities are not modelled, because quantities are integers.
- The clock: one `now` parameter stands for every clock reading of a request. The source reads the clock several times: `new Date()` in `safeDateFromTs` (:31, :34), `Date.now()` in `validateWhenNotFuture` (:40), and `new Date()` for `startOfUtcDay()` at :91, :202 and :330. Near midnight those readings can fall on different UTC days, and the model does not capture that. On the client, `addLog` reads the clock twice as well: `Date.now()` for the entry's timestamp (client/src/habitCheckService.js:103) and again inside `computeNextCheckAt` (:84); `HabitCheck.AddLog` uses one `now` for both.
- Money: `packCost` is an integer in the model. The settings form accepts cents, so a fractional pack cost is not modelled.
- `Handlers.EventQuantity`: a quantity that `Number` turns into NaN (a non-numeric string) reaches `clamp` as NaN in the source. The model has no such input.
- `Coerce.SliceTo`: `slice` counts UTF-16 code units. The model counts characters, so the two differ on text outside the Basic Multilingual Plane.
- `StatsProjection.StreakDays`: a stored date that cannot be parsed is not modelled, because stored instants are always valid integers. So the source's `isNaN` guard on `lastUseAt` never applies.
- `getHabitSettings` is not modelled. It only reads and formats the habit settings and has no state logic.
- The stats payload's duplicate keys `currentStreak`, `longestStreak` and `daysClean` are not modelled. They repeat `streakDays` and `bestStreakDays`.
- In the client, string-valued JSON is not modelled (for example a frequency stored as the text "30"). `Json` holds `undefined`, `null`, booleans and integers. A `config` that is not an object reads as absent.
- The client's `makeKey`, `window`, `localStorage`, `JSON.parse` and `console` are not modelled. "Nothing readable" is the `None` input of `HabitCheck.LoadHabitCheck`.
- Route wiring is not modelled: which URL reaches which handler, and the duplicate `/checkin` route. The controller functions are modelled directly.
- Other code in the repository is not part of this model: the other habits controller, the `computeStats` in the user routes, authentication, raffle, payments, and the React pages.
