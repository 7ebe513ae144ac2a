# Coaching platform scheduling, query building and attendance — a Dafny model

This project models the decision logic inside the coaching platform's API
handlers (`backend/complete_api.py`) and the attendance tab of the client
detail view (`frontend/src/App-attendance-enhanced.jsx`). It proves
properties of that model. Database calls are stripped away. What is left is
arithmetic on dates, lists of SQL fragments with numbered placeholders, and
classification of sessions.

Modules:

- `Models`: the shared types.
  - `Option` and `Result`.
  - The HTTP error a handler raises (`ApiError`).
  - The `SessionStatus` enumeration of `backend/models.py`.
  - JSON documents.
  - The positional arguments handed to the database driver.
  - Python truthiness of optional text, integers and lists.
- `QueryParts`: the pattern every update and filter handler repeats.
  - The pattern: if a field is set, append `column = $idx`, append the value, and increment `idx`.
  - A clause is kept as structure (column, operator, placeholder number, cast) rather than as text.
  - `WellNumbered` states that the placeholders, read left to right, are `$1 .. $n` for the `n` arguments the statement runs with.
- `Clients`, `Sessions`, `WorkoutLibrary`: the handlers.
  - `PATCH /clients/{id}`, `PATCH /sessions/{id}` and `PATCH /workouts/library/{id}`.
  - The session status written by `POST /sessions/{id}/attendance`.
  - The WHERE lists of `GET /sessions/filter` and `GET /workouts/library`.
  - The tag list of `POST /workouts/library`.
  - The key-by-key merge of a workout's stored `structure`.
- `Scheduling`: the sessions of `POST /sessions/create-recurring` and `POST /sessions/assign-to-slot`, and the duration and label of `POST /coach/time-slots`.
  - A date is a proleptic Gregorian day number (`date.toordinal()`, day 1 is a Monday).
  - A time of day is minutes after midnight.
  - An instant is `day * 1440 + minutes`.
- `Attendance`: the attendance tab.
  - Each session's classification against `now`, and the single badge it shows.
  - The in-place newest-first sort of the rows.
  - The "Missed Total", "This Month" and "Best Streak" counters, and the completed count of the header.

## Model

| member | source | states |
|---|---|---|
| `Models.ParseStatus` | backend/models.py:12-16 | A text is read as a status only if that status is written as exactly that text; `Sessions.ReadSessionUpdate` uses it to validate a request's status. |
| `Models.StatusRoundTrip` | backend/models.py:12-16 | Every status survives being written as its string and read back. |
| `QueryParts.SelectedKeepsPresent` | backend/complete_api.py:252-263 | A builder uses exactly the fields whose test passes, never more of them than it tests, and none exactly when no test passes. |
| `QueryParts.BindAt` | backend/complete_api.py:252-263 | The i-th field used gets the i-th placeholder after the first, with its own column, operator and cast. |
| `QueryParts.ArgsAt` | backend/complete_api.py:252-263 | The i-th argument is the i-th used field's value, and there are as many arguments as fields used. |
| `QueryParts.AddIfSet` | backend/complete_api.py:252-255 | One `if field:` block appends the clause on `$idx`, the value and `idx + 1` when the field is set, and changes nothing otherwise. It keeps clauses, arguments and counter in step with the fields tested so far. |
| `QueryParts.UpdateShapeWellNumbered` | backend/complete_api.py:268-269 | Numbered SET clauses, then fixed clauses, then the id on the next placeholder, use `$1 .. $n` in order for the values plus the id. |
| `QueryParts.FilterShapeWellNumbered` | backend/complete_api.py:1031-1053 | Fixed conditions around the numbered ones use `$1 .. $n` in order for the filter values. |
| `QueryParts.FinishUpdate` | backend/complete_api.py:265-269 | When the id is appended, `idx` equals the number of values including the id, and the statement is well numbered. |
| `QueryParts.FinishFilter` | backend/complete_api.py:1890-1896 | The finished WHERE list is well numbered, and every condition is fixed or one of the numbered ones. |
| `Clients.UpdateClient` | backend/complete_api.py:248-269 | Refuses with 400 "No fields to update" exactly when name, email and phone are all missing or empty. Otherwise it sets only the non-empty fields, in the order name, email, phone, on `$1, $2, ..`, then `updated_at = NOW()`. The client id is bound last on `$idx`, which equals the number of values. |
| `Sessions.ReadSessionUpdate` | backend/models.py:67-69 | A request is accepted exactly when its status is absent or the text of one of the four statuses; an accepted request keeps the notes as given and has a status exactly when one was given, written as the given text. |
| `Sessions.ValidatedWritesStatus` | backend/complete_api.py:371-381 | For a request that passes validation, the handler writes one clause for a given status, one more for the text `completed`, and one for non-empty notes; it writes none exactly when no status and no notes are given. |
| `Sessions.SessionFields` | backend/complete_api.py:371-382 | The status is on `$1` exactly when given. `completed_at = NOW()` is added exactly when the status is `completed`. Notes take the next placeholder exactly when non-empty. The SET list is empty exactly when neither is given. |
| `Sessions.UpdateSessionAsWritten` | backend/complete_api.py:367-385 | The handler as written: an empty request yields an empty SET list. `status = $1` is in the SET list exactly when a status is given, `completed_at = NOW()` exactly when it is `completed`, and `notes` on the placeholder just before the id exactly when the notes are non-empty; there are no other clauses. The arguments are the status, the notes and the id, each only when given. The session id is always bound last on `$idx`, and the statement is well numbered. |
| `Sessions.EmptySessionPatch` | backend/complete_api.py:367-385 | A request with neither status nor notes becomes a statement with no assignments, bound to the session id alone on `$1`. |
| `Sessions.UpdateSession` | backend/complete_api.py:367-385 | With the missing empty-request check added, it refuses with 400 exactly when nothing is given. Otherwise `status = $1` is in the SET list exactly when a status is given, `completed_at = NOW()` exactly when it is `completed`, and `notes` on the placeholder just before the id exactly when the notes are non-empty, with no other clauses. The statement binds the given values and then the id last, and is well numbered. |
| `Sessions.KeyAfter` | backend/complete_api.py:384-385 | Binding the id on the next placeholder keeps a well-numbered SET list well numbered. |
| `Sessions.AttendanceStatus` | backend/complete_api.py:1831 | `attended` gives `completed`, and every other attendance value gives `cancelled`. |
| `Sessions.FilteredSessionsQuery` | backend/complete_api.py:1869-1894 | `ss.deleted_at IS NULL` comes first. Then come the set filters in the order status, client, from, to, on `$1 ..`. `ss.status != 'cancelled'` is present exactly when cancelled sessions are not requested. The list is well numbered. |
| `WorkoutLibrary.CategoryTags` | backend/complete_api.py:993-995 | The stored tags contain the category. They are the given tags, with the category appended once at the end exactly when it is absent. The given tags keep their order, and the category is never duplicated. |
| `WorkoutLibrary.CategoryTagsIdempotent` | backend/complete_api.py:993-995 | Merging the category into already-merged tags changes nothing. |
| `WorkoutLibrary.LibraryQuery` | backend/complete_api.py:1031-1053 | The WHERE list starts with `st.deleted_at IS NULL` and `st.is_active = true`. Then come the set filters in the order organisation, category, coach, difficulty. It has one argument per set filter and is well numbered. |
| `WorkoutLibrary.LibraryArgsCount` | backend/complete_api.py:1036-1053 | The library query takes one argument for each non-empty filter. |
| `WorkoutLibrary.OverwriteKeeps` | backend/complete_api.py:1165-1174 | Overwriting keys adds exactly the edited keys and leaves every other key's value as it was. |
| `WorkoutLibrary.OverwriteWrites` | backend/complete_api.py:1165-1174 | With distinct keys, each given edit's value is the one stored. |
| `WorkoutLibrary.MergeStructureSpec` | backend/complete_api.py:1161-1174 | The merged structure has the stored keys plus the keys of every given structural field, including fields given as empty. Keys not updated keep their values. Each given field's key holds the new value. |
| `WorkoutLibrary.WorkoutNothingSelected` | backend/complete_api.py:1140-1186 | No column is set exactly when name, description, category and duration are falsy, no structural field is truthy, and no tags are given. |
| `WorkoutLibrary.UpdateWorkout` | backend/complete_api.py:1136-1196 | Refuses with 400 exactly when nothing is set, and `updated_at = NOW()` is appended only after that check. The columns name, description, category, duration, structure (the merge) and tags follow in that order on `$1 ..`. The workout id is bound last on `$idx`, and the statement is well numbered. |
| `WorkoutLibrary.EmptyEquipmentAloneIsRefused` | backend/complete_api.py:1161-1186 | An update whose only field is an empty equipment list (plus `is_public`) changes nothing, so it is refused. |
| `Scheduling.WeekdayNext` | backend/complete_api.py:1672 | `weekday()` lies in 0..6, advances by one each day and repeats every seven days. |
| `Scheduling.AtParts` | backend/complete_api.py:1977-1980 | An instant built from a date and a time of day gives back that date and that time. |
| `Scheduling.AtOrder` | backend/complete_api.py:1977-1980 | Instants order by date first, then by time of day. |
| `Scheduling.DayOffsetIsPeriods` | backend/complete_api.py:1964-1974 | Session i is offset by i periods. The period is 1 for `daily` and unknown types, 7 for `weekly`, 14 for `biweekly` and 30 for `monthly`. |
| `Scheduling.DayOffsetIncreasing` | backend/complete_api.py:1964-1974 | A later session's offset exceeds an earlier one's by at least one period. |
| `Scheduling.CreateRecurringSessions` | backend/complete_api.py:1959-2011 | Creates `num_sessions` sessions, or none when that count is not positive. Session i is numbered i+1 of `num_sessions`, is `scheduled`, and falls on the start date plus i periods at the requested time. The reported count is the list length. The instants strictly increase. |
| `Scheduling.DaysAheadFindsNextWeekday` | backend/complete_api.py:1672-1675 | For a weekday in 0..6, `days_ahead` lies in 0..6 and lands on that weekday. It is 0 exactly when the start date already has that weekday, and no earlier date from the start has it. |
| `Scheduling.DaysAheadBeforeStart` | backend/complete_api.py:1672-1675 | A slot stored with weekday -2 (labelled `Sat`) and a start date on a Sunday give `days_ahead` = -1: the first session falls before the start date. |
| `Scheduling.NextWeekdayOffset` | backend/complete_api.py:1672-1675 | With the weekday reduced modulo 7, the offset lies in 0..6 for every stored weekday and lands on the labelled weekday. For weekdays 0..6 it equals `days_ahead`. |
| `Scheduling.AssignClientToSlot` | backend/complete_api.py:1643-1706 | Creates `num_sessions` sessions, or none when that count is not positive. They start `days_ahead` days after the start date and are exactly one week apart. All are at the slot's start time, `scheduled`, at the slot's location or `online`. For a weekday in 0..6, each falls on that weekday, on or after the start date. |
| `Scheduling.WeeksKeepWeekday` | backend/complete_api.py:1678-1681 | Whole weeks after a date fall on the same weekday. |
| `Scheduling.ParseClock` | backend/complete_api.py:1584-1585 | `strptime(text, "%H:%M")`: a text is read as the time m only when it is one of m's spellings, an hour of one or two digits, a colon and a minute of one or two digits (`9:05`, `09:5`, `09:05`). |
| `Scheduling.ParseClockReadsSpellings` | backend/complete_api.py:1584-1585 | Conversely every spelling of m, padded or not, is read as m. |
| `Scheduling.PaddedClock` | backend/complete_api.py:1584-1585 | A five-character text is read only when it is the padded `HH:MM` form of the time read. |
| `Scheduling.ClockRoundTrip` | backend/complete_api.py:1584-1587 | Writing a time of day as `HH:MM` and reading it back gives the same time. |
| `Scheduling.SlotLabel` | backend/complete_api.py:1587 | The label is the day abbreviation (index taken modulo 7), a space, the start text as given, `-` and the end text as given. |
| `Scheduling.CreateTimeSlot` | backend/complete_api.py:1584-1587 | Fails with a 500 exactly when a time does not read as `%H:%M` or `day_of_week` is outside Python's index range -7..6. Otherwise the duration is the end time minus the start time in minutes, and the name is that label. |
| `Attendance.BadgeOf` | frontend/src/App-attendance-enhanced.jsx:289-336 | ATTENDED exactly when completed. MISSED exactly when past and scheduled or no-show. CANCELLED exactly when cancelled, past or not. UPCOMING exactly when scheduled or no-show and not yet past. |
| `Attendance.MarkedAbsentIsNeverMissed` | backend/complete_api.py:1831 | A session marked with anything but `attended` is stored `cancelled`, so the view shows it CANCELLED, never MISSED. |
| `Attendance.CompletedCountsAttendedBadges` | frontend/src/App-attendance-enhanced.jsx:63 | The completed count is the number of ATTENDED rows. |
| `Attendance.MissedTotalCountsMissedBadges` | frontend/src/App-attendance-enhanced.jsx:418-421 | "Missed Total" equals the number of rows badged MISSED. |
| `Attendance.BadgesPartitionRows` | frontend/src/App-attendance-enhanced.jsx:296-336 | The four badge counts add up to the number of rows: each row has exactly one badge. |
| `Attendance.ThisMonthAtMostCompleted` | frontend/src/App-attendance-enhanced.jsx:429-435 | "This Month" never exceeds the completed count. |
| `Attendance.CompletedOnly` | frontend/src/App-attendance-enhanced.jsx:398-400 | The filtered list holds each completed session exactly as often as the list does and nothing else; its length is the completed count. |
| `Attendance.BestStreakAsWritten` | frontend/src/App-attendance-enhanced.jsx:397-409 | As written, "Best Streak" equals the number of completed sessions. |
| `Attendance.BestStreak` | frontend/src/App-attendance-enhanced.jsx:397-409 | The labelled meaning: some run of consecutive sessions without a missed one holds this many completed sessions, and no such run holds more. |
| `Attendance.StreakAtMostCompleted` | frontend/src/App-attendance-enhanced.jsx:397-409 | The labelled best streak never exceeds the value the view shows. |
| `Attendance.StreakWithoutMissesIsCompletedCount` | frontend/src/App-attendance-enhanced.jsx:397-409 | With no missed session, the labelled best streak equals the value the view shows. |
| `Attendance.StreakCounterexample` | frontend/src/App-attendance-enhanced.jsx:397-409 | For completed, missed, completed, the view shows 2 where the labelled streak is 1. |
| `Attendance.StreakOfExample` | frontend/src/App-attendance-enhanced.jsx:397-409 | The only best streak of completed, missed, completed is 1. |
| `Attendance.SortNewestFirst` | frontend/src/App-attendance-enhanced.jsx:286-287 | After the in-place sort the array holds the same sessions, ordered by `scheduled_at`, newest first. |
| `Attendance.InsertNewest` | frontend/src/App-attendance-enhanced.jsx:287 | One insertion step extends the newest-first prefix by one cell and keeps the same sessions. |

## Left out

- Database and network I/O is not modelled. This covers connections, executing the statements, `RETURNING` rows, generated ids and `get_or_create_org`. The record lookups and their 404s are left out too: "No coach found", "Time slot not found", "Client/Session/Workout not found" after an update, and the "Workout not found" of the lookup `update_workout` makes before it tests any field (backend/complete_api.py:1127-1133), which for a missing workout comes before the 400 "No fields to update". A missing workout cannot be expressed: the stored structure is a parameter, and `None` stands for an empty structure.
  - `Scheduling.AssignClientToSlot` returns the inserted rows instead of their database ids.
  - The stored slot, and a workout's stored structure, are parameters.
- Each handler wraps its body in `except Exception`, which re-raises every error as a 500 whose detail is the error's text. This includes the handler's own 400 "No fields to update". The model's errors follow one convention: an error is the one raised inside the handler's body, before that wrapping. An `HTTPException` the handler raises itself is that status (`BadRequest` for its 400s). An exception Python raises (`IndexError`, `ValueError`) is `ServerError`, the 500 it can only become. The re-wrapping of a 400 into a 500 is not modelled.
- `Clients.UpdateClient` takes the body after validation. The `email` field is an `EmailStr` (backend/models.py:55): the framework rejects an empty or malformed address (for example `""` or `x`) before the handler runs, and normalises an accepted one (`Ann <ann@Example.COM>` becomes `ann@example.com`). This validation and normalisation are not modelled; the model binds the email it is given.
- `Scheduling.CreateRecurringSessions` and `Scheduling.AssignClientToSlot` take day numbers as unbounded integers. Python's `date` ends at 9999-12-31 (ordinal 3652059): a session date past it makes `timedelta` addition raise `OverflowError` (backend/complete_api.py:1972, 1679), which becomes a 500 after the rows of the earlier iterations were already inserted, since there is no transaction. This is not modelled; the model always returns every session.
- Request defaults are applied by the framework before a handler runs and are not modelled; the model's callers pass every value explicitly. These are `num_sessions = 10`, `time = "09:00"`, `duration_minutes = 60` and `location = "online"` of the recurring request (backend/complete_api.py:1936-1939), the `Body(4)` session count of the slot assignment (backend/complete_api.py:1648), and `include_cancelled = False` of the session filter (backend/complete_api.py:1866).
- SQL text is not rendered. Clauses are structured values. The rendered strings (`", ".join`, `" AND ".join`, the f-strings) are not modelled.
- The f-string query of `get_sessions` (backend/complete_api.py:290-294) is not part of this model.
- Dates and times are integers. Apart from the `%H:%M` times of a new time slot, parsing with `datetime.fromisoformat`, `strptime` and `new Date(...)` is not modelled, and neither are its failures, time zones or true calendar months.
  - A start date that carries a time of day is taken by its date alone, which is what `datetime.combine` keeps.
  - `monthly` is the coded 30-day step.
  - "This Month" takes the calendar month of an instant as a parameter `monthOf`.
- `Scheduling.ParseClock` reads ASCII digits only. The `\d` of Python's regular expressions also matches other Unicode decimal digits, which `strptime` would read as well.
- `Scheduling.CreateTimeSlot` gives an unreadable time a fixed detail text, not the text of Python's `ValueError` ("time data ... does not match format ..." or "unconverted data remains: ...").
- The frontend reads the clock with `new Date()` once per row and once per counter. The model uses one value, `now`, for the whole view.
- `Attendance.SortNewestFirst` is an insertion sort. It is proved to sort and to permute, but not to be stable as the browser's `Array.prototype.sort` is. Sessions with equal `scheduled_at` may come out in a different relative order.
- `Attendance.BestStreakAsWritten` iterates over the completed sessions without sorting them. The as-written loop ignores the elements, so the date order it sorts into does not change the result.
- `create_workout` is modelled only for its tag merge. Its structure builder, organisation lookup and insert are plain record assembly around I/O.
- `update_workout` never writes `is_public`. The model keeps that field in `WorkoutUpdate` to show that it alone changes nothing.
- `create_recurring_sessions` ignores the `day_of_week` field of its request. The model's request type omits it.
- The metadata of `create_time_slot` (`is_recurring`, location, `max_clients`) is copied into the stored structure unchanged and is not modelled.
- Payments (`totalPaid`) and the rest of the user interface (forms, modals, navigation) are not part of this model.

## Findings

| source | as written | input that shows it | evidently intended | confidence | as-written member | corrected member |
|---|---|---|---|---|---|---|
| backend/complete_api.py:367-385 | `update_session` has no check that any field is set, unlike `update_client` and `update_workout` | a PATCH with neither `status` nor `notes`: the statement is `UPDATE scheduled_sessions SET  WHERE id = $1::uuid`, which the database rejects | refuse with 400 "No fields to update" | not executed; high | `Sessions.EmptySessionPatch` | `Sessions.UpdateSession` |
| frontend/src/App-attendance-enhanced.jsx:397-409 | `currentStreak` is never reset, so "Best Streak" is the number of completed sessions | sessions completed, missed, completed (all in the past): shows 2 | the longest run of attended sessions not broken by a missed one (1 here) | not executed; high | `Attendance.StreakCounterexample` | `Attendance.BestStreak` |
| backend/complete_api.py:1672-1675 | `days_ahead` adds 7 only once. `create_time_slot` accepts `day_of_week` -7..-1 through Python's negative list index, and labels such a slot by the weekday it wraps to | a slot stored with `day_of_week` -2 (labelled `Sat`), assigned from a Sunday start date: `days_ahead` is -1 | the first session on the labelled weekday, on or after the start date | not executed; medium | `Scheduling.DaysAheadBeforeStart` | `Scheduling.NextWeekdayOffset` |

The slot assignment itself (`Scheduling.AssignClientToSlot`) is modelled as written. For the weekdays 0..6 that the slot API documents, its offset equals the corrected one; `Scheduling.NextWeekdayOffset` proves this.
