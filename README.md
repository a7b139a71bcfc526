# WorkPulse core in Dafny

WorkPulse is an iOS work-timer app. A user starts and stops a timer. Each
stretch of work becomes a `Session` (start, optional end, derived duration,
manual flag) kept in the app's store. This project models the part of the
app that decides what is stored and what is shown.

- **Timesheet view model.** Start and stop the timer, end and resume the
  work day, save, delete, update and add sessions by hand, fetch today's and
  all sessions, group sessions by day, and answer per-date queries.
- **Session record.** The duration is derived from the two times. It is
  formatted as `HH:MM:SS`.
- **Home screen.** The progress ring, the average session, the last break,
  row colours, the floating timer button and the manual-entry sheet.
- **Calendar screen.** The month grid of days, the session-count caption
  and the plain-text day summary it shares.
- **End-of-day sheet.** Its statistics cards and its end/resume and close
  buttons.
- **History screen.** The Today / This Week / All Time tabs, choosing what
  to export, the CSV text and the export file names.
- **PDF renderer.** The summary figures and the table of sessions.
- **Edit and manual-entry forms.** Their time-range check.
- **Theme.** The hex colour parser and the random start/stop messages.

Times are whole seconds since the epoch (`int`). A day is the span
`[DayStart(t), DayStart(t) + 86400)`. Each formatter (`DateFormatter` for
dates and clock times) is a function parameter `int -> string`. Swift's
truncating `/` and `%` on `Int` are written out as `Text.Quot` and `Text.Rem`.

The model is organised by module:

| module | file | models |
|---|---|---|
| `Wrappers` | wrappers.dfy | `Option` |
| `Clock` | clock.dfy | start of day, weekday, start of a Monday week |
| `Text` | text.dfy | digit strings, `%d` and `%02d`, truncating division, a parser used as the round-trip partner |
| `Sessions` | session.dfy | `Session` (a class: the view model and the edit sheet update it in place), `formatAsHoursMinutesSeconds`, `%d:%02d` |
| `SessionLists` | collections.dfy | the fetches' day filter, newest-first sort, duration sums, removal, grouping by day |
| `Timesheet` | timesheet.dfy | `TimesheetViewModel` as a class |
| `Theme` | theme.dfy | `Color(hex:)`, the start/stop message lists |
| `Stats` | stats.dfy | `calculateAverageSessionTime` |
| `Home` | home.dfy | `HomeView`'s derived values and actions |
| `Calendar` | calendar.dfy | `CalendarView`'s `days`, `sessionCountText`, `generateShareText` |
| `EndDay` | endday.dfy | `EndDayView` |
| `CsvText` | csv.dfy | joining columns into a CSV row, quoting, and a reader for rows |
| `History` | history.dfy | `SessionHistoryView`'s tabs, export selection, CSV and file names |
| `Pdf` | pdf.dfy | `SessionPDFRenderer`'s summary and table |
| `Forms` | forms.dfy | `SessionEditForm`, `ManualSessionForm` |

## Model

| member | source | states |
|---|---|---|
| Clock.DayStart | WorkPulse/ViewModels/TimesheetViewModel.swift:169 | the start of the day holding `t`: a multiple of 86400 with `d <= t < d + 86400` |
| Clock.DayEnd | WorkPulse/ViewModels/TimesheetViewModel.swift:170 | the end of the day is one day after its start and lies after `t` |
| Clock.DayStartUnique | WorkPulse/ViewModels/TimesheetViewModel.swift:172-174 | a day multiple `d` is `DayStart(t)` exactly when `d <= t < d + 86400` (both directions) |
| Clock.DistinctDayStartsFarApart | WorkPulse/ViewModels/TimesheetViewModel.swift:197 | two different day starts are at least a day apart |
| Clock.DayStartMonotone | WorkPulse/ViewModels/TimesheetViewModel.swift:197 | a later time never has an earlier day start |
| Clock.DayStartIdempotent | WorkPulse/ViewModels/TimesheetViewModel.swift:197 | the start of a day start is itself |
| Clock.Weekday | WorkPulse/Views/CalendarView.swift:14 | a weekday index in `0..6`, Monday first |
| Clock.WeekStart | WorkPulse/Views/CalendarView.swift:14 | the start of the Monday week holding `t`: a Monday day start within the week before `t` |
| Text.Quot | WorkPulse/Models/Session.swift:30-31 | Swift's `Int` division, truncating toward zero for negative numerators |
| Text.Rem | WorkPulse/Models/Session.swift:31-32 | Swift's `%`: `a == Quot(a,b)*b + r`, with the sign of `a` |
| Text.DigitChar | WorkPulse/Models/Session.swift:33 | a value `0..9` becomes a digit character |
| Text.DigitValue | WorkPulse/Models/Session.swift:33 | a digit's value is in `0..9` and maps back to the same character |
| Text.DigitRoundTrip | WorkPulse/Models/Session.swift:33 | `DigitValue(DigitChar(d)) == d` |
| Text.NatString | WorkPulse/Models/Session.swift:33 | `%d` of a natural: a non-empty digit string, one digit exactly under 10, two under 100 |
| Text.IntString | WorkPulse/Models/Session.swift:33 | `%d`: the natural's digits, with a leading `-` when negative |
| Text.Pad2 | WorkPulse/Models/Session.swift:33 | `%02d`: at least two characters, exactly two digits for `0..99`, all digits when non-negative |
| Text.ParseNat | WorkPulse/Models/Session.swift:33 | the reference reader: a value exactly when the text is a non-empty run of digits |
| Text.ParseNatString | WorkPulse/Models/Session.swift:33 | `%d` of `n` reads back as `n` |
| Text.ParseNatLeadingZero | WorkPulse/Models/Session.swift:33 | a leading zero does not change the value read |
| Text.Pad2RoundTrip | WorkPulse/Models/Session.swift:33 | `%02d` of `n` reads back as `n` |
| Text.IntStringRoundTrip | WorkPulse/Models/Session.swift:33 | `%d` of a natural reads back as itself |
| Text.ReplaceChar | WorkPulse/Views/SessionHistoryView.swift:225 | `replacingOccurrences` of one character: same length, each position replaced exactly where it held that character |
| Text.CountAppend | WorkPulse/Views/SessionHistoryView.swift:237 | counting a character over a concatenation adds the counts, so each appended CSV line adds its own line breaks |
| Sessions.FormatHMS | WorkPulse/Models/Session.swift:29-34 | `HH:MM:SS` is at least 8 characters, exactly 8 below 100 hours, with colons 3 and 6 from the end |
| Sessions.HmsFields | WorkPulse/Models/Session.swift:30-32 | hours, minutes and seconds recompose the duration, and minutes and seconds are in `0..59` |
| Sessions.ParseHMS | WorkPulse/Models/Session.swift:33 | the reference reader of `H:MM:SS` text, never negative |
| Sessions.FormatHMSRoundTrip | WorkPulse/Models/Session.swift:29-34 | a non-negative duration formatted as `HH:MM:SS` reads back as itself |
| Sessions.FieldsRoundTrip | WorkPulse/Models/Session.swift:33 | three `%02d` fields joined by colons read back as `h*3600 + m*60 + s` |
| Sessions.JoinFields | WorkPulse/Models/Session.swift:33 | where each of the three fields sits in the joined text |
| Sessions.FormatHM | WorkPulse/Views/EndDayView.swift:237-240 | `%d:%02d` of hours and minutes has a colon 3 from the end |
| Sessions.FormatHMRoundTrip | WorkPulse/Views/EndDayView.swift:237-240 | both fields read back; together they are the whole minutes of the duration |
| Sessions.DerivedDuration | WorkPulse/Models/Session.swift:16-18 | a duration exactly when there is an end time, and start plus duration is the end |
| Sessions.DerivedDurationRoundTrip | WorkPulse/Models/Session.swift:16-18 | the duration derived from `start + d` is `d` |
| Sessions.Session.constructor | WorkPulse/Models/Session.swift:11-19 | stores the three arguments; the duration is `end - start` with an end and absent without one |
| Sessions.Session.FormattedDuration | WorkPulse/Models/Session.swift:21-24 | `"00:00:00"` without a duration; otherwise text that reads back as the duration |
| SessionLists.StartsOnDayStart | WorkPulse/ViewModels/TimesheetViewModel.swift:172-174 | the fetch predicate `dayStart <= start < dayEnd` holds exactly when the session's day start is that day |
| SessionLists.OnDay | WorkPulse/ViewModels/TimesheetViewModel.swift:172-174 | the predicate filter keeps exactly the sessions starting on the day |
| SessionLists.OnDayNone | WorkPulse/ViewModels/TimesheetViewModel.swift:172-174 | with no session on the day the filter is empty |
| SessionLists.OnDayAppend | WorkPulse/ViewModels/TimesheetViewModel.swift:172-174 | filtering distributes over concatenation |
| SessionLists.InsertDesc | WorkPulse/ViewModels/TimesheetViewModel.swift:179 | inserting into a newest-first list keeps it newest first and adds exactly the one session |
| SessionLists.InsertDescPermutes | WorkPulse/ViewModels/TimesheetViewModel.swift:179 | insertion adds the session to the multiset and nothing else |
| SessionLists.SortDesc | WorkPulse/ViewModels/TimesheetViewModel.swift:179 | `SortDescriptor(\.startTime, order: .reverse)`: newest first, and a permutation of the input |
| SessionLists.SameMembers | WorkPulse/ViewModels/TimesheetViewModel.swift:179 | a permutation has the same length and members |
| SessionLists.SortDescMembers | WorkPulse/ViewModels/TimesheetViewModel.swift:179 | sorting keeps the length and exactly the members |
| SessionLists.DistinctPermutes | WorkPulse/ViewModels/TimesheetViewModel.swift:179 | a permutation of a list without repeats has no repeats |
| SessionLists.OnDaySorted | WorkPulse/ViewModels/TimesheetViewModel.swift:177-181 | today's fetch only returns stored sessions |
| SessionLists.AllSorted | WorkPulse/ViewModels/TimesheetViewModel.swift:183-186 | the all-sessions fetch only returns stored sessions |
| SessionLists.SortDescOfSorted | WorkPulse/ViewModels/TimesheetViewModel.swift:229 | sorting a list that is already newest first leaves it unchanged |
| SessionLists.SortDescHeadIsNewest | WorkPulse/ViewModels/TimesheetViewModel.swift:179 | the head of the sorted list starts no earlier than any member |
| SessionLists.DurationsEmpty | WorkPulse/ViewModels/TimesheetViewModel.swift:234 | `compactMap { $0.duration }` is empty exactly when no session has a duration |
| SessionLists.SumAppend | WorkPulse/ViewModels/TimesheetViewModel.swift:234 | `reduce(0, +)` of a concatenation adds the two sums |
| SessionLists.DurationsAppend | WorkPulse/ViewModels/TimesheetViewModel.swift:234 | `compactMap` distributes over concatenation |
| SessionLists.TotalDurationAppend | WorkPulse/ViewModels/TimesheetViewModel.swift:234 | the total of a concatenation is the sum of the two totals |
| SessionLists.DurationsPermute | WorkPulse/ViewModels/TimesheetViewModel.swift:234 | the total and the number of durations do not depend on the order |
| SessionLists.TotalDurationSort | WorkPulse/ViewModels/TimesheetViewModel.swift:229-234 | sorting before summing changes neither the total nor the count |
| SessionLists.OnDayPermutes | WorkPulse/ViewModels/TimesheetViewModel.swift:225-227 | filtering permutations by day gives permutations |
| SessionLists.OnDaySortedMembers | WorkPulse/ViewModels/TimesheetViewModel.swift:167-190 | both fetches are newest first; today's holds exactly the day's sessions, the other a permutation of the store |
| SessionLists.Without | WorkPulse/ViewModels/TimesheetViewModel.swift:137 | deleting leaves exactly the other sessions and keeps a list without repeats without repeats |
| SessionLists.AddToGroup | WorkPulse/ViewModels/TimesheetViewModel.swift:197-202 | adding a session to the grouping adds its day start as a key and no other key |
| SessionLists.GroupsOfAppend | WorkPulse/ViewModels/TimesheetViewModel.swift:196-203 | one loop step keeps the grouping invariant: each key lists, in order, the sessions of that day seen so far |
| SessionLists.GroupsOfCovers | WorkPulse/ViewModels/TimesheetViewModel.swift:192-206 | every session is listed under its day; every key is a day start with a non-empty list |
| Timesheet.TimesheetViewModel.TodaySessions | WorkPulse/ViewModels/TimesheetViewModel.swift:177-181 | `todaySessions` holds only stored sessions |
| Timesheet.TimesheetViewModel.AllSessions | WorkPulse/ViewModels/TimesheetViewModel.swift:183-186 | `allSessions` holds only stored sessions |
| Timesheet.TimesheetViewModel.FetchedLists | WorkPulse/ViewModels/TimesheetViewModel.swift:167-190 | `todaySessions` is exactly the store's sessions of the fetched day; both lists are newest first; `allSessions` is a permutation of the store |
| Timesheet.TimesheetViewModel.constructor | WorkPulse/ViewModels/TimesheetViewModel.swift:38-48 | not running, zero time; the stored day-ended flag survives unless the last recorded day differs from today; today is recorded |
| Timesheet.TimesheetViewModel.CheckAndResetDayStatus | WorkPulse/ViewModels/TimesheetViewModel.swift:52-71 | the flag is cleared only when a last day is recorded and it is not today; today is recorded either way |
| Timesheet.TimesheetViewModel.EndDay | WorkPulse/ViewModels/TimesheetViewModel.swift:73-82 | a running timer is stopped and its session added; the day is marked ended and the flag persisted |
| Timesheet.TimesheetViewModel.ResumeDay | WorkPulse/ViewModels/TimesheetViewModel.swift:84-88 | clears the day-ended state and the persisted flag |
| Timesheet.TimesheetViewModel.StartTimer | WorkPulse/ViewModels/TimesheetViewModel.swift:92-105 | nothing happens on an ended day or while running; otherwise running from `now` |
| Timesheet.TimesheetViewModel.Tick | WorkPulse/ViewModels/TimesheetViewModel.swift:101-104 | each tick adds one second to the current time and to today's total |
| Timesheet.TimesheetViewModel.StopTimer | WorkPulse/ViewModels/TimesheetViewModel.swift:107-121 | a no-op unless running; otherwise exactly one new automatic session from the start to `now` is stored, and the timer fields reset |
| Timesheet.TimesheetViewModel.SaveSession | WorkPulse/ViewModels/TimesheetViewModel.swift:125-134 | inserts the session unless already stored, then reloads |
| Timesheet.TimesheetViewModel.DeleteSession | WorkPulse/ViewModels/TimesheetViewModel.swift:136-145 | the store keeps every other session and loses this one, then reloads |
| Timesheet.TimesheetViewModel.UpdateSession | WorkPulse/ViewModels/TimesheetViewModel.swift:147-158 | with an end time the duration is recomputed from the times; without one it is left as it was; every stored duration that was derived from its times still is |
| Timesheet.TimesheetViewModel.AddManualSession | WorkPulse/ViewModels/TimesheetViewModel.swift:160-163 | exactly one new manual session with those times is stored |
| Timesheet.TimesheetViewModel.LoadSessions | WorkPulse/ViewModels/TimesheetViewModel.swift:167-190 | afterwards today's list holds exactly the stored sessions starting in `[startOfDay, endOfDay)` of `now` |
| Timesheet.TimesheetViewModel.TodayTotalTime | WorkPulse/ViewModels/TimesheetViewModel.swift:23-26 | today's completed durations plus the running time; stated over the store by `Timesheet.TimesheetViewModel.TodayTotalIsStoredTotal` |
| Timesheet.TimesheetViewModel.FormattedCurrentTime | WorkPulse/ViewModels/TimesheetViewModel.swift:28-30 | the running time's `HH:MM:SS` text, which reads back as that time when it is not negative |
| Timesheet.TimesheetViewModel.FormattedTodayTotalTime | WorkPulse/ViewModels/TimesheetViewModel.swift:32-34 | today's total as `HH:MM:SS` text, which reads back as the total when it is not negative |
| Timesheet.TimesheetViewModel.HasActivityOn | WorkPulse/ViewModels/TimesheetViewModel.swift:210-218 | some session starts on the date's day; equivalent to a non-empty day list by `Timesheet.TimesheetViewModel.HasActivityIffSessions` |
| Timesheet.TimesheetViewModel.SessionsForDate | WorkPulse/ViewModels/TimesheetViewModel.swift:220-230 | the day's sessions newest first; its exact contents are `Timesheet.TimesheetViewModel.SessionsForDateMembers` |
| Timesheet.TimesheetViewModel.TotalTimeForDate | WorkPulse/ViewModels/TimesheetViewModel.swift:232-237 | the day list's summed durations; the stored total of the day by `Timesheet.TimesheetViewModel.TotalTimeForDateIsStoredTotal` |
| Timesheet.TimesheetViewModel.FormattedTotalTimeForDate | WorkPulse/ViewModels/TimesheetViewModel.swift:239-241 | the day's total as `HH:MM:SS` text, which reads back as the total when it is not negative |
| Timesheet.TimesheetViewModel.TodayTotalIsStoredTotal | WorkPulse/ViewModels/TimesheetViewModel.swift:24-27 | `todayTotalTime` is the stored durations of the day plus the running time while running |
| Timesheet.TimesheetViewModel.GroupedSessions | WorkPulse/ViewModels/TimesheetViewModel.swift:192-206 | the result groups `allSessions` by day start, in order |
| Timesheet.TimesheetViewModel.SessionsForDateMembers | WorkPulse/ViewModels/TimesheetViewModel.swift:220-230 | exactly the stored sessions of the date's day, newest first |
| Timesheet.TimesheetViewModel.HasActivityIffSessions | WorkPulse/ViewModels/TimesheetViewModel.swift:210-218 | `hasActivityOn` holds exactly when `sessionsForDate` is non-empty |
| Timesheet.TimesheetViewModel.TotalTimeForDateIsStoredTotal | WorkPulse/ViewModels/TimesheetViewModel.swift:232-237 | `totalTimeForDate` is the total duration of the stored sessions of that day |
| Timesheet.GroupByDay | WorkPulse/ViewModels/TimesheetViewModel.swift:194-203 | the grouping loop returns a grouping of its input by day start |
| Theme.HexDigitValue | WorkPulse/Utils/AppTheme.swift:40 | a hex digit's value is below 16 |
| Theme.HexDigitChar | WorkPulse/Utils/AppTheme.swift:40 | a value below 16 becomes a hex digit that reads back as it |
| Theme.Trim | WorkPulse/Utils/AppTheme.swift:38 | trimming non-alphanumerics leaves alphanumeric ends and keeps all-alphanumeric text unchanged |
| Theme.ScanHex | WorkPulse/Utils/AppTheme.swift:40 | skips an optional `0x`/`0X` and reads the hex digits after it; its value is bounded by `Theme.ScanHexBound` and exact on digits by `Theme.ScanAllHex` and `Theme.ScanMarkedHex` |
| Theme.HexPrefix | WorkPulse/Utils/AppTheme.swift:40 | the scanner reads the longest run of hex digits at the front |
| Theme.HexValueBound | WorkPulse/Utils/AppTheme.swift:40 | `n` hex digits give a value below `16^n` |
| Theme.ScanHexBound | WorkPulse/Utils/AppTheme.swift:40 | the scanned value is below `16^|s|` |
| Theme.ScanMarkedHex | WorkPulse/Utils/AppTheme.swift:40 | hex digits after a `0x` or `0X` are read whole and the marker adds nothing |
| Theme.ColorFromMarkedHex | WorkPulse/Utils/AppTheme.swift:37-50 | `0x` and six hex digits count as eight characters: alpha 0, the digits as red, green and blue |
| Theme.MarkedHexIsTransparent | WorkPulse/Utils/AppTheme.swift:37-50 | `0x2D7FF9` gives the channels (0, 0x2D, 0x7F, 0xF9) |
| Theme.ColorFromHex | WorkPulse/Utils/AppTheme.swift:37-52 | lengths 3, 6 and 8 give channels in `0..255`, opaque for 3 and 6; any other length gives `(1,1,1,0)` |
| Theme.ScanAllHex | WorkPulse/Utils/AppTheme.swift:40 | an all-hex string scans to its full value |
| Theme.ColorFromHex3 | WorkPulse/Utils/AppTheme.swift:43-44 | three digits: each channel is its digit times 17, opaque |
| Theme.ColorFromHex6 | WorkPulse/Utils/AppTheme.swift:45-46 | six digits: the three byte pairs in order, opaque |
| Theme.ColorFromHex8 | WorkPulse/Utils/AppTheme.swift:47-48 | eight digits: alpha then red, green, blue byte pairs |
| Theme.ArgbHex | WorkPulse/Utils/AppTheme.swift:47-48 | the eight-digit encoding of a colour is all hex |
| Theme.ArgbHexRoundTrip | WorkPulse/Utils/AppTheme.swift:37-52 | parsing the eight-digit encoding of any colour gives it back |
| Theme.RgbHexRoundTrip | WorkPulse/Utils/AppTheme.swift:37-52 | parsing the six-digit encoding of any opaque colour gives it back |
| Theme.PickMessage | WorkPulse/Utils/AppTheme.swift:96-102 | `randomElement()` of a non-empty list is a member; the choice indexes the list |
| Theme.RandomStartMessage | WorkPulse/Utils/AppTheme.swift:96-98 | always one of the start messages |
| Theme.RandomStopMessage | WorkPulse/Utils/AppTheme.swift:100-102 | always one of the stop messages |
| Theme.PickMessageCovers | WorkPulse/Utils/AppTheme.swift:96-102 | every message of the list can be picked |
| Stats.AverageSeconds | WorkPulse/Views/EndDayView.swift:226-234 | the mean is absent exactly when no session has a duration |
| Stats.AverageSessionTime | WorkPulse/Views/EndDayView.swift:226-241 | nil exactly when no session has a duration; otherwise `%d:%02d` of the mean |
| Stats.SumBounds | WorkPulse/Views/EndDayView.swift:233 | a sum of `n` values in `[lo,hi]` lies in `[n*lo, n*hi]` |
| Stats.AverageBounds | WorkPulse/Views/EndDayView.swift:226-234 | if every duration is in `[lo,hi]`, so is the mean |
| Stats.AverageOfEqual | WorkPulse/Views/EndDayView.swift:226-234 | sessions that all last `d` have mean `d` |
| Home.CircularProgress | WorkPulse/Views/HomeView.swift:620-623 | the ring is today's total capped at eight hours, and empty without a view model |
| Home.CircularProgressMonotone | WorkPulse/Views/HomeView.swift:620-623 | more work never shrinks the ring; it is full exactly from eight hours on |
| Home.HomeAverage | WorkPulse/Views/HomeView.swift:626-642 | no average exactly when there is no view model or no session has a duration |
| Home.BreakSeconds | WorkPulse/Views/HomeView.swift:646-663 | no break without a view model or with fewer than two sessions |
| Home.FormattedLastBreak | WorkPulse/Views/HomeView.swift:645-674 | `--:--` exactly when no break is known; whole minutes and `m` under an hour; `H:MM` from an hour on |
| Home.BreakIsBetweenNewestTwo | WorkPulse/Views/HomeView.swift:650-663 | the break runs from the end of the second-newest session to the start of the newest, both of which have ended |
| Home.NoBreakWhileNewestOpen | WorkPulse/Views/HomeView.swift:654-660 | while the session that started last has no end time there is no break, so the text is `--:--` |
| Home.SessionColor | WorkPulse/Views/HomeView.swift:677-687 | success exactly above an hour, secondary exactly at most half an hour, accent otherwise or with no duration |
| Home.SessionColorMonotone | WorkPulse/Views/HomeView.swift:677-687 | a longer session never gets a lower-ranked colour |
| Home.HomeScreen.constructor | WorkPulse/Views/HomeView.swift:7-16 | no sheet, no toast, success style |
| Home.HomeScreen.TimerButton | WorkPulse/Views/HomeView.swift:529-545 | while running: stop (one automatic session stored, no start time, counter 0, today's list reloaded) and a stop message; otherwise start from `now` with the counter at 0 unless the day has ended, and a start message; the day-ended flag, the recorded day and the derived durations are kept |
| Home.HomeScreen.SaveManualEntry | WorkPulse/Views/HomeView.swift:93-100 | exactly one manual session stored, sheet closed, the success toast shown |
| Home.HomeScreen.CancelManualEntry | WorkPulse/Views/HomeView.swift:102-104 | closes the sheet |
| Calendar.WeekStartsApart | WorkPulse/Views/CalendarView.swift:31-32 | two week starts are a whole number of weeks apart |
| Calendar.GridDays | WorkPulse/Views/CalendarView.swift:29-48 | the day starts from the Monday of the month's first week to the end of its last week; whole weeks by `Calendar.GridDaysWeeks`, covering the month by `Calendar.GridDaysCoverMonth` |
| Calendar.GridDaysWeeks | WorkPulse/Views/CalendarView.swift:29-48 | the grid is whole weeks and starts on a Monday |
| Calendar.GridDaysConsecutive | WorkPulse/Views/CalendarView.swift:39-47 | each grid date is a day start, one day after the previous |
| Calendar.GridDaysCoverMonth | WorkPulse/Views/CalendarView.swift:29-48 | every day of the month is in the grid |
| Calendar.Days | WorkPulse/Views/CalendarView.swift:36-47 | the loop builds exactly the grid |
| Calendar.SessionCountText | WorkPulse/Views/CalendarView.swift:287-290 | exactly the count followed by ` session`, with the plural `s` exactly when the count is not 1 |
| Calendar.SessionCountTextReadsBack | WorkPulse/Views/CalendarView.swift:287-290 | the caption's leading number reads back as the count |
| Calendar.DurationLine | WorkPulse/Views/CalendarView.swift:316 | `Duration: ` followed by the session's formatted duration and a line break, its last character before the break a digit |
| Calendar.SessionBlockMarker | WorkPulse/Views/CalendarView.swift:312-321 | a session block ends with the manual marker exactly when the session was added by hand |
| Calendar.ShareText | WorkPulse/Views/CalendarView.swift:292-327 | the title, the body and the footer; stated by `Calendar.ShareTextFrame`, `Calendar.ShareTextSummary` and `Calendar.BlocksInOrder` |
| Calendar.ShareTextFrame | WorkPulse/Views/CalendarView.swift:292-327 | the text starts with the title and ends with the footer; an empty day gives exactly title, no-sessions line and footer |
| Calendar.BlocksInOrder | WorkPulse/Views/CalendarView.swift:312-321 | each session's block follows the blocks of the sessions before it |
| Calendar.ShareTextSummary | WorkPulse/Views/CalendarView.swift:300-310 | a non-empty day starts with the count line and the total line; the hours and minutes shown are the total's whole minutes |
| Calendar.AppendBlocks | WorkPulse/Views/CalendarView.swift:312-321 | the loop appends exactly the blocks of all sessions |
| Calendar.BuildShareText | WorkPulse/Views/CalendarView.swift:292-327 | the imperative assembly produces exactly the share text |
| Calendar.GenerateShareText | WorkPulse/Views/CalendarView.swift:292-327 | the share text of `sessionsForDate` of the selected date |
| EndDay.StatsCards | WorkPulse/Views/EndDayView.swift:119-147 | total and count cards always; the average card exactly when some session of today has a duration |
| EndDay.StatsCardsAgreeWithStore | WorkPulse/Views/EndDayView.swift:130-145 | the count card reads back as the number of the store's sessions today; the average card appears exactly when one of them has a duration |
| EndDay.EndDaySheet.constructor | WorkPulse/Views/EndDayView.swift:5-7 | presented, not yet marked ended |
| EndDay.EndDaySheet.OnAppear | WorkPulse/Views/EndDayView.swift:55-57 | copies the view model's day-ended flag |
| EndDay.EndDaySheet.EndResumeButton | WorkPulse/Views/EndDayView.swift:171-196 | flips the view model's flag and its stored copy, keeping the recorded day and the derived durations: resume dismisses and changes nothing else; end stops a running timer (today's list reloaded when a session was saved) and marks the sheet ended |
| EndDay.EndDaySheet.Close | WorkPulse/Views/EndDayView.swift:213-216 | dismisses the sheet |
| CsvText.RowBody | WorkPulse/Views/SessionHistoryView.swift:237 | a row is its joined columns followed by one line break |
| CsvText.Quoted | WorkPulse/Views/SessionHistoryView.swift:237 | quoting keeps the number of columns |
| CsvText.QuotedAt | WorkPulse/Views/SessionHistoryView.swift:237 | each column is quoted on its own |
| CsvText.ReadColumns | WorkPulse/Views/SessionHistoryView.swift:237 | the reference reader splits a row into at least one column |
| CsvText.ReadQuotedJoin | WorkPulse/Views/SessionHistoryView.swift:237 | columns without `"`, quoted when they hold a comma and joined, read back as the same columns |
| CsvText.ReadJoin | WorkPulse/Views/SessionHistoryView.swift:237 | columns with no comma and no `"`, joined, read back as themselves |
| CsvText.QuotedPlain | WorkPulse/Views/SessionHistoryView.swift:237 | quoting leaves comma-free columns unchanged |
| CsvText.CommaSplitsColumn | WorkPulse/Views/SessionHistoryView.swift:237 | an unquoted column holding a comma reads back as two columns |
| CsvText.CommaSplitsFirst | WorkPulse/Views/SessionHistoryView.swift:237 | a comma in the first column splits it in two when read back |
| CsvText.JoinQuotedAvoids | WorkPulse/Views/SessionHistoryView.swift:237 | quoting and joining add no character other than `,` and `"` |
| CsvText.JoinAvoids | WorkPulse/Views/SessionHistoryView.swift:237 | joining adds no character other than `,` |
| CsvText.RowHasOneBreak | WorkPulse/Views/SessionHistoryView.swift:237 | a row of columns without line breaks has exactly one |
| CsvText.QuotedRowHasOneBreak | WorkPulse/Views/SessionHistoryView.swift:237 | the same after quoting |
| CsvText.RowType | WorkPulse/Views/SessionHistoryView.swift:235-237 | a row ends with `,Manual` exactly when its type column is `Manual` |
| History.Insert | WorkPulse/Views/SessionHistoryView.swift:177 | inserting keeps a strictly descending list and adds exactly the one date |
| History.SortedDescending | WorkPulse/Views/SessionHistoryView.swift:177 | `sorted(by: >)`: strictly descending with exactly the keys as members |
| History.DescendingUnique | WorkPulse/Views/SessionHistoryView.swift:177 | two descending lists with the same members are equal, so the dictionary's key order does not matter |
| History.Filter | WorkPulse/Views/SessionHistoryView.swift:183 | keeps exactly the dates satisfying the test, in order |
| History.FilteredDates | WorkPulse/Views/SessionHistoryView.swift:176-194 | descending; exactly the grouped days the tab shows |
| History.FilteredDatesIgnoreKeyOrder | WorkPulse/Views/SessionHistoryView.swift:177 | the result does not depend on the order `keys` lists them |
| History.AtMostOneDay | WorkPulse/Views/SessionHistoryView.swift:180-183 | at most one day start falls on today |
| History.TabsNested | WorkPulse/Views/SessionHistoryView.swift:179-193 | Today's dates are in This Week's, This Week's in All Time's; Today shows at most one day |
| History.CollectListed | WorkPulse/Views/SessionHistoryView.swift:206-210 | the loop concatenates the groups of the listed dates |
| History.SelectForExport | WorkPulse/Views/SessionHistoryView.swift:199-211 | the selected day's group, or the concatenation over the tab's dates |
| History.ConcatenatedMembers | WorkPulse/Views/SessionHistoryView.swift:206-210 | the concatenation holds exactly the sessions whose day is listed |
| History.ExportList | WorkPulse/Views/SessionHistoryView.swift:199-211 | the chosen day's group, or the listed days' groups in order; exact members by `History.ExportListMembers` |
| History.ExportListMembers | WorkPulse/Views/SessionHistoryView.swift:199-211 | exactly the sessions of the chosen day, or exactly those the tab shows |
| History.HeaderIsRow | WorkPulse/Views/SessionHistoryView.swift:228 | the header is the row of the five column names, none holding `,`, `"` or a line break |
| History.HeaderJoin | WorkPulse/Views/SessionHistoryView.swift:228 | the header is the names joined by commas plus a line break |
| History.HeaderColumns | WorkPulse/Views/SessionHistoryView.swift:228 | the header reads back as its five names |
| History.EntryType | WorkPulse/Views/SessionHistoryView.swift:235 | `Manual` exactly for manual entries |
| History.CsvColumns | WorkPulse/Views/SessionHistoryView.swift:231-235 | a session has five columns, like the header |
| History.BuildCsv | WorkPulse/Views/SessionHistoryView.swift:228-238 | the loop produces the header followed by one line per session, in order, each with its five columns joined as they are |
| History.LineOfColumns | WorkPulse/Views/SessionHistoryView.swift:231-237 | the five values of the loop body, joined unquoted, form the session's line as written |
| History.FormattedDurationNumeric | WorkPulse/Models/Session.swift:21-24 | a formatted duration holds only digits, `:` and `-` |
| History.NumericAvoids | WorkPulse/Models/Session.swift:21-24 | such text holds no line break, comma or `"` |
| History.ColumnsAvoid | WorkPulse/Views/SessionHistoryView.swift:231-235 | if the formatters produce no line break (or no `"`), no column holds one |
| History.EndColumnAvoids | WorkPulse/Views/SessionHistoryView.swift:233 | the end column holds no `,`, `"` or line break the time formatter does not produce |
| History.DurationPlain | WorkPulse/Views/SessionHistoryView.swift:234 | the duration column holds no `,`, `"` or line break |
| History.EntryTypePlain | WorkPulse/Views/SessionHistoryView.swift:235 | the type column holds no `,`, `"` or line break |
| History.CsvAsWritten | WorkPulse/Views/SessionHistoryView.swift:228-238 | the header, then each session's five columns joined as they are; its line count is `History.CsvAsWrittenLineCount` |
| History.Csv | WorkPulse/Views/SessionHistoryView.swift:228-238 | the header, then each session's line with a column holding a comma quoted; lines read back by `History.CsvLineReadsBack` |
| History.CsvAsWrittenLineCount | WorkPulse/Views/SessionHistoryView.swift:228-238 | the file as written has exactly one line per session plus the header |
| History.RowsAsWrittenLineCount | WorkPulse/Views/SessionHistoryView.swift:230-238 | the session lines as written hold exactly one line break each |
| History.LineAsWrittenHasOneBreak | WorkPulse/Views/SessionHistoryView.swift:237 | each session line as written holds exactly one line break |
| History.CsvLineAsWrittenType | WorkPulse/Views/SessionHistoryView.swift:235-237 | a line as written ends with `,Manual` exactly for manual entries |
| History.AsWrittenAgreesWithoutComma | WorkPulse/Views/SessionHistoryView.swift:228-238 | when no formatter writes a comma, the text as written is the quoted text |
| History.CsvLineCount | WorkPulse/Views/SessionHistoryView.swift:228-238 | the quoted text also has exactly one line per session plus the header |
| History.RowsLineCount | WorkPulse/Views/SessionHistoryView.swift:230-238 | the quoted session lines hold exactly one line break each |
| History.LineHasOneBreak | WorkPulse/Views/SessionHistoryView.swift:237 | each quoted session line holds exactly one line break |
| History.CsvLineType | WorkPulse/Views/SessionHistoryView.swift:235-237 | a quoted line also ends with `,Manual` exactly for manual entries |
| History.CsvLineReadsBack | WorkPulse/Views/SessionHistoryView.swift:231-237 | the quoted line reads back as the session's five columns, as many as the header |
| History.DateCommaAddsColumn | WorkPulse/Views/SessionHistoryView.swift:231-237 | a date holding a comma makes the line as written read back with one column more than the header |
| History.LaterColumnsAvoid | WorkPulse/Views/SessionHistoryView.swift:232-235 | the four columns after the date hold no `,` (or `"`) the time formatter does not produce |
| History.MediumDateAddsColumn | WorkPulse/Views/SessionHistoryView.swift:15-20 | with a medium date such as `Oct 16, 2026` the line as written reads back as six columns |
| History.CsvFilename | WorkPulse/Views/SessionHistoryView.swift:224-241 | `WorkPulse_Sessions_`, then the day's date with each space made `_` (or `All_Sessions` with no day chosen), then `.csv` |
| History.PdfFilename | WorkPulse/Views/SessionHistoryView.swift:245-257 | `WorkPulse_Sessions_`, then the label with each space made `_` (`All_Sessions` with no day chosen), then `.pdf` |
| History.FilenamesAgree | WorkPulse/Views/SessionHistoryView.swift:224-257 | neither file name holds a space, and they differ only in the extension |
| History.MakeFile | WorkPulse/Views/SessionHistoryView.swift:215-220 | CSV gives the CSV text as written under its name; PDF gives the renderer's input under its name |
| History.ExportSessions | WorkPulse/Views/SessionHistoryView.swift:198-221 | nothing is shared exactly when the selection is empty; otherwise the chosen format's file of the selection |
| History.DayTotalsAgree | WorkPulse/Views/SessionHistoryView.swift:359-361 | a day's total does not depend on the order of the sessions |
| History.DaySectionSubtitle | WorkPulse/Views/SessionHistoryView.swift:359-361 | the count, ` sessions · ` and the summed durations as `HH:MM:SS`; read back by `History.DaySectionSubtitleReadsBack` |
| History.DaySectionSubtitleReadsBack | WorkPulse/Views/SessionHistoryView.swift:359-361 | the subtitle's count reads back as the number of sessions and its time as their total |
| History.SubtitleReadsBack | WorkPulse/Views/SessionHistoryView.swift:361 | any `N sessions · HH:MM:SS` text reads back as its count and, when not negative, its total |
| History.DaySectionTotalIsDayTotal | WorkPulse/Views/SessionHistoryView.swift:359-361 | a day section's total equals the view model's `totalTimeForDate` |
| Pdf.SummaryCount | WorkPulse/Utils/SessionPDFRenderer.swift:118 | the count text reads back as the number of sessions |
| Pdf.SummaryTotal | WorkPulse/Utils/SessionPDFRenderer.swift:129-140 | the total text reads back as the total duration |
| Pdf.SummaryIgnoresOrder | WorkPulse/Utils/SessionPDFRenderer.swift:118-140 | the summary does not depend on the order of the sessions |
| Pdf.RowCells | WorkPulse/Utils/SessionPDFRenderer.swift:201-206 | start, end or `In Progress`, formatted duration, and `Manual` exactly for manual entries |
| Pdf.RowCellsAreCsvColumns | WorkPulse/Utils/SessionPDFRenderer.swift:201-206 | the PDF cells are the CSV columns after the date |
| Pdf.RowsUpTo | WorkPulse/Utils/SessionPDFRenderer.swift:200-230 | one row per session drawn so far |
| Pdf.RowsUpToAt | WorkPulse/Utils/SessionPDFRenderer.swift:200-230 | row `i` is drawn from the `i`-th sorted session |
| Pdf.Table | WorkPulse/Utils/SessionPDFRenderer.swift:200-227 | the corrected table, one row per session newest first; stated by `Pdf.TableRows` |
| Pdf.TableRows | WorkPulse/Utils/SessionPDFRenderer.swift:200-227 | one row per session, newest first; a divider under every row but the last |
| Pdf.SessionsTable | WorkPulse/Utils/SessionPDFRenderer.swift:200-230 | the loop draws the table as written: newest first, with a divider under every row whose session is not the last one handed in |
| Pdf.TableAsWritten | WorkPulse/Utils/SessionPDFRenderer.swift:200-230 | the table as the source draws it; row by row by `Pdf.RowsAsWrittenAt`, equal to `Pdf.Table` on newest-first input by `Pdf.AsWrittenAgreesOnSortedInput` |
| Pdf.RowsAsWrittenUpTo | WorkPulse/Utils/SessionPDFRenderer.swift:200-230 | one row per session as the source draws them |
| Pdf.RowsAsWrittenAt | WorkPulse/Utils/SessionPDFRenderer.swift:220 | as written, row `i` has a divider unless its session is the last of the unsorted input |
| Pdf.DividerAfterFinalRow | WorkPulse/Utils/SessionPDFRenderer.swift:220 | for `[older, newer]` the source puts a divider under the final row and none between the two |
| Pdf.AsWrittenAgreesOnSortedInput | WorkPulse/Utils/SessionPDFRenderer.swift:200-220 | when the input's last session is also the oldest, the source's table is the intended one |
| Forms.AcceptedRangeHasPositiveDuration | WorkPulse/Views/Components/SessionEditForm.swift:44-45 | an accepted range gives a session a positive duration |
| Forms.SessionEditForm.constructor | WorkPulse/Views/Components/SessionEditForm.swift:13-20 | starts at the session's times; no end time gives `now` |
| Forms.SessionEditForm.PickStart | WorkPulse/Views/Components/SessionEditForm.swift:26 | the start picker sets the start |
| Forms.SessionEditForm.PickEnd | WorkPulse/Views/Components/SessionEditForm.swift:31 | the end picker sets the end |
| Forms.SessionEditForm.Save | WorkPulse/Views/Components/SessionEditForm.swift:43-49 | saves exactly when the end is after the start; otherwise shows the error |
| Forms.SessionEditForm.DismissError | WorkPulse/Views/Components/SessionEditForm.swift:53 | the alert's OK hides the error |
| Forms.SessionEditForm.Cancel | WorkPulse/Views/Components/SessionEditForm.swift:39 | cancels |
| Forms.ManualSessionForm.constructor | WorkPulse/Views/Components/ManualSessionForm.swift:4-6 | each picker starts at its own clock read, no error |
| Forms.ManualSessionForm.PickStart | WorkPulse/Views/Components/ManualSessionForm.swift:15 | the start picker sets the start |
| Forms.ManualSessionForm.PickEnd | WorkPulse/Views/Components/ManualSessionForm.swift:20 | the end picker sets the end |
| Forms.ManualSessionForm.Save | WorkPulse/Views/Components/ManualSessionForm.swift:32-38 | saves exactly when the end is after the start; otherwise shows the error |
| Forms.ManualSessionForm.DismissError | WorkPulse/Views/Components/ManualSessionForm.swift:42 | the alert's OK hides the error |
| Forms.ManualSessionForm.Cancel | WorkPulse/Views/Components/ManualSessionForm.swift:28 | cancels |
| Forms.SaveUntouchedManualForm | WorkPulse/Views/Components/ManualSessionForm.swift:4-38 | saving the form without touching the pickers saves the two clock reads when the second is later, and otherwise is refused with the error; with a clock that does not go back, refused exactly when both reads are the same instant |
| Forms.EditAndSave | WorkPulse/Views/Components/SessionEditForm.swift:13-49 | after picking two times, the form saves exactly those times when the end is later, else shows the error |

## Left out

- Time zones, daylight saving time and calendar months: a day is a fixed 86400 seconds counted from the epoch. Day 0 is a Thursday. A month is handed to `Calendar.GridDays` as its start and end instants.
- Sub-second precision: times and `TimeInterval` values are whole seconds. `Int(self)` on a non-integral `Double` is not modelled.
- Floating point: the hex colour's conversion to `Double` channels, the progress ring's fraction (kept as a numerator over `WorkdaySeconds`), and every opacity and layout constant.
- Swift's `Int` is 64-bit; overflow of durations or of the `UInt64` hex scanner is not modelled.
- Persistence: SwiftData's `insert`, `delete`, `save` and `fetch` act on the `store` sequence and never fail. The `print` of a failure is left out. `UserDefaults` is the `dayEndedFlag` and `lastRecordedDay` fields.
- `todaySessions` and `allSessions` are functions of the store and of the day last loaded (`fetchDay`), not stored arrays. Every store change in the source is followed by `loadSessions`, so they agree.
- Timer scheduling: the repeating `Timer` is `Timesheet.TimesheetViewModel.Tick`, called by the environment once a second. Invalidating the timer has no model.
- `Date()`, `randomElement()` and date formatting are parameters: `now`, `choice`, and `int -> string` formatters.
- `Array(groupedSessions.keys)` in an unspecified order is the parameter `keys`. `History.FilteredDatesIgnoreKeyOrder` shows the order does not matter.
- Sort ties: sessions with equal start times keep a fixed order (a stable insertion sort). The source leaves their order unspecified.
- `Theme.Trim`: `Theme.IsAlphanumeric` is ASCII letters and digits only. `CharacterSet.alphanumerics` also keeps non-ASCII letters and digits, so on such text the model trims characters that the source keeps. The colours the app parses are ASCII.
- `Theme.ScanHex`: the scanner skips an optional `0x` or `0X`, then reads the hex digits at the front; text without any gives 0. Skipping white space before the digits is not modelled, since trimmed text starts with a letter or a digit.
- `CsvText.ReadColumns` is a reference reader for the quoting that `History.CsvLine` produces. It does not handle escaped `""` quotes or text after a closing quote.
- The PDF's page geometry, fonts, logo, footer date and `UIGraphicsPDFRenderer` are drawing. Only the summary figures and the table rows are modelled.
- Writing the temporary file and presenting the share sheet: `History.MakeFile` returns the file's name and content.
- `exportDataForMonth` (TimesheetViewModel.swift:243-246) returns `nil` and has no model.
- All SwiftUI layout, animation, haptics and navigation; only the state that the modelled actions change is kept.
- `Home.BreakSeconds`: its own contract gives only two of the no-break cases, no view model and fewer than two sessions. The open-newest-session case is `Home.NoBreakWhileNewestOpen`, for a newest session that started strictly last. What the break is comes from `Home.BreakIsBetweenNewestTwo`, for store lists without repeats. An open second-newest session also gives no break; no lemma states that case on its own.
- `Timesheet.TimesheetViewModel.TodaySessions` and `Timesheet.TimesheetViewModel.AllSessions`: their own contracts state only that they hold stored sessions. Their exact contents are in `Timesheet.TimesheetViewModel.FetchedLists`.

## Findings

| source | as written | input that shows it | evidently intended | confidence | as-written member | corrected member |
|---|---|---|---|---|---|---|
| WorkPulse/Views/SessionHistoryView.swift:237 | each CSV line joins the five values with commas and quotes none of them, while the date column uses the medium date style (line 17) | a session whose start date formats as `Oct 16, 2026`: the line reads back as six columns against the header's five | quote a field that holds a comma (section 2 of RFC 4180), so each line reads back as the five header columns | not executed | History.DateCommaAddsColumn | History.CsvLineReadsBack |
| WorkPulse/Utils/SessionPDFRenderer.swift:220 | the rows are drawn in newest-first order, but a divider is skipped only for the last session of the unsorted input | sessions handed in as `[older, newer]`: the divider falls under the final row and none separates the two rows | a divider under every row but the last row drawn | not executed | Pdf.DividerAfterFinalRow | Pdf.TableRows |
