# MobilApp focus timer, modelled in Dafny

MobilApp is a Pomodoro-style focus timer for phones with three screens.
The home screen runs a countdown. The countdown has an adjustable target of
5 to 120 minutes, a distraction counter and a list of study categories. It has
an optional goal for the session, and it pauses by itself when the app leaves
the foreground. Each finished session is summarised on screen and appended to
a log kept under the storage key `@sessions`. The reports screen adds that log
up: the number of sessions, the focus time, the distractions, and the focus
time per category. The history screen lists the log newest first, one card
per session.

The project has one module per concern:

- `Optional` (optional.dfy) is JavaScript's `null`/`undefined` and the `x || d` fallback.
- `JsText` (js_text.dfy) is `String.prototype.trim` and `toLowerCase`, plus the case-insensitive comparisons.
- `TimeFormat` (time_format.dfy) is `formatTime`, with a reader for its output that states what the text means.
- `SessionLog` (session_log.dfy) holds the stored record, the three states of the stored value, and the read-modify-write append.
- `Timer` (timer.dfy) holds the class `FocusTimer`, one method per home-screen handler. The object's whole state is available as the value `State()`, and the invariant every handler keeps is `Invariant`.
- `Reports` (reports.dfy) is the aggregation. The `forEach` that fills `categoryMap` is a loop; the folds are functions.
- `History` (history.dfy) covers loading. The sort runs in place on an array as a stable insertion sort, and is proved equal to a functional sort. It also covers the card display defaults.
- `SessionFlow` (session_flow.dfy) connects the three screens: what a finished session adds to the report and where it appears in the history list.

Timestamps are integers. `now` stands for both `Date.now()` and `new Date()` at
the end of a session. The stored value is `Missing` (no value or an empty one),
`Malformed` (`JSON.parse` throws) or `Stored(records)`.

The model keeps two behaviours of the home screen that a user may not expect,
because the source's intent for them is not clear. Pressing start never resets
the countdown. After a countdown has run out, starting again therefore begins
at 0 seconds left, and the next tick logs another session as long as the whole
target (`Timer.RestartAfterCompletionLogsFullTarget`). Stopping a session and
starting again resumes where the countdown stood. A second stop therefore logs
the time before the first stop again (`Timer.StopRestartStopCountsTwice`).

## Model

| member | source | states |
|---|---|---|
| JsText.Trim | screens/HomeScreen.js:239 | the result is a stretch of the input with no whitespace at either end, and everything cut off before and after it is whitespace |
| JsText.TrimEmptyIffAllWhitespace | screens/HomeScreen.js:237 | `trim()` gives the empty string exactly when the input is all whitespace (ECMAScript's WhiteSpace and LineTerminator set) |
| JsText.TrimFixesTrimmed | screens/HomeScreen.js:239 | trimming leaves a string alone exactly when neither end is whitespace; trimming twice equals trimming once |
| JsText.LowerChar | screens/HomeScreen.js:241-243 | an upper-case ASCII letter maps to the letter 32 code points on; a lower-case ASCII letter maps to itself |
| JsText.ToLowerCase | screens/HomeScreen.js:241-243 | same length; each character is mapped by the lower-case mapping on its own |
| JsText.DifferentAt | screens/HomeScreen.js:241-243 | two names that lower-case differently at one position are different ignoring case |
| JsText.AppendKeepsDistinct | screens/HomeScreen.js:241-250 | appending a name not already present ignoring case keeps the list free of case-insensitive duplicates |
| TimeFormat.Decimal | screens/HistoryScreen.js:61 | `String(n)`: digits only, denoting `n`, with no leading zero from 10 up; one digit exactly below 10, two exactly from 10 to 99 |
| TimeFormat.PadStart2 | screens/HistoryScreen.js:61 | `padStart(2, "0")`: at least two characters, the input at the end, zeros before it |
| TimeFormat.PadValue | screens/HistoryScreen.js:59-61 | the padded field denotes `n` and has two digits exactly when `n < 100` |
| TimeFormat.FormatTime | screens/HistoryScreen.js:58-62 | digits, ':' and two digits; exactly five characters while under 100 minutes; a longer text has no leading zero |
| TimeFormat.SecondsTwoDigits | screens/HistoryScreen.js:60-61 | the seconds field (below 60) is always two digits |
| TimeFormat.FormatTimeRoundTrip | screens/HistoryScreen.js:58-62 | reading back `formatTime(m*60 + s)` with `s < 60` gives `m` and `s` |
| TimeFormat.ParseFormatTime | screens/HomeScreen.js:143-147 | reading back `formatTime(t)` gives `floor(t/60)` and `t % 60` |
| TimeFormat.FormatZero | screens/HistoryScreen.js:98 | a missing duration is shown as "00:00" |
| SessionLog.CategoryKey | screens/ReportsScreen.js:43 | never empty; a non-empty category is its own key; a missing or empty one gives "Diğer" |
| SessionLog.ReadOrEmpty | screens/ReportsScreen.js:21-22 | absent gives the empty list, a parsed list itself, and a parse failure no list |
| SessionLog.Appended | screens/HomeScreen.js:195-202 | a readable log becomes the list read with the record pushed on its end; an unreadable one is left as it was |
| SessionLog.AppendThenRead | screens/HomeScreen.js:196-199 | after the append, reading gives the earlier list unchanged followed by the new record |
| Timer.ClampMinutes | screens/HomeScreen.js:152 | the result lies in [5,120], equals the input inside that range and the nearer bound outside it |
| Timer.GoalOf | screens/HomeScreen.js:217 | `sessionGoal.trim() \|\| null`: absent when the trimmed text is empty, otherwise the trimmed text |
| Timer.GoalOfBlank | screens/HomeScreen.js:217 | no goal exactly when the goal text is blank; a goal is non-empty and trimmed |
| Timer.RecordOf | screens/HomeScreen.js:185-193 | the stored record reads back the summary's duration, distractions, category, reason and goal, dated `now` |
| Timer.SameCategoriesKeepInvariant | screens/HomeScreen.js:225-234 | a change that keeps the list, selects one of its names and keeps the countdown in range keeps the invariant |
| Timer.Ended | screens/HomeScreen.js:205-223 | ending stops the timer and keeps the categories, target, countdown, distractions and goal text; with no elapsed time the summary and log are untouched; otherwise the summary shows the selected category, the elapsed time, the distractions and the reason, and the background flag is cleared |
| Timer.EndedLogsSession | screens/HomeScreen.js:205-223 | ending stops the timer and keeps the settings; with no elapsed time nothing is shown or logged; otherwise the log gains exactly one record at its end, with the selected category, elapsed time, distractions, reason, end time and goal |
| Timer.CompletedAsWritten | screens/HomeScreen.js:73-89 | the last tick as written: stopped with 0 left, and the summary takes the category, distractions and goal of the render that installed the interval, with the full target as its length |
| Timer.StaleTickDropsDistraction | screens/HomeScreen.js:73-89 | a run with one counted distraction that runs out is saved with 0 distractions by the callback as written, and with 1 by the current-value model |
| Timer.InitialCategoriesDistinct | screens/HomeScreen.js:15 | the four default categories are distinct ignoring case |
| Timer.InitialCategoriesTrimmed | screens/HomeScreen.js:15 | the default categories are non-empty and trimmed |
| Timer.FocusTimer.constructor | screens/HomeScreen.js:22-37 | default categories, the first selected, a stopped 25-minute countdown, no distractions, summary, goal or flag; the invariant holds |
| Timer.FocusTimer.EditNewCategoryName | screens/HomeScreen.js:296-297 | only the category input text changes |
| Timer.FocusTimer.EditSessionGoal | screens/HomeScreen.js:317-318 | only the goal text changes |
| Timer.FocusTimer.AdjustTargetMinutes | screens/HomeScreen.js:149-157 | no-op while running; otherwise the clamped target, a full countdown, no distractions and no summary; nothing else changes |
| Timer.FocusTimer.SaveSessionToStorage | screens/HomeScreen.js:184-203 | only the log changes, to the append of the record built from the summary |
| Timer.FocusTimer.EndSession | screens/HomeScreen.js:205-223 | the new state is `Ended(old state)`: always stopped; a session of positive length shows its summary, is logged and clears the background flag; the invariant holds |
| Timer.FocusTimer.Tick | screens/HomeScreen.js:69-89 | the new state is `Ticked(old state)`: nothing while stopped; above one second left it counts down by exactly one; otherwise the countdown is 0 and the session ends as completed with the full target as its length |
| Timer.FocusTimer.StartPause | screens/HomeScreen.js:159-169 | the new state is `StartPaused(old state)`; running: ends the session with `target*60 - remaining` seconds; stopped: clears the summary and starts; the countdown is unchanged and the flag cleared either way |
| Timer.StartPaused | screens/HomeScreen.js:159-169 | the countdown and target are kept, the running flag flips, and the background flag is cleared |
| Timer.Ticked | screens/HomeScreen.js:73-82 | above one second left a running timer keeps running one second lower; otherwise it stops at 0; the target and categories are kept |
| Timer.RestartAfterCompletionLogsFullTarget | screens/HomeScreen.js:159-169 | starting again after a countdown ran out and ticking once logs exactly one more record, of the whole target's length, as completed |
| Timer.StopRestartStopCountsTwice | screens/HomeScreen.js:159-169 | stop, start and stop with no tick between log two records, each as long as the time elapsed before the first stop; the countdown is unchanged |
| Timer.FocusTimer.Reset | screens/HomeScreen.js:171-177 | stopped, a full countdown of the same target, no distractions, summary or flag; nothing else changes |
| Timer.FocusTimer.ManualDistraction | screens/HomeScreen.js:179-182 | no-op while stopped; exactly one more distraction while running |
| Timer.FocusTimer.OnAppStateChange | screens/HomeScreen.js:92-141 | leaving the foreground while running pauses, counts a distraction and sets the flag; returning with the flag set resumes on "yes", stays stopped on "no", and clears the flag either way; other transitions only record the app state |
| Timer.FocusTimer.SelectCategory | screens/HomeScreen.js:225-234 | selects the category; stopped 25-minute countdown, no distractions, summary, flag or goal |
| Timer.FocusTimer.AddCategory | screens/HomeScreen.js:236-253 | blank name: no change; a name equal to an existing one ignoring case: no change; otherwise the trimmed name is appended and selected and the input cleared; the list stays free of case-insensitive duplicates |
| Reports.LoadSessions | screens/ReportsScreen.js:19-27 | absent gives the empty list, a parsed list is taken as is, and a parse failure keeps the current list |
| Reports.RoundMinutes | screens/ReportsScreen.js:34 | `Math.round(seconds/60)`: the nearest whole minute, half a minute rounding up |
| Reports.TotalSeconds | screens/ReportsScreen.js:30-33 | no session's duration (0 when missing) exceeds the total |
| Reports.TotalDistractions | screens/ReportsScreen.js:35-38 | no session's distraction count (0 when missing) exceeds the total |
| Reports.SumByZero | screens/ReportsScreen.js:30-38 | a `reduce` total is 0 when every term is 0 |
| Reports.SumByAppend | screens/ReportsScreen.js:30-38 | the `reduce` totals add over concatenation |
| Reports.CategoryTotals | screens/ReportsScreen.js:41-45 | the latest session's category has a total |
| Reports.CategoryOrder | screens/ReportsScreen.js:47 | no more labels than sessions, and no labels exactly when there are no sessions |
| Reports.CategoryKeysExact | screens/ReportsScreen.js:41-47 | the labels are distinct and are exactly the categories in the log; they are exactly the map's keys |
| Reports.CategoryTotalIsFilteredSum | screens/ReportsScreen.js:41-45 | `categoryMap[c]` is the total duration of the records of category `c` |
| Reports.CategoryTotalsStep | screens/ReportsScreen.js:42-44 | visiting one record adds its duration to the sum of the category totals |
| Reports.CategoryTotalsSumToTotal | screens/ReportsScreen.js:30-45 | the category totals add up to `totalSeconds` |
| Reports.CategoryOrderIsFirstOccurrence | screens/ReportsScreen.js:47 | labels are listed in the order their categories first occur in the log |
| Reports.CategoryDurations | screens/ReportsScreen.js:48-50 | one entry per label, the label's total rounded to minutes |
| Reports.BuildCategoryMap | screens/ReportsScreen.js:41-47 | the loop builds the map of per-category totals and its keys in insertion order |
| Reports.ComputeReport | screens/ReportsScreen.js:29-50 | count, totals, rounded minutes, labels and per-label minutes as above; the category breakdown sums to the total; no labels (the "no data" branch) exactly when the log is empty, and then every total is 0 |
| History.Insert | screens/HistoryScreen.js:51 | one insertion step makes the list one longer and contains the inserted record |
| History.SortByDateDesc | screens/HistoryScreen.js:51 | the sort keeps the length |
| History.InsertPermutes | screens/HistoryScreen.js:51 | one insertion step adds exactly the inserted record |
| History.InsertKeepsNewestFirst | screens/HistoryScreen.js:51 | one insertion step keeps a newest-first list newest first |
| History.InsertStable | screens/HistoryScreen.js:51 | one insertion step places the record after those of equal date |
| History.InsertSplit | screens/HistoryScreen.js:51 | where one insertion step places the record |
| History.SortPermutes | screens/HistoryScreen.js:51 | the sorted list is a permutation of the loaded one |
| History.SortIsNewestFirst | screens/HistoryScreen.js:51 | the sorted list is ordered by date, newest first |
| History.SortIsStable | screens/HistoryScreen.js:51 | records with equal dates keep their stored order |
| History.InsertAt | screens/HistoryScreen.js:51 | the in-place step: the prefix becomes the insertion of the next record; the rest is untouched |
| History.SortInPlace | screens/HistoryScreen.js:51 | the array ends up as the functional newest-first stable sort of what it held |
| History.LoadSessions | screens/HistoryScreen.js:47-56 | absent gives the empty list; a parsed list comes back newest first, as a permutation, with ties in stored order; a parse failure keeps the current list |
| History.CardOf | screens/HistoryScreen.js:88-115 | the duration text reads back as the duration (0, "00:00", when missing); missing distractions show as 0; goal and reason lines appear exactly when they hold a non-empty string |
| Reports.ObjectMapAsWritten | screens/ReportsScreen.js:41-45 | the plain object `categoryMap` as written never gets the key `__proto__` |
| Reports.ObjectMapAgrees | screens/ReportsScreen.js:41-45 | away from the names inherited from `Object.prototype` the plain object holds the totals of CategoryTotals, with the same keys; an inherited name holds text |
| Reports.LabelsAsWritten | screens/ReportsScreen.js:47 | `Object.keys` of the plain object never lists `__proto__` |
| Reports.ProtoCategoryShowsNoData | screens/ReportsScreen.js:41-47 | one ten-minute session in category "__proto__" gives no labels as written, so the "no data" branch shows beside a session count of 1 |
| Reports.InheritedCategoryShowsNaN | screens/ReportsScreen.js:41-50 | ten minutes in category "toString" hold text as written, so its minutes come out NaN; the model gives 10 |
| SessionFlow.EndedSessionCounts | screens/ReportsScreen.js:29-45 | after a session of `e` seconds ends, the report has one more session, `e` more seconds, the session's distractions, and `e` more seconds for the selected category |
| SessionFlow.NewestSessionListedFirst | screens/HistoryScreen.js:51 | a session that ends after every logged one heads the history list, followed by the earlier list in sorted order |

## Left out

- Timer.FocusTimer.Tick: the last tick records the current distraction count and goal. The source records the values the interval's closure captured at the last start or resume; `Timer.CompletedAsWritten` models that behaviour, and it is listed under Findings.
- Timer.FocusTimer.OnAppStateChange: the "continue?" alert is asynchronous in the source. Here the button the user presses is the `resume` parameter, applied when the app returns to the foreground.
- JsText.LowerChar: the lower-case mapping covers ASCII, Latin-1 and the Turkish letters Ğ and Ş only. Other letters, including İ (its lower-case form is two code points), map to themselves.
- Reports.ComputeReport: the "no labels exactly when the log is empty" clause holds for the model's dictionary, which has no inherited names. In the source a log whose only category is "__proto__" gets no labels; see Findings.
- Reports.BuildCategoryMap: the map is a dictionary with no names inherited from `Object.prototype`, so "toString" or "__proto__" is an ordinary category here; the source's behaviour is under Findings. The labels are given in insertion order. JavaScript's `Object.keys` lists integer-like keys (a category named "2024") first, in numeric order; that ordering is not modelled.
- The report screen's charts, the pie data and every style object are display only.
- Storage is an abstract value. AsyncStorage, `JSON.parse`/`JSON.stringify` and `console.log` are not modelled, and neither is a failed `setItem`, which the source catches and only logs.
- A stored value that parses to something other than an array of records is not modelled.
- Durations and distraction counts are natural numbers, which are the only values the timer writes. Negative or fractional stored numbers are not modelled.
- The record's id (`Date.now().toString()`) and date (`new Date().toISOString()`) are one integer timestamp, and `toLocaleString` date formatting is left out. The sort compares these integers, as `new Date(b.date) - new Date(a.date)` compares the times.
- `setInterval`/`clearInterval` timing and React effect re-subscription are not modelled: each firing of the interval is one call to `Tick`.
- PanResponder swipe navigation, App.js (notification setup) and navigation/TabNavigator.js are UI wiring with no logic to model.

## Findings

| source | as written | input that shows it | evidently intended | confidence | as-written member | corrected member |
|---|---|---|---|---|---|---|
| screens/ReportsScreen.js:41-47 | `categoryMap` is a plain `{}`, and assigning a number to its `__proto__` sets nothing, so that category never gets a label | one session of 600 seconds in category "__proto__": `categoryLabels` is empty, the "no data" message shows, and the session count is 1 | every category that occurs gets a label and its total | not executed; high | Reports.ProtoCategoryShowsNoData | Reports.ComputeReport |
| screens/ReportsScreen.js:41-50 | `categoryMap[cat] \|\| 0` reads an inherited function for a category named after an `Object.prototype` member, and adding a number to it makes text | one session of 600 seconds in category "toString": its bar shows NaN minutes | the category's total of 10 minutes | not executed; high | Reports.InheritedCategoryShowsNaN | Reports.ComputeReport |
| screens/HomeScreen.js:69-89 | the interval callback calls the `endSession` of the render that installed the effect (deps `[isRunning, targetMinutes]`), so the saved distraction count and goal are those at the last start or resume | start a run, press "distracted" once, let the countdown run out: the record is saved with 0 distractions | the record holds the distractions counted during the run, as when the session is stopped with the button | not executed; high | Timer.StaleTickDropsDistraction | Timer.FocusTimer.Tick |

