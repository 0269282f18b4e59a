# CyberGlow Sentinel — verified model of the client-side logic

CyberGlow Sentinel is a single-page front end for a demonstration
malware scanner. It has no detection engine: its behaviour is timer-driven
state machines and small derivations over in-memory and browser-stored
data. This project models that behaviour in Dafny and proves what the pages
and contexts promise:

- the scan page's session: idle, scanning, paused or completed, driven by a
  200 ms interval (`scanner.dfy`);
- the landing-page scan animation: progress over a fixed step table, with the
  current step found by a search loop (`scan_animation.dfy`);
- the history dashboard: generating 91 days of past scans and sorting them
  newest first, the per-month chart, the severity counts, and the search and
  filter (`history.dfy`);
- the scan-history context: the signed-in user's list of scans, mirrored in
  the browser store under `scanHistory_<user id>` (`scan_history.dfy`);
- the authentication context: mock login and signup, session restore and
  logout through the store key `user` (`auth.dfy`);
- the sign-in form: login mode and two-step signup (`login.dfy`);
- the typewriter headline of the landing page (`hero.dfy`);
- the browser store as a map from keys to values, the history key format,
  and dates written as decimal epoch milliseconds (`storage.dfy`);
- the range of a value drawn from `Math.random()` (`random.dfy`).

Code that updates state step by step is modelled as classes with
`modifies` clauses, and each page and context class has a `Valid()`
invariant. Interval callbacks are `Tick` methods guarded by a
`timerActive` flag that stands for the running interval. The animation's
500 ms completion timeout is `ScanAnimation.CompletionTimeout`, guarded by
`completionPending`.
Every value drawn from `Math.random()` is passed in as a `real` in [0, 1).
Random identifiers are passed in as text, and the model constrains them
only by their prefix. The scan page counts progress in half-percent units,
so 200 means 100%. The animation counts elapsed time in whole milliseconds.

A few facts about the code shape the model:

- Cancelling a scan returns the page to idle at 0% (`src/pages/Scanner.tsx:188-198`).
- A found threat's level comes from two random draws (`src/pages/Scanner.tsx:90`).
- The scan page never clamps progress, so a system scan paused at a half
  percentage and then resumed ends at 100.5%.
- The animation's current step is the first step whose cumulative duration
  reaches the elapsed time (`src/components/home/ScanAnimation.tsx:44-51`).

## Model

| member | source | states |
|---|---|---|
| Storage.HistoryKey | src/contexts/ScanHistoryContext.tsx:30 | the key is `scanHistory_` followed by the user id |
| Storage.HistoryKeysSeparate | src/contexts/ScanHistoryContext.tsx:30-65 | two users share a history key exactly when they are the same user, and no history key is the session key `user` |
| Storage.LocalStorage.constructor | src/contexts/ScanHistoryContext.tsx:30 | the store starts with whatever the browser had saved |
| Storage.LocalStorage.GetItem | src/contexts/AuthContext.tsx:27 | getItem finds a value exactly when the key is present, and returns that key's value |
| Storage.LocalStorage.SetItem | src/contexts/AuthContext.tsx:48 | setItem changes exactly the one key, to the given value |
| Storage.LocalStorage.RemoveItem | src/contexts/AuthContext.tsx:106 | removeItem drops exactly the one key and keeps every other entry |
| DateText.FormatInstant | src/contexts/ScanHistoryContext.tsx:49 | a saved date is a non-empty string of decimal digits |
| DateText.InstantRoundTrip | src/contexts/ScanHistoryContext.tsx:33-36 | reading back a written date gives the same instant, and what is written is in canonical form |
| ScannerPage.ProgressStep | src/pages/Scanner.tsx:82-151 | definition: every tick adds 2% for a file scan, 0.5% for a system scan and 1% after a resume; the contract states only that the step is positive |
| ScannerPage.FilesIncrement | src/pages/Scanner.tsx:83-152 | a tick counts 1 file for a file scan, 1 to 10 for a system scan and 1 to 5 after a resume |
| ScannerPage.Detects | src/pages/Scanner.tsx:86 | definition: a tick finds a threat when its detection draw exceeds 0.9 |
| ScannerPage.LevelOf | src/pages/Scanner.tsx:90 | a threat is critical iff the first draw exceeds 0.7, suspicious iff it does not and the second exceeds 0.5, and safe otherwise |
| ScannerPage.DetailsOf | src/pages/Scanner.tsx:96 | definition: the details text for each level |
| ScannerPage.NewResult | src/pages/Scanner.tsx:90-98 | a found threat is critical iff the first level draw exceeds 0.7, and suspicious iff it does not and the second exceeds 0.5; its details name its level; the file name starts `file_`, the path starts `/system/`, and the timestamp is the tick's time |
| ScannerPage.DetailsIdentifyLevel | src/pages/Scanner.tsx:96 | two results have the same details text exactly when they have the same level |
| ScannerPage.FinalProgressBounds | src/pages/Scanner.tsx:115-122 | a running scan stops at 100% or more, but less than one step above 100% |
| ScannerPage.ResumedScanEnd | src/pages/Scanner.tsx:150-183 | after a resume, the scan stops at exactly 100% when paused at a whole percentage, and at 100.5% otherwise |
| ScannerPage.FreshScanEnd | src/pages/Scanner.tsx:81-123 | a scan started fresh stops at exactly 100% |
| ScannerPage.Scanner.constructor | src/pages/Scanner.tsx:24-29 | the page opens idle at 0% with no files counted and no results |
| ScannerPage.Scanner.StartScan | src/pages/Scanner.tsx:65-79 | while a scan is running nothing changes; otherwise a new scan starts at zero with no results and the timer running |
| ScannerPage.Scanner.PauseScan | src/pages/Scanner.tsx:129-138 | only a running scan pauses: the timer stops and every count is kept |
| ScannerPage.Scanner.ResumeScan | src/pages/Scanner.tsx:140-148 | only a paused scan resumes, from the kept counts, with the resume increments |
| ScannerPage.Scanner.CancelScan | src/pages/Scanner.tsx:188-198 | when idle or completed nothing changes; otherwise back to idle at 0%, keeping the counts and results |
| ScannerPage.Scanner.Tick | src/pages/Scanner.tsx:81-123 | one tick adds the step and the counted files, prepends one result exactly when a threat is found, keeps the threat count equal to the number of results, and completes and stops the timer once progress reaches 100% |
| ScannerPage.Scanner.RunToEnd | src/pages/Scanner.tsx:81-123 | letting the interval fire until it clears itself always completes the scan, at the progress FinalProgress gives, with the threat count equal to the number of results |
| DateText.ParseInstant | src/contexts/ScanHistoryContext.tsx:34 | definition: reads decimal text back as an instant, the model's `new Date(value)` |
| ScanAnimation.TotalDuration | src/components/home/ScanAnimation.tsx:34 | definition: the sum of the step durations |
| ScanAnimation.CumulativeMonotone | src/components/home/ScanAnimation.tsx:44-47 | cumulative durations never decrease, and the last one is the total |
| ScanAnimation.ScanStepsCumulative | src/components/home/ScanAnimation.tsx:6-34 | the step table's cumulative durations are 1500, 3500, 5700, 7500, 9100 and 10300 ms, and the total is 10300 ms |
| ScanAnimation.ProgressAt | src/components/home/ScanAnimation.tsx:40 | progress lies in [0, 100] and is 100 exactly when the elapsed time reaches the total |
| ScanAnimation.DivisionBelowOne | src/components/home/ScanAnimation.tsx:40 | elapsed over total is below 1 exactly when elapsed is below the total |
| ScanAnimation.ProgressMonotone | src/components/home/ScanAnimation.tsx:39-41 | progress never decreases as time goes on |
| ScanAnimation.FirstReachingIsLeast | src/components/home/ScanAnimation.tsx:45-51 | the search from a position finds the least step whose cumulative duration reaches the elapsed time, and finds none exactly when no step does |
| ScanAnimation.StepIndexIsLeast | src/components/home/ScanAnimation.tsx:44-51 | the step found is the least one whose cumulative duration reaches the elapsed time, and none is found exactly when the elapsed time passes every cumulative duration |
| ScanAnimation.StepIndexMonotone | src/components/home/ScanAnimation.tsx:44-51 | a later time never maps to an earlier step |
| ScanAnimation.FindStep | src/components/home/ScanAnimation.tsx:44-51 | the loop sets the step that covers the elapsed time, and keeps the current step when none does |
| ScanAnimation.ScanAnimation.constructor | src/components/home/ScanAnimation.tsx:22-25 | the animation opens not scanning, at step 0 and 0%, not complete |
| ScanAnimation.ScanAnimation.StartEnabled | src/components/home/ScanAnimation.tsx:102 | definition: the button is enabled unless a scan is running and not complete |
| ScanAnimation.ScanAnimation.StartScan | src/components/home/ScanAnimation.tsx:27-38 | a scan starts at step 0 and 0% with the timer running, and the button is then disabled |
| ScanAnimation.ScanAnimation.Tick | src/components/home/ScanAnimation.tsx:38-59 | each tick adds 30 ms; progress and step never go back; the timer runs exactly while the elapsed time is below the total; it stops at 100% after 10320 ms with completion scheduled |
| ScanAnimation.ScanAnimation.CompletionTimeout | src/components/home/ScanAnimation.tsx:55-57 | the timeout marks the scan complete at 100%, which enables the button again |
| HistoryPage.ToLower | src/pages/History.tsx:106 | lower-casing keeps the length and changes each upper-case ASCII letter to its lower-case form and nothing else |
| HistoryPage.Contains | src/pages/History.tsx:105-110 | definition: `includes`, the needle is a prefix of some suffix of the text |
| HistoryPage.SearchMatch | src/pages/History.tsx:105-110 | definition: an empty term matches; otherwise the term, lower-cased, occurs in the scan type or in some result's file name or threat type |
| HistoryPage.ToLowerIdem | src/pages/History.tsx:106 | lower-casing twice is lower-casing once |
| HistoryPage.SearchIgnoresCase | src/pages/History.tsx:105-110 | two search terms that differ only in case match the same scans, and a term matches as its lower-cased form does |
| HistoryPage.FilterMatch | src/pages/History.tsx:113-115 | definition: `all` keeps every scan, `threats` those with threats, `clean` those without, and any other filter none |
| HistoryPage.FilteredScans | src/pages/History.tsx:103-118 | the filtered list is an order-preserving subsequence of the history; a scan is in it exactly when it matches both the search and the filter, and then as many times as in the history |
| HistoryPage.FilterShowsAllByDefault | src/pages/History.tsx:105-113 | an empty search with filter `all` shows the whole history |
| HistoryPage.ThreatFilterPartitions | src/pages/History.tsx:113-117 | for any search, `threats` and `clean` keep exactly the scans with and without threats among the `all` result, and their sizes add up to it |
| HistoryPage.InsertByDate | src/pages/History.tsx:61 | inserting into a newest-first list keeps it newest first and adds exactly the one scan |
| HistoryPage.HeadDominates | src/pages/History.tsx:61 | a newer head in front of a newest-first list that holds only older scans stays newest first |
| HistoryPage.SortNewestFirst | src/pages/History.tsx:61 | the sort returns a permutation of its input, newest date first |
| HistoryPage.Reverse | src/pages/History.tsx:61 | the reversed list holds the same scans in opposite order |
| HistoryPage.InsertOldest | src/pages/History.tsx:61 | inserting a scan older than every scan in the list appends it |
| HistoryPage.SortOfOldestFirst | src/pages/History.tsx:21-61 | sorting scans generated oldest first reverses them |
| HistoryPage.MakeThreat | src/pages/History.tsx:35-47 | a generated threat has one of the five threat types, is critical iff its first severity draw exceeds 0.7, and is quarantined iff its action draw exceeds 0.3 |
| HistoryPage.DayScan | src/pages/History.tsx:28-58 | a day's scan has threats exactly when its first threat draw exceeds 0.7, has one result per threat, each built from that threat's draws, and has the day's date and id, at most 3 threats, 100 to 399 files and 30 to 149 seconds |
| HistoryPage.GenerateDay | src/pages/History.tsx:28-58 | the inner loop builds exactly the scan the day's draws make |
| HistoryPage.PushNewer | src/pages/History.tsx:50-58 | pushing a scan newer than every earlier one keeps the list oldest first and adds exactly that scan |
| HistoryPage.DayStep | src/pages/History.tsx:21-59 | one pass of the day loop appends the day's scan exactly when its skip draw is at most 0.3, keeping the list oldest first |
| HistoryPage.RecordedFromDays | src/pages/History.tsx:21-59 | after any number of days the loop's list is oldest first, has at most one scan per day, and holds exactly the scans of the days whose skip draw is at most 0.3, each the one its draws make |
| HistoryPage.SortedFromAllDays | src/pages/History.tsx:21-61 | after all 91 days, sorting gives a strictly newest-first list whose scans are exactly the recorded days' scans |
| HistoryPage.GeneratePastScans | src/pages/History.tsx:14-62 | strictly newest first, at most 91 scans; a day of the last 91 has a scan exactly when its skip draw is at most 0.3, and that scan is the one its draws make, dated that day |
| HistoryPage.SumsAfterUpdate | src/pages/History.tsx:74-75 | replacing one month's bar changes the totals by exactly that bar's difference |
| HistoryPage.AddScan | src/pages/History.tsx:70-75 | definition: counting one scan adds a zero bar for a new month, then 1 scan and the scan's threats to its month's bar |
| HistoryPage.MonthlyChart | src/pages/History.tsx:67-78 | definition: the reduction over the scans in order |
| HistoryPage.IndexOfMonth | src/pages/History.tsx:70 | the lookup finds the month's bar, or reports that no bar has that name |
| HistoryPage.IndexOfDistinct | src/pages/History.tsx:70 | with distinct names, looking up a bar's name finds that bar |
| HistoryPage.AddScanTotals | src/pages/History.tsx:70-76 | counting one scan keeps month names distinct and adds 1 scan and its threats to the totals |
| HistoryPage.AddScanBars | src/pages/History.tsx:70-76 | counting one scan changes only its own month's bar, by 1 scan and its threats |
| HistoryPage.MonthlyChartCounts | src/pages/History.tsx:67-78 | the chart has one bar per month; each bar counts exactly the scans and threats of its month; the bars add up to the number of scans and the total threats |
| HistoryPage.ScanCountsInItsMonth | src/pages/History.tsx:68-74 | every scan's month has at least one scan |
| HistoryPage.MonthlyChartBars | src/pages/History.tsx:67-78 | each bar counts exactly its own month's scans and threats, and every scan's month has a bar |
| HistoryPage.MonthlyData | src/pages/History.tsx:67-78 | the reduction builds that chart: one bar per month, every scan's month present, and per-month and overall counts exact |
| HistoryPage.Bump | src/pages/History.tsx:84-87 | definition: adds one to the count of the given severity |
| HistoryPage.Tally | src/pages/History.tsx:83-88 | definition: one count added per result, to its severity |
| HistoryPage.TallyScans | src/pages/History.tsx:82-91 | definition: the reduction from zero counts over every scan's results |
| HistoryPage.TallyCounts | src/pages/History.tsx:83-88 | counting one scan's results adds to each severity exactly the results of that severity, and the three add up to the number of results |
| HistoryPage.TallyScansCounts | src/pages/History.tsx:82-91 | starting from zero, each severity counts exactly its results across all scans, and the three add up to all results |
| HistoryPage.ThreatSeverityData | src/pages/History.tsx:82-91 | the reduction's low, suspicious and critical counts are exact and add up to the total number of results |
| ScanHistoryStore.Stamp | src/contexts/ScanHistoryContext.tsx:53-58 | a new entry keeps the caller's fields, gets an id starting `scan_`, and is dated now |
| ScanHistoryStore.ToStored | src/contexts/ScanHistoryContext.tsx:49 | definition: one scan as stored, its date written as text |
| ScanHistoryStore.FromStored | src/contexts/ScanHistoryContext.tsx:33-36 | definition: one stored entry read back, the reviver turning `scanDate` into a date |
| ScanHistoryStore.Serialize | src/contexts/ScanHistoryContext.tsx:49 | the written list has one entry per scan |
| ScanHistoryStore.Deserialize | src/contexts/ScanHistoryContext.tsx:33-36 | the parsed list has one scan per entry |
| ScanHistoryStore.SaveLoadRoundTrip | src/contexts/ScanHistoryContext.tsx:33-49 | saving a list and loading it back gives the same list in the same order, dates included |
| ScanHistoryStore.LoadSaveRoundTrip | src/contexts/ScanHistoryContext.tsx:33-49 | loading a stored list and saving it again writes back exactly what was stored |
| ScanHistoryStore.LoadHistory | src/contexts/ScanHistoryContext.tsx:28-44 | with no user, or nothing under the user's key, the loaded list is empty |
| ScanHistoryStore.SaveHistory | src/contexts/ScanHistoryContext.tsx:47-51 | the store is written only with a user and a non-empty list, and then loads back as that list; every other key is untouched |
| ScanHistoryStore.SwitchUserAsWritten | src/contexts/ScanHistoryContext.tsx:28-51 | a user change as written: the list shown is the new user's saved list; with no user the store is unchanged; the new user's key then holds their own list when they had one, the previous list on screen when they had none and it was not empty, and otherwise nothing changes; no other key changes and every stored list stays in written form |
| ScanHistoryStore.SwitchUserLeaksHistory | src/contexts/ScanHistoryContext.tsx:28-51 | as written, switching to any user with nothing saved while a non-empty list is on screen shows an empty list but stores that list under the new user's key, so the next load differs from what the user had |
| ScanHistoryStore.SwitchUserLeaksHistoryExample | src/contexts/ScanHistoryContext.tsx:28-51 | one such input: an empty store, one scan on screen, and user `b` signing in |
| ScanHistoryStore.SwitchUser | src/contexts/ScanHistoryContext.tsx:28-51 | a user change loads the new user's list and leaves the store exactly as it was |
| ScanHistoryStore.SaveLoadedUnchanged | src/contexts/ScanHistoryContext.tsx:28-51 | saving the list just loaded writes back what is already stored |
| ScanHistoryStore.SessionWritesKeepHistory | src/contexts/AuthContext.tsx:48-106 | writing or removing the session key leaves every user's saved list as it was |
| ScanHistoryStore.ScanHistoryProvider.constructor | src/contexts/ScanHistoryContext.tsx:24-25 | the context starts with no user and an empty list |
| ScanHistoryStore.ScanHistoryProvider.UserChanged | src/contexts/ScanHistoryContext.tsx:28-44 | with the corrected switch: after a user change, the list is the new user's saved list, or empty when there is none or no user; the store is unchanged |
| ScanHistoryStore.ScanHistoryProvider.UserChangedAsWritten | src/contexts/ScanHistoryContext.tsx:28-51 | the user change as the two effects are written: store and list end as SwitchUserAsWritten says, and the context invariant still holds |
| ScanHistoryStore.ScanHistoryProvider.AddScanResult | src/contexts/ScanHistoryContext.tsx:47-61 | exactly one stamped entry goes first and the earlier ones follow in order; the store is then saved |
| ScanHistoryStore.ScanHistoryProvider.ClearHistory | src/contexts/ScanHistoryContext.tsx:63-68 | with a user, the list empties and only that user's key is removed; without a user nothing changes |
| AuthContext.NameFromEmail | src/contexts/AuthContext.tsx:45 | the name is a prefix of the email with no `@`, ending at the first `@` or at the end of the email |
| AuthContext.NameFromEmailUnique | src/contexts/AuthContext.tsx:45 | these properties determine the name: any such prefix is the derived name |
| AuthContext.MakeUser | src/contexts/AuthContext.tsx:42-46 | a new user record has an id starting `user_` and the given email and name |
| AuthContext.AuthProvider.constructor | src/contexts/AuthContext.tsx:22-23 | the context starts with no user, loading |
| AuthContext.AuthProvider.RestoreSession | src/contexts/AuthContext.tsx:25-32 | the user stored under `user` is restored when present, otherwise there is still no user; loading ends |
| AuthContext.AuthProvider.Login | src/contexts/AuthContext.tsx:34-68 | succeeds iff email and password are non-empty and the store write does not throw; then the user with the given email and derived name is signed in and stored under `user`; otherwise user and store are unchanged; loading has ended either way |
| AuthContext.AuthProvider.Signup | src/contexts/AuthContext.tsx:70-103 | succeeds iff name, email and password are non-empty and the store write does not throw; then the user with the given name and email is signed in and stored under `user`; otherwise user and store are unchanged; loading has ended either way |
| AuthContext.AuthProvider.Logout | src/contexts/AuthContext.tsx:105-112 | the key `user` is removed, no other key changes, and no one is signed in |
| LoginPage.SubmitLabel | src/pages/Login.tsx:209 | the button reads `Login to Dashboard` in login mode, `Continue` at signup step 1 and `Create Account` at step 2 |
| LoginPage.SubmitLabelDistinguishes | src/pages/Login.tsx:209 | the label tells the mode and, in signup mode, the step |
| LoginPage.LoginForm.constructor | src/pages/Login.tsx:11-18 | the form opens in login mode at step 1, password hidden, all fields empty |
| LoginPage.LoginForm.ToggleView | src/pages/Login.tsx:20-23 | the mode flips and the step returns to 1 |
| LoginPage.LoginForm.ToggleShowPassword | src/pages/Login.tsx:25-27 | the password visibility flips and nothing else changes |
| LoginPage.LoginForm.HandleInputChange | src/pages/Login.tsx:29-35 | the named field takes the value and every other field keeps its own |
| LoginPage.LoginForm.HandleSubmit | src/pages/Login.tsx:37-57 | in login mode nothing changes; in signup mode the step becomes 2, from 1 or 2 |
| LoginPage.ToggleShowPasswordTwice | src/pages/Login.tsx:25-27 | flipping the visibility twice restores the original form |
| HeroSection.ShownAfter | src/components/home/HeroSection.tsx:15-18 | the text after k ticks is a prefix of the headline of length k - 1, and empty before the first tick |
| HeroSection.ShownAfterGrows | src/components/home/HeroSection.tsx:17-18 | more ticks never show less: each shown text extends the earlier ones |
| HeroSection.Typewriter.constructor | src/components/home/HeroSection.tsx:8-16 | mounting starts the interval with the counter at 0 and no text |
| HeroSection.Typewriter.Tick | src/components/home/HeroSection.tsx:16-23 | the k-th tick shows the first k - 1 characters and extends the previous text; the interval runs exactly while the counter has not passed the text length |
| HeroSection.Typewriter.Unmount | src/components/home/HeroSection.tsx:25 | unmounting clears the interval and keeps the text |
| HeroSection.Typewriter.RunToEnd | src/components/home/HeroSection.tsx:15-23 | the interval stops after length + 1 ticks in all, with the whole headline shown |

## Left out

- Rendering, styling, icons and toasts. They are presentation and carry no state the pages read back.
- Timers. `setInterval` and `setTimeout` are `Tick` and timeout methods that the caller invokes; the 30, 50, 200 and 500 ms periods are not modelled as time.
- The global interval handle on `window`. It is the scan page's `timerActive` flag.
- Randomness. Draws are parameters in [0, 1). Random base-36 identifiers and name fragments are parameters, constrained only by their prefixes.
- The simulated one-second network delay in login and signup. The modelled methods return after it, so the moment when `isLoading` is true is not observable in the model.
- JSON text. The store holds structured values. Dates are written as decimal epoch milliseconds rather than ISO 8601 text, which keeps the round trip that the date reviver provides.
- Month names from `toLocaleString`. The month is an opaque function of the date, passed in.
- Calendar arithmetic. The generated dates are day numbers `today - i` rather than `Date` objects.
- ScanHistoryStore.ScanHistoryProvider.UserChanged: uses the corrected user switch from the Findings table, so it never writes; `UserChangedAsWritten` models the two effects as written.
- ScanAnimation.ProgressAt: computes with exact reals where the source uses IEEE doubles.
- HistoryPage.ToLower: lower-cases ASCII letters only; `toLowerCase` covers all of Unicode.
- ScanAnimation.ScanAnimation.StartScan: requires the button to be enabled, since the page only calls it from the button, which is disabled while a scan runs.
- Store writes other than login and signup. `Storage.LocalStorage.SetItem` always succeeds; only `Login` and `Signup` model a throwing `setItem`, through their `writeFails` parameter, because only they catch it. The history saves in `src/contexts/ScanHistoryContext.tsx` do not catch, so a failing save there is outside the model.
- ScanHistoryStore.ScanHistoryProvider.constructor: requires `StoreCanonical`, that is, every saved history in the store was written by this app in the form `Serialize` produces; a hand-edited or foreign entry under a `scanHistory_` key is not modelled.
- Drag-and-drop and file input on the scan page. They only start a file scan, which `StartScan(FileScan)` models.
- The chart and pie display arrays built from the reductions. They are renaming for the charts.

## Findings

| source | as written | input that shows it | evidently intended | confidence | as-written member | corrected member |
|---|---|---|---|---|---|---|
| src/contexts/ScanHistoryContext.tsx:28-51 | when `user` changes, the save effect runs in the same commit as the load effect, with the list still on screen, which is the previous user's | user A with one saved scan is signed in; user B, who has nothing saved, signs in without signing out first; A's scan is stored under `scanHistory_<B's id>` and B sees it on the next load | a user change only loads the new user's list and never writes another user's list under their key | not executed; low: no page in the app calls login, signup or logout (`src/pages/Login.tsx:37-57` only moves between signup steps), so the stale save cannot be reached from the app's pages | ScanHistoryStore.SwitchUserLeaksHistory | ScanHistoryStore.SwitchUser |
