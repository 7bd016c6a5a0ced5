# DueTime, modelled in Dafny

DueTime is a passive time tracker for Windows. A signal source watches the
foreground window and the time since the last user input. A tracking service
turns those signals into closed time entries: it writes each one to a
repository and announces it through `TimeEntryRecorded`. Around this core
sit an AI client that suggests a project for an entry, the view models and
views that show entries, projects, rules and weekly analytics, and a page
that manages the background service.

The project models:

- **Two generations of the tracker.**
  - The first generation lives in namespace `DueTime.TrackingEngine.Services`
    and is modelled by modules `EngineTracking` and `EngineEvents`.
  - The second generation lives in `DueTime.Tracking` and is modelled by
    modules `Tracking` and `SystemEvents`.
  - `Session` wires the second-generation service to its signal source.
- **Classes for the trackers.** Each tracker is a class over its own fields.
  Every handler is one atomic step, and `DateTime.Now` is an explicit,
  non-decreasing argument.
  - The repository and the event subscribers become two logs on the object,
    `persisted` and `emitted`.
  - A ghost log `dropped` records every open entry that is discarded without
    being persisted.
  - Each class invariant states the following:
    - persisted equals emitted;
    - every persisted entry starts no later than it ends;
    - consecutive entries do not overlap;
    - the open entry starts after all persisted ones;
    - no entry is open while idle.
- **The suggestion pipeline.**
  - `AIClient` covers the cache key, the cache, and the post-processing of a
    reply.
  - `MainWindow` and `DashboardVM` cover the gating, the case-insensitive
    resolution of a suggestion to a project, and the override counter.
- **The smaller deterministic pieces.**
  - `Adapter` covers the entry conversions.
  - `AnalyticsVM` and `DashboardView` cover the weekly aggregation, over
    integer ticks and whole minutes.
  - `ProjectsVM` and `ProjectsView` cover the project and rule editing, with
    project auto-selection and folder-name extraction.
  - `ServiceView` covers the service page.
  - `WindowPicker` covers the window filter and sort.
- **Shared helpers.**
  - `Common` holds the entity records, ASCII case folding, `Trim`,
    `Contains` and decimal formatting.
  - `Grouping` holds group-by, totals and the descending sort.
  - `Paths` holds the `System.IO.Path` helpers.
  - `Timeline` holds the shape of the persisted log.
  - `Entries` holds entries as shared, reference-compared objects.

Win32 readings, repository answers and AI replies are parameters of the
operations that use them. A call that throws becomes `None`, or a dedicated
constructor of a probe datatype.

## Model

| member | source | states |
|---|---|---|
| Adapter.ConvertToDataModel | DueTime.UI/TimeEntryAdapter.cs:12-23 | The six core fields are copied and ProjectName is left unset. |
| Adapter.ConvertToTrackingModel | DueTime.UI/TimeEntryAdapter.cs:25-37 | The six core fields and ProjectName are copied. |
| Adapter.TrackingRoundTrip | DueTime.UI/TimeEntryAdapter.cs:14-22 | Tracking→Data→Tracking keeps every field except ProjectName, which becomes null. It is the identity exactly on entries without a name. |
| Adapter.DataRoundTrip | DueTime.UI/TimeEntryAdapter.cs:27-36 | Data→Tracking→Data keeps every field except ProjectName. It is the identity exactly on entries without a name. |
| AnalyticsVM.ValidEntries | DueTime.UI/ViewModels/AnalyticsViewModel.cs:172 | An entry is kept if and only if its EndTime is not DateTime.MinValue, and each kept entry appears as many times as in the input. |
| AnalyticsVM.ValidEntriesAppend | DueTime.UI/ViewModels/AnalyticsViewModel.cs:172 | The filter keeps the input's order: filtering two runs in sequence equals filtering each and concatenating the results. |
| AnalyticsVM.ProjectTotals | DueTime.UI/ViewModels/AnalyticsViewModel.cs:328-336 | The per-project totals are in descending order. |
| AnalyticsVM.ProjectTotalsAccount | DueTime.UI/ViewModels/AnalyticsViewModel.cs:328-336 | Every entry's project key (null as -1) has a total equal to the truncated minutes of exactly the entries with that key. Every total belongs to some entry's key. The totals add up to the minutes of all entries. |
| AnalyticsVM.ProjectLabel | DueTime.UI/ViewModels/AnalyticsViewModel.cs:362-377 | The key -1 is labelled "(No Project)". An id that no project has is labelled "Unknown Project". A known id is labelled with the name of the first project that has it. |
| AnalyticsVM.ProjectGroupName | DueTime.UI/ViewModels/AnalyticsViewModel.cs:464-471 | A null id names the group "(No Project)". An id that no project has names it "Unknown Project". A known id names it after the first project that has it. |
| AnalyticsVM.Slots | DueTime.UI/ViewModels/AnalyticsViewModel.cs:354 | The number of coloured projects is at most the number of projects and at most the palette size (7). |
| AnalyticsVM.BuildColourMap | DueTime.UI/ViewModels/AnalyticsViewModel.cs:353-360 | The loop builds palette slots for the first min(n, 7) projects, then maps -1 to gray. |
| AnalyticsVM.ColourMapSlots | DueTime.UI/ViewModels/AnalyticsViewModel.cs:353-360 | An id has a colour if and only if one of the first min(n, 7) projects carries it. With distinct ids, the i-th project gets palette slot i. |
| AnalyticsVM.SlicesAccount | DueTime.UI/ViewModels/AnalyticsViewModel.cs:379-398 | The pie's slices add up to the truncated minutes of all the entries, so every minute is shown exactly once. Each slice is labelled with its project's name or the fallback label. A project with an assigned colour is drawn in that colour. |
| AnalyticsVM.DayBuckets | DueTime.UI/ViewModels/AnalyticsViewModel.cs:404-419 | There are exactly seven day buckets. |
| AnalyticsVM.DayBucketsStep | DueTime.UI/ViewModels/AnalyticsViewModel.cs:412-418 | A further entry adds its duration to exactly its own day's bucket, or to none when it starts outside the week. |
| AnalyticsVM.DailyActivity | DueTime.UI/ViewModels/AnalyticsViewModel.cs:404-419 | The array loop produces the seven per-day sums of durations of the entries starting that day. |
| AnalyticsVM.SumSeqUpdate | DueTime.UI/ViewModels/AnalyticsViewModel.cs:417 | Adding w to one bucket adds w to the sum of the buckets. |
| AnalyticsVM.SumSeqZero | DueTime.UI/ViewModels/AnalyticsViewModel.cs:407-410 | The freshly zeroed buckets sum to zero. |
| AnalyticsVM.DayBucketsAccount | DueTime.UI/ViewModels/AnalyticsViewModel.cs:404-419 | The buckets together hold exactly the durations of the entries that start inside the week. |
| AnalyticsVM.TrackedTimeSplits | DueTime.UI/ViewModels/AnalyticsViewModel.cs:443-446 | For a non-negative total, the minutes part lies in 0..59. Hours × 60 + minutes equals the whole minutes. The text is "{hours}h {minutes}m". |
| AnalyticsVM.MostActiveProjectIsLargest | DueTime.UI/ViewModels/AnalyticsViewModel.cs:449-473 | The reported project has the most minutes of any entry's project. Ties go to the project that occurs first. |
| AnalyticsVM.MostActiveDayIsLargest | DueTime.UI/ViewModels/AnalyticsViewModel.cs:475-489 | The reported day has the most minutes of any entry's day. Ties go to the day that occurs first. |
| AnalyticsVM.AnalyticsViewModel.constructor | DueTime.UI/ViewModels/AnalyticsViewModel.cs:145-157 | The charts and statistics start at their defaults. AI insights are shown if and only if AI is enabled and a key is present. |
| AnalyticsVM.AnalyticsViewModel.UpdateProjectTimeChart | DueTime.UI/ViewModels/AnalyticsViewModel.cs:325-399 | Afterwards the pie shows the descending project totals with their colours and labels. |
| AnalyticsVM.AnalyticsViewModel.UpdateStatistics | DueTime.UI/ViewModels/AnalyticsViewModel.cs:440-493 | The statistics become the total time, the most active project and day, and the entry count. |
| AnalyticsVM.AnalyticsViewModel.ShowWeek | DueTime.UI/ViewModels/AnalyticsViewModel.cs:174-190 | A week with data gets its pie, its day buckets, its statistics and the AI flag. |
| AnalyticsVM.AnalyticsViewModel.ShowNoData | DueTime.UI/ViewModels/AnalyticsViewModel.cs:191-205 | An empty week shows the gray "No Data" slice, seven zero columns, and the statistics "0h 0m", "None", "None", 0. |
| AnalyticsVM.AnalyticsViewModel.LoadWeeklyData | DueTime.UI/ViewModels/AnalyticsViewModel.cs:160-212 | A repository failure changes nothing. Otherwise the page shows the placeholders when no entry has an end time, and the charts of the valid entries when some do. |
| Common.TruncDiv | DueTime.UI/ViewModels/AnalyticsViewModel.cs:444 | The quotient truncates toward zero: the remainder has the dividend's sign and is smaller than the divisor. |
| Common.TruncRem | DueTime.UI/ViewModels/AnalyticsViewModel.cs:445 | The remainder has the dividend's sign, is smaller than the divisor, and satisfies the division identity. |
| Common.FoldLowerNormalises | DueTime.UI/MainWindow.xaml.cs:316 | Lower-casing leaves no ASCII capital and is idempotent. It undoes any earlier upper-casing, and the result equals the input ignoring case. |
| Common.FoldUpperNormalises | DueTime.Data/OpenAIClient.cs:71 | Upper-casing leaves no ASCII lower-case letter and is idempotent. It undoes any earlier lower-casing, and the result equals the input ignoring case. |
| Common.EqualImpliesContains | DueTime.Data/OpenAIClient.cs:71 | Two strings equal ignoring case contain each other ignoring case. |
| Common.EmptyIsContained | DueTime.UI/Views/ProjectsView.xaml.cs:101-102 | Every string contains the empty string. |
| Common.TrimStart | DueTime.UI/ViewModels/ProjectsViewModel.cs:152 | The result is the suffix left after all leading white space. It does not start with white space. |
| Common.TrimEnd | DueTime.UI/ViewModels/ProjectsViewModel.cs:152 | The result is the prefix left before all trailing white space. It does not end with white space. |
| Common.TrimEmptyIffBlank | DueTime.UI/ViewModels/ProjectsViewModel.cs:141-144 | Trimming leaves nothing if and only if the string is all white space. |
| Common.TrimmedEnds | DueTime.Data/OpenAIClient.cs:64 | A trimmed string has no white space at either end, and trimming is idempotent. |
| Common.Join | DueTime.Data/OpenAIClient.cs:20 | Joining no parts gives "", and joining one part gives that part. Otherwise the length is the parts' total length plus one separator between each pair of neighbours. |
| Common.JoinEnds | DueTime.Data/OpenAIClient.cs:20 | The first part opens the joined string and the last part closes it. |
| Common.JoinAppend | DueTime.Data/OpenAIClient.cs:20 | Joining two non-empty lists of parts equals joining each list and putting one separator between the results. |
| Common.NatToString | DueTime.UI/ViewModels/AnalyticsViewModel.cs:446 | The result is a non-empty string of decimal digits without a leading zero. |
| Common.NatToStringRoundTrip | DueTime.UI/ViewModels/AnalyticsViewModel.cs:446 | Reading the digits back gives the number. |
| Common.FindProjectByName | DueTime.UI/MainWindow.xaml.cs:318-319 | The result is the first project whose name equals the text ignoring case, or none if no project's name does. |
| Common.FindProjectById | DueTime.UI/ViewModels/DashboardViewModel.cs:289 | The result is the first project with the id, or none if no project has it. |
| Common.NamesListsEveryProject | DueTime.Tracking/TrackingService.cs:73 | A name is on the list if and only if some project has it. Every listed name is found again by the name lookup. |
| DashboardView.SummaryKey | DueTime.UI/Views/DashboardView.xaml.cs:75-84 | An entry with no project, or an unknown one, is filed under "Unassigned". Otherwise it is filed under the name of the first project with its id. |
| DashboardView.ProjectTotals | DueTime.UI/Views/DashboardView.xaml.cs:71-96 | The dictionary holds exactly the names that occur. Each name's total is the sum of the durations of exactly the entries filed under it. |
| DashboardView.WeeklyTotalsAccount | DueTime.UI/Views/DashboardView.xaml.cs:71-96 | The loop's totals are the per-name groups, and they add up to the durations of all entries. Each entry is counted once. |
| DashboardView.WeeklySummary | DueTime.UI/Views/DashboardView.xaml.cs:37-68 | The outcome is one of four: AI not enabled; load failed; no entries (no totals built); or the per-name totals with the AI's summary. |
| DashboardView.ProjectCellWrite | DueTime.UI/Views/DashboardView.xaml.cs:25-35 | A write of (entry id, project id) happens if and only if a Project-column edit is committed on an entry. |
| DashboardVM.GetProjectNameById | DueTime.UI/ViewModels/DashboardViewModel.cs:284-291 | Null gives "(No Project)" and an unknown id gives "(Unknown Project)". Otherwise the result is the first matching project's name. |
| DashboardVM.ProjectNameOfKnownId | DueTime.UI/ViewModels/DashboardViewModel.cs:284-291 | A known id is named by a project that carries it. An id no project carries is shown as unknown. |
| DashboardVM.Bump | DueTime.UI/ViewModels/DashboardViewModel.cs:258-281 | A counter in 0..2 moves to (count+1) mod 3. The proposal is shown exactly when the counter reaches 3. |
| DashboardVM.CountAfter | DueTime.UI/ViewModels/DashboardViewModel.cs:258-281 | A stored counter always lies in 0..2. |
| DashboardVM.OverridesCycle | DueTime.UI/ViewModels/DashboardViewModel.cs:274-281 | After n identical overrides the counter is n mod 3. The rule proposal appears exactly at every third override. |
| DashboardVM.RecordOverride | DueTime.UI/ViewModels/DashboardViewModel.cs:252-282 | An empty name changes nothing. Otherwise only the "suggested\|chosen" counter is bumped (created at 0), and counters stay in 0..2. |
| DashboardVM.Refresh | DueTime.UI/ViewModels/DashboardViewModel.cs:144-149 | Removing the entry and inserting it back at its index leaves the list unchanged. |
| DashboardVM.DashboardViewModel.constructor | DueTime.UI/ViewModels/DashboardViewModel.cs:51-57 | The view model starts with no overrides, no pending suggestion and no writes. |
| DashboardVM.DashboardViewModel.TrackSuggestionOverride | DueTime.UI/ViewModels/DashboardViewModel.cs:252-282 | The counters change as RecordOverride says, and nothing else changes. |
| DashboardVM.DashboardViewModel.UpdateEntryProject | DueTime.UI/ViewModels/DashboardViewModel.cs:136-156 | The repository receives (id, project). The entry keeps its index and the list is unchanged. A throwing repository changes nothing. |
| DashboardVM.DashboardViewModel.RefreshEntry | DueTime.UI/ViewModels/DashboardViewModel.cs:143-149 | The remove-then-insert leaves the entry list as it was. |
| DashboardVM.DashboardViewModel.ChangeProject | DueTime.UI/ViewModels/DashboardViewModel.cs:60-77 | The project is always written and the suggestion state is always cleared. An override is recorded only for the entry last suggested for, and only when its project now differs from the suggestion. |
| DashboardVM.DashboardViewModel.SuggestProjectForEntry | DueTime.UI/ViewModels/DashboardViewModel.cs:158-231 | With AI on, a key present, and a non-empty suggestion naming a project ignoring case, that project is set, written and remembered. Otherwise nothing changes. |
| EngineEvents.InactiveTicks | DueTime.Tracking/Services/WindowsSystemEvents.cs:52-53 | This is the formula as written. It gives now − last without a wrap and 2^32 + now − last − 1 across a wrap, and it stays in the uint range. |
| EngineEvents.ElapsedTicks | DueTime.Tracking/Services/WindowsSystemEvents.cs:52-53 | The corrected elapsed time, (now − last) mod 2^32, stays in the uint range. |
| EngineEvents.ElapsedTicksInverse | DueTime.Tracking/Services/WindowsSystemEvents.cs:52-53 | Adding the elapsed time to the last-input reading, modulo 2^32, gives the current reading. Without a wrap it is the plain difference. |
| EngineEvents.InactiveTicksUndercounts | DueTime.Tracking/Services/WindowsSystemEvents.cs:52-53 | Across a wrap, the formula as written is exactly one less than the elapsed time. |
| EngineEvents.IdleStartMissedAcrossWrap | DueTime.Tracking/Services/WindowsSystemEvents.cs:52-57 | With the default threshold, last = 0xFFFFFFFF and now = 299999, five minutes have passed and the corrected time starts the idle period. The time as written stays below the threshold, so no signal is raised. |
| EngineEvents.InactiveTicksAcrossWrap | DueTime.Tracking/Services/WindowsSystemEvents.cs:52-53 | For last = 0xFFFFFFFF and now = 0 the elapsed time is 1, but the formula as written gives 0. |
| EngineEvents.IdleTransition | DueTime.Tracking/Services/WindowsSystemEvents.cs:55-64 | The new flag is inactive ≥ threshold. A signal is raised exactly when the flag flips: IdleStarted on false→true, IdleEnded on true→false. |
| EngineEvents.SignalsAlternate | DueTime.Tracking/Services/WindowsSystemEvents.cs:55-64 | For any readings, IdleStarted and IdleEnded strictly alternate. The first signal leaves the initial state (IdleStarted after Start) and the last one agrees with the final flag. |
| EngineEvents.ForegroundSignal | DueTime.Tracking/Services/WindowsSystemEvents.cs:66-80 | The callback forwards a signal exactly for a foreground event on a non-zero window that could be read. An unreadable process gives "". |
| EngineEvents.WindowsSystemEvents.constructor | DueTime.Tracking/Services/WindowsSystemEvents.cs:23-26 | The threshold defaults to five minutes. |
| EngineEvents.WindowsSystemEvents.Start | DueTime.Tracking/Services/WindowsSystemEvents.cs:27-41 | A zero hook fails before anything else changes. Otherwise the idle flag is cleared and the timer runs. |
| EngineEvents.WindowsSystemEvents.Stop | DueTime.Tracking/Services/WindowsSystemEvents.cs:42-47 | The hook is released and the timer stopped. The idle flag is kept. |
| EngineEvents.WindowsSystemEvents.CheckIdleStatus | DueTime.Tracking/Services/WindowsSystemEvents.cs:48-65 | A failed last-input query changes nothing. Otherwise the flag and the signal follow IdleTransition on the inactive time as written (InactiveTicks), which is one millisecond short across a counter wrap. |
| EngineTracking.TrackingService.constructor | DueTime.Tracking/Services/TrackingService.cs:13-20 | The service starts with no open entry, not idle, and with empty logs. |
| EngineTracking.TrackingService.Start | DueTime.Tracking/Services/TrackingService.cs:21-26 | Afterwards no entry is open and the service is not idle. A previously open entry is discarded unpersisted and appears in `dropped`. |
| EngineTracking.TrackingService.Stop | DueTime.Tracking/Services/TrackingService.cs:27-38 | The open entry is closed at now, persisted and emitted, and no entry is left open. The invariant keeps idle and an open entry apart. |
| EngineTracking.TrackingService.OnForegroundChanged | DueTime.Tracking/Services/TrackingService.cs:39-63 | While idle nothing changes. Otherwise the open entry is closed at now and persisted once, and an entry starting and ending at now is opened for the new window. |
| EngineTracking.TrackingService.OnIdleStarted | DueTime.Tracking/Services/TrackingService.cs:64-77 | A repeated start does nothing. Otherwise the service becomes idle and the open entry is closed at now and persisted. |
| EngineTracking.TrackingService.OnIdleEnded | DueTime.Tracking/Services/TrackingService.cs:78-83 | Only the idle flag is cleared. No entry is opened. |
| EngineTracking.IdleSplitsActivity | DueTime.Tracking/Services/TrackingService.cs:39-83 | Work, idle, then the same window again gives two entries with the idle gap between them. |
| EngineTracking.RepeatedSignalSplits | DueTime.Tracking/Services/TrackingService.cs:39-63 | The same window signalled twice gives two adjacent entries. They are not merged. |
| Entries.IndexOf | DueTime.UI/ViewModels/DashboardViewModel.cs:144 | The result is the first position holding this very object, or -1 if and only if the object is absent. |
| Entries.RemoveAt | DueTime.UI/ViewModels/DashboardViewModel.cs:147 | Removal shortens the list by one. Items before the index keep their places and later ones move down by one. Exactly one copy of the removed item leaves the multiset. |
| Entries.Insert | DueTime.UI/ViewModels/DashboardViewModel.cs:148 | The item lands at the index. Items before it keep their places and the rest move up by one. The multiset gains exactly the item. |
| Entries.ReinsertRestores | DueTime.UI/MainWindow.xaml.cs:338-343 | Removing an item and inserting it back at its index restores the list. |
| Grouping.GroupKeys | DueTime.UI/ViewModels/AnalyticsViewModel.cs:328-336 | The keys are distinct, and there is at least one when there are entries. |
| Grouping.GroupKeysCover | DueTime.UI/ViewModels/AnalyticsViewModel.cs:328-336 | Every entry's key is listed, and every listed key belongs to some entry. |
| Grouping.AddTo | DueTime.UI/Views/DashboardView.xaml.cs:86-95 | The key's total grows by w, starting from 0 when new. Every other key is unchanged. |
| Grouping.TalliesStep | DueTime.UI/Views/DashboardView.xaml.cs:86-95 | Adding one entry's weight to its key keeps the map equal to the per-key sums of the longer list. |
| Grouping.Tally | DueTime.UI/ViewModels/AnalyticsViewModel.cs:328-336 | There is one group per key, carrying the sum over exactly the entries with that key. |
| Grouping.SumTotalsAppend | DueTime.UI/ViewModels/AnalyticsViewModel.cs:328-336 | Totals of a concatenation add up. |
| Grouping.GroupSumAbsent | DueTime.UI/ViewModels/AnalyticsViewModel.cs:328-336 | A key no entry has sums to zero. |
| Grouping.TallyStep | DueTime.UI/ViewModels/AnalyticsViewModel.cs:328-336 | One more entry with a listed key raises the grand total by its weight. |
| Grouping.TallyAppend | DueTime.UI/ViewModels/AnalyticsViewModel.cs:328-336 | Tallying one more key appends that key's group. |
| Grouping.PartitionTotal | DueTime.UI/ViewModels/AnalyticsViewModel.cs:328-336 | The group totals add up to the weight of all entries: grouping loses and duplicates nothing. |
| Grouping.InsertDescending | DueTime.UI/ViewModels/AnalyticsViewModel.cs:335 | Inserting into a descending list keeps it descending. |
| Grouping.SortDescending | DueTime.UI/ViewModels/AnalyticsViewModel.cs:335 | The result is descending by total and has the same length. |
| Grouping.InsertPermutes | DueTime.UI/ViewModels/AnalyticsViewModel.cs:335 | Insertion adds exactly the one group. |
| Grouping.SortPermutes | DueTime.UI/ViewModels/AnalyticsViewModel.cs:335 | The sort is a permutation. |
| Grouping.InsertKeepsSum | DueTime.UI/ViewModels/AnalyticsViewModel.cs:335 | Insertion adds the group's total to the sum. |
| Grouping.SortKeepsSum | DueTime.UI/ViewModels/AnalyticsViewModel.cs:335 | The sort keeps the sum of totals. |
| Grouping.FirstMax | DueTime.UI/ViewModels/AnalyticsViewModel.cs:452-460 | The result is the first group with the largest total. |
| Grouping.SortedHeadIsFirstMax | DueTime.UI/ViewModels/AnalyticsViewModel.cs:452-460 | The stable descending sort puts that first largest group at the head. |
| Grouping.HeadIsLargestGroup | DueTime.UI/ViewModels/AnalyticsViewModel.cs:452-460 | The head of the sorted groups is at least every entry's group total. |
| MainWindow.GuardsAgree | DueTime.UI/MainWindow.xaml.cs:270-292 | The suggestion routine returns early exactly for the entries the event handler would not have passed to it. |
| MainWindow.NoneInAnyCase | DueTime.UI/MainWindow.xaml.cs:316 | `ToLower() != "none"` rejects "none" in every capitalisation, and no other word. |
| MainWindow.StatusAfter | DueTime.UI/MainWindow.xaml.cs:76-84 | An untimed message stays. A timed one is cleared only if it is still the one shown; otherwise the replacement stays. |
| MainWindow.MainWindow.constructor | DueTime.UI/MainWindow.xaml.cs:19-47 | The window starts unpaused, with no entries, no tray icon and no service. |
| MainWindow.MainWindow.ShowStatusMessage | DueTime.UI/MainWindow.xaml.cs:66-89 | The status bar ends as StatusAfter says. |
| MainWindow.MainWindow.ToggleTracking | DueTime.UI/MainWindow.xaml.cs:177-227 | A missing service, tray icon or menu item means nothing happens. Otherwise the paused flag flips and AppState mirrors it. Pausing stops the service, closing and persisting its open entry. Resuming starts it. |
| MainWindow.MainWindow.SuggestProjectForEntry | DueTime.UI/MainWindow.xaml.cs:280-363 | The guard and the no-project case change nothing. Otherwise the suggestion is applied if and only if it is usable, names a project ignoring case, and the write succeeds. The entry then gets that project, keeps its index, and one write is logged. Any other outcome leaves the entry unchanged. |
| MainWindow.MainWindow.RefreshEntry | DueTime.UI/MainWindow.xaml.cs:338-343 | The remove-then-insert leaves the entry list as it was. |
| MainWindow.MainWindow.OnTimeEntryRecorded | DueTime.UI/MainWindow.xaml.cs:256-278 | The entry is appended, and the paused flags, tracker and tray stay as they were. Only a qualifying entry leads to a suggestion. The suggestion is applied if and only if the entry qualifies, projects exist, the suggestion is usable and names a project, and the write succeeds. Then the entry's project is set and exactly that write is logged. In every other case the entry and the write log are unchanged. |
| AIClient.CacheKey | DueTime.Data/OpenAIClient.cs:20 | The key starts with the application name followed by "\|", and its length is the parts' lengths plus two. |
| AIClient.SplitAtBarInverse | DueTime.Data/OpenAIClient.cs:20 | Splitting at the first "\|" undoes joining with it when the first part has no "\|". |
| AIClient.CacheKeyInjective | DueTime.Data/OpenAIClient.cs:20 | When the title and the application contain no "\|", equal keys mean the same application, title and joined names. |
| AIClient.CacheKeyCollision | DueTime.Data/OpenAIClient.cs:20 | Without that condition, two different contexts share a key. |
| AIClient.FirstContained | DueTime.Data/OpenAIClient.cs:69-76 | The result is the first project name, in list order, that the text contains ignoring case, or none if the text contains no name. |
| AIClient.FirstContainedAt | DueTime.Data/OpenAIClient.cs:69-76 | The loop's first hit is the name FirstContained picks. |
| AIClient.NormaliseSuggestion | DueTime.Data/OpenAIClient.cs:61-77 | The result is the trimmed content, or the first project name it contains. |
| AIClient.SubstringTransitive | DueTime.Data/OpenAIClient.cs:69-76 | Containment is transitive. |
| AIClient.ChosenNameChosenAgain | DueTime.Data/OpenAIClient.cs:69-76 | A name chosen for some text is chosen again for itself. |
| AIClient.NormaliseIdempotent | DueTime.Data/OpenAIClient.cs:61-77 | Post-processing a processed suggestion changes nothing, given trimmed project names. |
| AIClient.Answer | DueTime.Data/OpenAIClient.cs:50-98 | A request yields a result if and only if it succeeded with a first choice whose content is non-null. |
| AIClient.OpenAIClient.constructor | DueTime.Data/OpenAIClient.cs:14 | The cache starts empty. |
| AIClient.OpenAIClient.GetProjectSuggestion | DueTime.Data/OpenAIClient.cs:17-99 | A hit returns the stored value with no request. A miss requests, returns the processed answer, and stores it only when it is non-empty. The stored value equals the returned one. A failure stores nothing. |
| AIClient.OpenAIClient.ClearCache | DueTime.Data/OpenAIClient.cs:235-241 | The cache is empty afterwards. |
| Paths.RootLength | DueTime.UI/Views/ProjectsView.xaml.cs:149 | The root is a prefix made of drive, colon and separator characters. |
| Paths.NameStart | DueTime.UI/Views/ProjectsView.xaml.cs:149 | The last segment starts after the last separator, or after the root. |
| Paths.FileName | DueTime.UI/Views/ProjectsView.xaml.cs:149 | The file name is a separator-free tail of the path. |
| Paths.FileNameIsLastSegment | DueTime.UI/Views/ProjectsView.xaml.cs:149 | The file name is the longest separator-free tail outside the root. A trailing separator gives "". |
| Paths.FileNameAfterRoot | DueTime.UI/Views/ProjectsView.xaml.cs:149 | With no separator after the root, the name is everything after the root. |
| Paths.TrimEndChar | DueTime.UI/Views/ProjectsView.xaml.cs:149 | The result is the prefix left after all trailing copies of the character. |
| Paths.LastIndexOf | DueTime.UI/Views/WindowPicker.xaml.cs:145 | The result is the last index of the character, or -1. |
| Paths.FileNameWithoutExtension | DueTime.UI/Views/WindowPicker.xaml.cs:145 | The result is the file name up to its last '.'. |
| ProjectsView.FirstMatch | DueTime.UI/Views/ProjectsView.xaml.cs:94-109 | The result is the first project whose name contains the text or is contained in it, ignoring case, or none if no project matches. |
| ProjectsView.SameNameIsMatched | DueTime.UI/Views/ProjectsView.xaml.cs:94-109 | A project named like the text, ignoring case, is always found at or before its position. |
| ProjectsView.EmptyNameMatchesFirst | DueTime.UI/Views/ProjectsView.xaml.cs:88-103 | An empty name would match the first project, which is why it is guarded. |
| ProjectsView.FolderName | DueTime.UI/Views/ProjectsView.xaml.cs:149-151 | The folder name contains no separator. |
| ProjectsView.FolderNameIgnoresTrailingSeparator | DueTime.UI/Views/ProjectsView.xaml.cs:149 | Trailing backslashes do not change the folder name. |
| ProjectsView.DriveRootHasNoFolderName | DueTime.UI/Views/ProjectsView.xaml.cs:149-151 | A drive root has an empty folder name. |
| ProjectsView.FolderUnderDrive | DueTime.UI/Views/ProjectsView.xaml.cs:149-151 | "X:\folder\" is named "folder". |
| ProjectsView.ProjectsView.constructor | DueTime.UI/Views/ProjectsView.xaml.cs:15-29 | The view holds its view model. |
| ProjectsView.ProjectsView.AutoSelectProject | DueTime.UI/Views/ProjectsView.xaml.cs:99-108 | The first matching project becomes selected. With no match the selection stays. |
| ProjectsView.ProjectsView.OnSelectWindow | DueTime.UI/Views/ProjectsView.xaml.cs:85-113 | A picked window's title becomes the rule pattern. A non-empty app name drives the auto-selection. The lists are untouched. |
| ProjectsView.ProjectsView.OnSelectFolder | DueTime.UI/Views/ProjectsView.xaml.cs:146-183 | A cancelled dialog and an empty folder name change nothing. Otherwise the folder name becomes the pattern and drives the auto-selection. |
| ProjectsVM.RemoveFirst | DueTime.UI/ViewModels/ProjectsViewModel.cs:228 | Removal drops one item when present and changes nothing otherwise. |
| ProjectsVM.RemoveFirstMultiset | DueTime.UI/ViewModels/ProjectsViewModel.cs:228 | Exactly one copy leaves the list. A unique item is gone afterwards. |
| ProjectsVM.RemoveFirstCutsOne | DueTime.UI/ViewModels/ProjectsViewModel.cs:228 | The remaining items keep their order. |
| ProjectsVM.ProjectsViewModel.constructor | DueTime.UI/ViewModels/ProjectsViewModel.cs:87-113 | The inputs start empty. The lists are those the repositories return, or stay empty when a query throws. |
| ProjectsVM.ProjectsViewModel.CanAddProject | DueTime.UI/ViewModels/ProjectsViewModel.cs:141-144 | A project can be added if and only if the name is not blank. |
| ProjectsVM.ProjectsViewModel.CanAddRule | DueTime.UI/ViewModels/ProjectsViewModel.cs:173-176 | A rule can be added if and only if the pattern is not blank and a project is selected. |
| ProjectsVM.ProjectsViewModel.LoadProjectsAndRules | DueTime.UI/ViewModels/ProjectsViewModel.cs:115-139 | The lists are replaced, in order, by what the repositories returned. A failing project query changes nothing. A failing rule query keeps the projects already replaced. |
| ProjectsVM.ProjectsViewModel.AddProject | DueTime.UI/ViewModels/ProjectsViewModel.cs:146-171 | Only when allowed and given a positive id is the trimmed project appended and the name cleared. Otherwise nothing changes. |
| ProjectsVM.ProjectsViewModel.AddRule | DueTime.UI/ViewModels/ProjectsViewModel.cs:178-211 | Only when allowed and given a positive id is the rule appended and the pattern cleared. The selection is kept. |
| ProjectsVM.ProjectsViewModel.DeleteRule | DueTime.UI/ViewModels/ProjectsViewModel.cs:213-234 | A null rule changes nothing. Otherwise its first occurrence is removed, and a unique rule is gone. |
| ServiceView.OutcomeMessagesDiffer | DueTime.UI/Views/ServiceManagementView.xaml.cs:151-228 | Success, failure and progress messages of an action are all different. |
| ServiceView.ServiceManagementView.constructor | DueTime.UI/Views/ServiceManagementView.xaml.cs:23-30 | The view starts with no operation in progress and the status read once. AutoStart follows Installed. A failed query leaves the defaults and reports the error. |
| ServiceView.ServiceManagementView.ServiceStatusText | DueTime.UI/Views/ServiceManagementView.xaml.cs:120-130 | The text is "Not Installed" if and only if the service is not installed, whatever the running flag says. Otherwise it is "Running" or "Stopped". |
| ServiceView.ServiceManagementView.RefreshServiceStatus | DueTime.UI/Views/ServiceManagementView.xaml.cs:234-250 | The flags are read back and AutoStart mirrors Installed. A failing query keeps the flags it did not reach and reports the error. |
| ServiceView.ServiceManagementView.ExecuteServiceOperation | DueTime.UI/Views/ServiceManagementView.xaml.cs:252-275 | The operation always ends not in progress, and it succeeds if and only if the call returns true. An exception shows its message, skips the refresh and keeps all flags. A returning call shows its result and refreshes. A query that fails on the running flag sets only the installed flag. A query that fails on the installed flag keeps all three. Either failure shows the status error. |
| ServiceView.ServiceManagementView.Click | DueTime.UI/Views/ServiceManagementView.xaml.cs:151-228 | An unconfirmed uninstall or stop changes nothing. Otherwise the action runs with the effect ExecuteServiceOperation states: the same message and flags for each call and query outcome, and no operation in progress afterwards. |
| ServiceView.ActionsLockedWhileBusy | DueTime.UI/Views/ServiceManagementView.xaml.cs:115-118 | No action is enabled while an operation runs. |
| ServiceView.ActionsExclusive | DueTime.UI/Views/ServiceManagementView.xaml.cs:115-118 | When idle, exactly one of install and uninstall is offered. Start and stop both need an installed service and are never offered together. |
| Session.TrackingSession.constructor | DueTime.Tracking/TrackingService.cs:42-48 | The session starts not tracking, with empty logs. |
| Session.TrackingSession.Start | DueTime.Tracking/TrackingService.cs:83-97 | Afterwards the service is tracking and the source is running. Nothing is persisted or dropped. |
| Session.TrackingSession.Stop | DueTime.Tracking/TrackingService.cs:99-124 | Afterwards the service is not tracking and nothing is dropped. |
| Session.TrackingSession.Poll | DueTime.Tracking/WindowsSystemEvents.cs:56-69 | Delivering one polling iteration's events keeps the source and the tracker in step, never drops an open entry, and only extends the persisted log. |
| Session.TrackingSession.TimerTick | DueTime.Tracking/TrackingService.cs:302-324 | The safety timer drops nothing and only extends the log. |
| Session.TrackingSession.Track | DueTime.Tracking/WindowsSystemEvents.cs:56-69 | A whole run of polling at non-decreasing times drops no entry and keeps the log valid. |
| SystemEvents.IdleTime | DueTime.Tracking/WindowsSystemEvents.cs:120-121 | The idle time is the difference (now − last) modulo 2^32: adding it to the last reading gives the tick count. |
| SystemEvents.IdleStep | DueTime.Tracking/WindowsSystemEvents.cs:111-134 | A failed query changes nothing. Otherwise idle means the idle time is ≥ 300000 ms, and an event is raised exactly when the flag flips. |
| SystemEvents.WindowStep | DueTime.Tracking/WindowsSystemEvents.cs:71-109 | No window changes nothing. Otherwise the pair is remembered (with "Unknown" for an unreadable process), and WindowChanged is raised exactly when the pair differs. |
| SystemEvents.StepOfParts | DueTime.Tracking/WindowsSystemEvents.cs:58-65 | One iteration is the idle check followed, unless now idle, by the window check. |
| SystemEvents.ObserveConcat | DueTime.Tracking/WindowsSystemEvents.cs:98-127 | What subscribers have been told composes over concatenated event lists. |
| SystemEvents.SingleEvent | DueTime.Tracking/WindowsSystemEvents.cs:98-127 | A single event is news exactly when it differs from what was last told. |
| SystemEvents.StepConsistent | DueTime.Tracking/WindowsSystemEvents.cs:56-134 | Every event of an iteration is news, and afterwards subscribers know the source's state. |
| SystemEvents.RunConsistent | DueTime.Tracking/WindowsSystemEvents.cs:56-69 | The same holds for any run of iterations. |
| SystemEvents.IdleEventsAlternate | DueTime.Tracking/WindowsSystemEvents.cs:123-127 | Consecutive idle events report opposite states. |
| SystemEvents.FirstIdleEventIsIdleStart | DueTime.Tracking/WindowsSystemEvents.cs:20-127 | From a non-idle start, the first idle event reports idle = true. |
| SystemEvents.ConsistentPrefix | DueTime.Tracking/WindowsSystemEvents.cs:62-65 | Every prefix of consistent events is consistent. |
| SystemEvents.WindowEventsKeepIdle | DueTime.Tracking/WindowsSystemEvents.cs:62-65 | Window events leave the reported idle state unchanged. |
| SystemEvents.WindowsSystemEvents.constructor | DueTime.Tracking/WindowsSystemEvents.cs:18-21 | The source starts with an empty last window, not idle. |
| SystemEvents.WindowsSystemEvents.Start | DueTime.Tracking/WindowsSystemEvents.cs:43-47 | The monitor runs. The idle flag and the last window are kept. |
| SystemEvents.WindowsSystemEvents.Stop | DueTime.Tracking/WindowsSystemEvents.cs:49-54 | The monitor stops and the state is kept. |
| SystemEvents.WindowsSystemEvents.CheckIdleState | DueTime.Tracking/WindowsSystemEvents.cs:111-134 | The new state and events are those of IdleStep. |
| SystemEvents.WindowsSystemEvents.CheckActiveWindow | DueTime.Tracking/WindowsSystemEvents.cs:71-109 | The new state and events are those of WindowStep. |
| SystemEvents.WindowsSystemEvents.MonitorWindowChanges | DueTime.Tracking/WindowsSystemEvents.cs:56-69 | The loop's events are those of the run, they are all news, and the final state is what subscribers were told. |
| Timeline.OpenEntry | DueTime.Tracking/Services/TrackingService.cs:55-62 | A new entry starts and ends at now, carries the window and application, and has no project. |
| Timeline.AppendClosed | DueTime.Tracking/Services/TrackingService.cs:48-53 | Appending an entry that starts after the log's end and ends no earlier than it starts keeps the log well formed and non-overlapping. |
| Timeline.ChainedIsDisjoint | DueTime.Tracking/Services/TrackingService.cs:50-72 | In a chained log, every entry ends no later than any later entry starts. |
| Timeline.CoveredTimeWithinSpan | DueTime.Tracking/Services/TrackingService.cs:50-72 | The total duration never exceeds the span from the first start to the last end. |
| Tracking.TryAICategorization | DueTime.Tracking/TrackingService.cs:165-198 | Only ProjectId can change. It changes only when configured, to the id of a project named like a usable suggestion ignoring case; the first such project is chosen. |
| Tracking.Finish | DueTime.Tracking/TrackingService.cs:137-148 | A closed entry ends at now and keeps its start, title and application. Without categorization it is otherwise unchanged. |
| Tracking.ProbeEntry | DueTime.Tracking/TrackingService.cs:242-300 | No window gives no entry. A window gives a fresh entry for it. A failed probe falls back to the last window only when both its title and app are known. |
| Tracking.TrackingService.constructor | DueTime.Tracking/TrackingService.cs:42-48 | The service starts not tracking, not idle, with AI off and empty logs. |
| Tracking.TrackingService.ConfigureAI | DueTime.Tracking/TrackingService.cs:53-81 | Only the AI settings change. The project names are reloaded when AI is on and a repository exists. A failing load keeps the old names. |
| Tracking.TrackingService.Record | DueTime.Tracking/TrackingService.cs:137-148 | The entry is persisted then emitted once, and the log stays well formed and chained. |
| Tracking.TrackingService.Start | DueTime.Tracking/TrackingService.cs:83-97 | Afterwards the service is tracking, and the open entry and idle flag are kept. |
| Tracking.TrackingService.Stop | DueTime.Tracking/TrackingService.cs:99-124 | A stop while not tracking changes nothing. Otherwise the open entry is closed at now and persisted, and no entry is left open. |
| Tracking.TrackingService.OnWindowChanged | DueTime.Tracking/TrackingService.cs:126-163 | While idle nothing changes, not even the last window. Otherwise the window is remembered, the open entry is finished and persisted once, and a fresh entry is opened. |
| Tracking.TrackingService.OnIdleStateChanged | DueTime.Tracking/TrackingService.cs:200-240 | Going idle finishes and persists the open entry, leaving none open. Coming back opens the probed entry. An entry still open at that point would be dropped, and `dropped` records it. |
| Tracking.TrackingService.GetCurrentWindowAndCreateEntry | DueTime.Tracking/TrackingService.cs:242-300 | The probed entry replaces the open one, and a replaced entry is recorded as dropped. |
| Tracking.TrackingService.CheckIdleTimeout | DueTime.Tracking/TrackingService.cs:302-324 | The check acts only when tracking, not idle, and with an entry open for more than 30 minutes. It then closes and persists that entry and opens the probed one. Nothing is dropped. |
| WindowPicker.ToStringReadsBack | DueTime.UI/Views/WindowPicker.xaml.cs:26 | If the title has no dash, splitting the row text at its first " - " gives back the title and the application name. |
| WindowPicker.ApplicationName | DueTime.UI/Views/WindowPicker.xaml.cs:125-162 | The name is the product name, else the file name without extension, else the process name. A failed lookup gives "Unknown". |
| WindowPicker.FilterMapComplete | DueTime.UI/Views/WindowPicker.xaml.cs:83-105 | Every kept element appears in the result. |
| WindowPicker.FilterMapSound | DueTime.UI/Views/WindowPicker.xaml.cs:83-105 | Every result comes from a kept element. |
| WindowPicker.OpenWindowsFilter | DueTime.UI/Views/WindowPicker.xaml.cs:83-105 | Exactly the visible windows with a non-blank title other than the picker's own are listed. |
| WindowPicker.ListedTitle | DueTime.UI/Views/WindowPicker.xaml.cs:90-100 | A listed title is trimmed, non-empty and not the picker's. |
| WindowPicker.OpenWindowsTitles | DueTime.UI/Views/WindowPicker.xaml.cs:83-105 | Every listed title is trimmed, non-empty and not the picker's. |
| WindowPicker.GetOpenWindows | DueTime.UI/Views/WindowPicker.xaml.cs:73-120 | The enumeration loop collects exactly the listed windows, in order. |
| WindowPicker.CompareOrdinal | DueTime.UI/Views/WindowPicker.xaml.cs:44-47 | The result is a sign, and it is zero if and only if the strings are equal. |
| WindowPicker.CompareOrdinalAntisymmetric | DueTime.UI/Views/WindowPicker.xaml.cs:44-47 | Swapping the arguments negates the comparison. |
| WindowPicker.CompareOrdinalTransitive | DueTime.UI/Views/WindowPicker.xaml.cs:44-47 | The order is transitive. |
| WindowPicker.CompareIgnoreCase | DueTime.UI/Views/WindowPicker.xaml.cs:44-47 | The result is zero if and only if the strings are equal ignoring case. |
| WindowPicker.CompareWindowsTotalPreorder | DueTime.UI/Views/WindowPicker.xaml.cs:44-47 | The comparator is antisymmetric and transitive: a total preorder. |
| WindowPicker.InOrderWithNextSorted | DueTime.UI/Views/WindowPicker.xaml.cs:44-47 | Neighbours in order means every pair is in order. |
| WindowPicker.InsertBy | DueTime.UI/Views/WindowPicker.xaml.cs:44-47 | Insertion adds one element. |
| WindowPicker.SortBy | DueTime.UI/Views/WindowPicker.xaml.cs:44-47 | The sort keeps the length. |
| WindowPicker.InsertByPermutes | DueTime.UI/Views/WindowPicker.xaml.cs:44-47 | Insertion adds exactly the element. |
| WindowPicker.SortByPermutes | DueTime.UI/Views/WindowPicker.xaml.cs:44-47 | The sort is a permutation. |
| WindowPicker.SortWindows | DueTime.UI/Views/WindowPicker.xaml.cs:44-47 | The sort keeps the number of windows. |
| WindowPicker.InsertWindowInOrder | DueTime.UI/Views/WindowPicker.xaml.cs:44-47 | Insertion into an ordered list keeps it ordered. |
| WindowPicker.SortWindowsInOrder | DueTime.UI/Views/WindowPicker.xaml.cs:44-47 | The sorted list is ordered between neighbours. |
| WindowPicker.SortWindowsCorrect | DueTime.UI/Views/WindowPicker.xaml.cs:44-47 | The list is ordered by app name, then title, ignoring case, and is a permutation of the collected windows. |
| WindowPicker.WindowPickerDialog.constructor | DueTime.UI/Views/WindowPicker.xaml.cs:34-55 | The dialog lists the sorted windows, with the first one selected when there is any. |
| WindowPicker.WindowPickerDialog.Select | DueTime.UI/Views/WindowPicker.xaml.cs:52-55 | The selection moves to the index. |
| WindowPicker.WindowPickerDialog.OK | DueTime.UI/Views/WindowPicker.xaml.cs:167-185 | With a selection, the dialog closes with result true and that window. Without one, it stays open and nothing is chosen. |
| WindowPicker.WindowPickerDialog.Cancel | DueTime.UI/Views/WindowPicker.xaml.cs:190-195 | The dialog closes with result false. |
| WindowPicker.WindowPickerDialog.Picked | DueTime.UI/Views/WindowPicker.xaml.cs:32 | A window is handed back if and only if the dialog closed with true and a window was selected. |

## Left out

- The Win32 calls are left out because they are foreign code. This covers
  window hooks, `GetForegroundWindow`, `GetWindowText`, `GetLastInputInfo`,
  process lookup and `EnumWindows`. Their results are parameters
  (`ForegroundProbe`, `WindowProbe`, `ProcessProbe`, `RawWindow`, `Sample`).
- The HTTP request and JSON handling of `OpenAIClient` are left out; the
  reply is the `Reply` parameter. `GetWeeklySummaryAsync`,
  `TestConnectionAsync` and `GetTimeInsightsAsync` only build prompts and
  call the same endpoint, so they are also left out.
- The SQLite repositories are outside the model. In the UI, their answers
  are parameters (`None` when they throw) and writes are logged with their
  outcome. The trackers' writes are logged and assumed to succeed.
- EngineTracking.TrackingService.Stop, EngineTracking.TrackingService.OnForegroundChanged,
  EngineTracking.TrackingService.OnIdleStarted, Tracking.TrackingService.Stop,
  Tracking.TrackingService.OnWindowChanged, Tracking.TrackingService.OnIdleStateChanged
  and Tracking.TrackingService.CheckIdleTimeout assume that `AddTimeEntryAsync`
  succeeds. In the source a failing write throws. It throws out of `.Wait()`
  in the first generation (`DueTime.Tracking/Services/TrackingService.cs:33-73`)
  and in the second generation's `Stop` (`DueTime.Tracking/TrackingService.cs:114`).
  Elsewhere in the second generation it throws out of an `async void` handler.
  Either way the handler stops part-way. For example, `OnIdleStarted` has already set
  the idle flag while the entry stays open. The invariant that no entry is
  open while idle holds only when every write succeeds.
- Asynchronous interleaving, the timers, `Task.Delay`, `Task.Run` and the
  cache lock are left out. Each handler is one atomic step, and the
  current time is a parameter.
- Doubles, `TotalHours`, `TotalMinutes` and `Math.Round` are replaced by
  integer ticks and whole minutes. LiveCharts series become `Slice` values
  and colours become an enumeration. Culture-dependent day names, the
  weekday labels and the AI insights text are left out.
- Logging, notifications, message boxes, button states, tray text, the
  service status colour and the busy cursor are left out because they are
  presentation only.
- The `AppState` statics are not modelled as globals. They are passed as
  parameters, or held as fields of the window that reads them.
- Case folding covers only the ASCII letters. `OrdinalIgnoreCase` and
  `ToLower` on other scripts are not modelled.
- WindowPicker.CompareOrdinal compares characters as code points, not as
  UTF-16 code units. The order of characters outside the Basic
  Multilingual Plane can therefore differ.
- WindowPicker.SortWindows is a stable insertion sort. `List.Sort` is not
  stable, so the model fixes an order among windows that compare equal,
  which the source leaves unspecified.
- ProjectsVM.ProjectsViewModel.DeleteRule removes the first rule equal by
  value. The source removes by reference, and `Rule` is a class.
- ProjectsView.FolderName recognises only drive-letter roots. UNC and
  device paths are left out.
- MainWindow.MainWindow.SuggestProjectForEntry folds a throwing AI call
  into the `suggestion` parameter (None) and keeps only the status
  messages that affect the outcome.
- `FakeSystemEvents`, `ExplorerService`, the summary window, the settings
  pages, `SecureStorage` and the background Windows service are not part
  of this model.
- Tracking.TrackingService.OnIdleStateChanged is stated over any
  reachable state. The idle-end probe would drop an entry still open, and
  `dropped` records that. `Session.TrackingSession.Poll` proves that this
  never happens when the service is fed by its own signal source.
- EngineTracking.TrackingService.Stop closes the open entry only when not
  idle. The invariant already excludes an open entry while idle, so both
  readings agree on every reachable state.
- The second-generation `TryAICategorization` rejects the suggestion
  "None" case-sensitively (`DueTime.Tracking/TrackingService.cs:179`).
  `MainWindow` compares its lower-cased form with "none"
  (`DueTime.UI/MainWindow.xaml.cs:316`). The model follows each piece of
  code as written.
- The weekly statistics sum untruncated durations
  (`AnalyticsViewModel.cs:443`). The project chart truncates per entry
  (`AnalyticsViewModel.cs:333`). The model keeps both behaviours.

## Findings

| source | as written | input that shows it | evidently intended | confidence | as-written member | corrected member |
|---|---|---|---|---|---|---|
| DueTime.Tracking/Services/WindowsSystemEvents.cs:52-53 | after the 32-bit tick counter wraps, inactive time is `uint.MaxValue - lastInput + now` | lastInput = 0xFFFFFFFF, now = 0 gives 0 | the modular difference `now - lastInput` mod 2^32, which is 1 here | not executed | EngineEvents.InactiveTicks | EngineEvents.ElapsedTicks |

`EngineEvents.WindowsSystemEvents.CheckIdleStatus` keeps the formula as
written, so the timer model behaves as the program does.
`EngineEvents.IdleStartMissedAcrossWrap` shows the visible effect: an idle
period that should begin is not reported on that tick. `EngineEvents.ElapsedTicks`
with `EngineEvents.ElapsedTicksInverse` is the corrected definition.
