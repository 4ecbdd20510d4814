# HDR Gamma Fix tray agent — a Dafny model

HDR Gamma Fix is a Windows tray agent. It switches the displays between two
colour profiles: "sRGB to Gamma" and the default profile. For each targeted
monitor it runs the calibration tool `dispwin.exe`. When no monitor selection
applies, it launches a legacy batch script instead. This project models the
agent's core, `TrayApplicationContext`, and proves what it promises.

The model covers:

- **Monitor discovery.** The tool's display listing (`n = 'description'`
  lines) is parsed into a catalog. When the tool is missing or nothing
  parses, a single "Primary Monitor" fallback is used.
- **The notification debouncer.** There is one pending slot: the newest
  balloon overwrites it and restarts the timer. A timer tick shows the
  pending balloon, if notifications are on and the icon is visible, then
  empties the slot.
- **The profile executor.**
  - Selection -1 runs the tool once for every catalog entry, in order,
    without stopping at a failure.
  - A positive selection runs it once for that display number.
  - Any other selection launches the legacy script.
- **The profile toggle.** A left click, Alt+F1 or Alt+F2 chooses the action.
  The "is default profile" flag, the tooltip and the "Profile Changed"
  balloon follow only a successful run.
- **The settings.** They are the selected monitor and whether notifications
  are shown. They are stored under the application's registry key, and a
  write can fail.

Modules:

- `Wrappers`: `Option`.
- `Text`: .NET `Trim`, `Split` on CR/LF with empty entries removed, ordinal
  `Contains`, and decimal formatting and reading.
- `Paths`: `Path.Combine`, `Path.GetDirectoryName`, and the first-existing
  search.
- `Monitors`: the listing matcher, the parse, discovery, the scope text and
  the menu check marks.
- `Notifications`: the debouncer as a state machine.
- `Executor`: argument strings, runs and the selection plan.
- `Profiles`: the toggle, the hotkeys, the tooltip and balloon texts, and
  `ChangeProfile`.
- `Settings`: loading and saving the two values.
- `Tray`: the class `TrayApplicationContext`. Its fields are the source's
  fields. Its methods change them step by step, and each method is proved
  against the value-level definitions above.

The environment is passed in as values:

- `Host`: the application directory, the set of existing files, and a
  launcher that says for each command line whether a process started (and
  with which exit code), whether none was started, or which exception was
  raised.
- The text the tool prints when asked for its display listing.
- The registry values.
- Whether each hotkey could be registered.
- The outcome of each registry write.

Two ghost logs record what the source does to the outside world: `shown`
holds the balloons displayed, and `launched` holds every `Process.Start`
call made to change a profile. A call is logged whatever its outcome: a
started process, no process (`Process.Start` returned null), or an
exception.

## Behaviour worth noting

The model follows the code in each of these places:

- **Positive selection not in the catalog.** It is still executed directly,
  for that display number. There is no fallback to all monitors.
- **Non-zero exit code from the tool.** The run fails without any balloon.
  Only an exception queues an error balloon.
- **Failed settings write.** When the write raises, the in-memory setting
  keeps its old value, because the assignment follows the write. When the
  key cannot be created, nothing is stored but memory still takes the new
  value.
- **Legacy script.** It counts as a success as soon as a process starts,
  whatever it does afterwards.
- **The two listing patterns.** The first, loose pattern is implied by the
  second on text without line feeds (`Monitors.ListingLineMatchesLoosely`).
  Both are modelled.

## Model

| member | source | states |
|---|---|---|
| Text.TakeWhileStops | src/TrayApplicationContext.cs:266-271 | A greedy repetition of `\d` or `\s` splits the text into a run of that class and the rest, and stops only at a character outside the class |
| Text.TrimEndStops | src/TrayApplicationContext.cs:266 | `TrimEnd` keeps a prefix, removes only white space, and the kept prefix does not end in white space |
| Text.TrimIsInfix | src/TrayApplicationContext.cs:266 | `line.Trim()` is a contiguous piece of the line with only white space cut from either side, and it neither starts nor ends with white space |
| Text.TrimPadded | src/TrayApplicationContext.cs:266 | Trimming a text padded with white space on both sides gives back exactly that text |
| Text.SplitLines | src/TrayApplicationContext.cs:261 | Splitting on CR and LF with empty entries removed yields only non-empty entries without CR or LF |
| Text.SplitLinesSkipsBreaks | src/TrayApplicationContext.cs:261 | Leading line breaks only produce empty entries, which are dropped |
| Text.SplitJoinLines | src/TrayApplicationContext.cs:261 | Splitting text made of non-empty lines joined by any CR/LF separator gives back the lines, in order |
| Text.Contains | src/TrayApplicationContext.cs:639-645 | `Contains` holds exactly when the fragment occurs at some position of the text |
| Text.NatToString | src/TrayApplicationContext.cs:278 | A formatted number is a non-empty digit string without a leading zero |
| Text.DigitsValueOfNatToString | src/TrayApplicationContext.cs:274-278 | Reading back a formatted number gives the number |
| Text.NatToStringOfDigitsValue | src/TrayApplicationContext.cs:274-278 | Formatting the value of a digit string without leading zeros gives back that string |
| Text.IntToStringInjective | src/TrayApplicationContext.cs:643-648 | Different display numbers are never formatted alike |
| Text.Trim | src/TrayApplicationContext.cs:266 | Definition of `line.Trim()`: leading, then trailing white space removed; what it keeps is stated by `Text.TrimIsInfix` |
| Text.TrimKeepsChars | src/TrayApplicationContext.cs:266 | Trimming adds no character: every character of the trimmed line occurs in the line |
| Text.SplitLinesChars | src/TrayApplicationContext.cs:261 | Splitting adds no character: every character of an entry occurs in the split text |
| Text.IntToString | src/TrayApplicationContext.cs:643-648 | Definition of the interpolated `{monitorIndex}`: a minus sign for a negative number, then the decimal digits of its magnitude; distinct numbers give distinct texts by `Text.IntToStringInjective` |
| Paths.Combine | src/TrayApplicationContext.cs:298-299 | Definition of `Path.Combine` for a relative second name: the two joined with `\` unless the first is empty or already ends in a separator |
| Paths.CombineNested | src/TrayApplicationContext.cs:689-697 | Combining a directory with `scripts\name` is combining it with `scripts`, then with the name, so the two ways the source builds a path inside `scripts` agree |
| Paths.DirectoryName | src/TrayApplicationContext.cs:635 | Definition of `GetDirectoryName`: null when the path is no longer than its root (`C:\`, `C:`, a leading `\`, or none); otherwise the text before the last separator after the root, with the separators before it trimmed, never shorter than the root |
| Paths.DirectoryNameShape | src/TrayApplicationContext.cs:635 | The result is null exactly when the path is no longer than its root; otherwise it is a prefix of the path at least as long as the root and shorter than the path; beyond the root it stops just before a separator and not on one, and no separator follows the last name |
| Paths.DirectoryNameIsUnique | src/TrayApplicationContext.cs:635 | Those properties determine the directory name: every prefix that has them is the result |
| Paths.DirectoryNameOfCombine | src/TrayApplicationContext.cs:711 | For a rooted directory and a name without separators, the directory of the combined path is the directory with its trailing separators removed, but never below its root (`C:\` stays `C:\`) |
| Paths.DirectoryNameInBaseDirectory | src/TrayApplicationContext.cs:711 | For an application directory ending in a single separator, a file found beside the application has that directory without the separator as its directory, or the root itself when the application sits at a drive root (`C:\dispwin.exe` gives `C:\`) |
| Paths.DirectoryNameInSubdirectory | src/TrayApplicationContext.cs:689-697 | A file found in a subdirectory such as `scripts` has `BaseDirectory\scripts` as its directory, whether the path was combined in one step or two |
| Paths.FirstExisting | src/TrayApplicationContext.cs:302 | `FirstOrDefault(File.Exists)` finds the first existing candidate: none before it exists, and none is found exactly when no candidate exists |
| Paths.FindDispwinExecutable | src/TrayApplicationContext.cs:294-303 | Definition: the first existing one of `BaseDirectory\scripts\dispwin.exe` and `BaseDirectory\dispwin.exe`, or none for the source's `""`; the order is stated by `Paths.FindDispwinExecutableOrder` |
| Paths.FindScript | src/TrayApplicationContext.cs:686-697 | Definition: the first existing one of `BaseDirectory\name` and `BaseDirectory\scripts\name`; the order is stated by `Paths.FindScriptOrder` |
| Paths.FindDispwinExecutableOrder | src/TrayApplicationContext.cs:294-303 | The tool in `scripts` is preferred over the one beside the application; if neither exists, there is none |
| Paths.FindScriptOrder | src/TrayApplicationContext.cs:686-697 | The legacy script beside the application is preferred over the one in `scripts`; if neither exists, there is none |
| Monitors.MatchHeadSound | src/TrayApplicationContext.cs:266-271 | What the matcher takes as `^\d+\s*=\s*'` has that shape and reassembles the text |
| Monitors.HeadIsMatched | src/TrayApplicationContext.cs:266-271 | Every text of that shape is matched and taken apart as it was built |
| Monitors.MatchListingLineSound | src/TrayApplicationContext.cs:271 | A match of `^(\d+)\s*=\s*'([^']+)'` has a digit group and a non-empty quote-free description, and reassembles the text |
| Monitors.MatchListingLineComplete | src/TrayApplicationContext.cs:271 | Every line of that shape is matched, with exactly its digits and description as the groups |
| Monitors.EmptyDescriptionRejected | src/TrayApplicationContext.cs:271 | `n = ''` is not matched: the description needs at least one character |
| Monitors.UnclosedDescriptionRejected | src/TrayApplicationContext.cs:271 | A description without a closing quote is not matched |
| Monitors.ListingLineMatchesLoosely | src/TrayApplicationContext.cs:266-271 | On text without LF, every line the second pattern matches also passes the first pattern's test |
| Monitors.ParseLine | src/TrayApplicationContext.cs:264-289 | An accepted line gives a working monitor numbered from 0 to the largest int |
| Monitors.ParseLineAccepts | src/TrayApplicationContext.cs:264-284 | A listing line padded with white space gives exactly one monitor, with its number and its "Monitor n" or "Monitor n (Primary)" name |
| Monitors.ParseLineCases | src/TrayApplicationContext.cs:264-289 | A line gives a monitor exactly when its trimmed text matches and the number fits an int; the number and name come from the match |
| Monitors.ParseLineSound | src/TrayApplicationContext.cs:264-284 | A line gives a monitor only if its trimmed text has the listing shape, and the monitor's number is the value of the digits |
| Monitors.MonitorName | src/TrayApplicationContext.cs:278-280 | Definition: "Monitor n", followed by " (Primary)" exactly when the description contains "Primary" |
| Monitors.ParsedNameEchoesDigits | src/TrayApplicationContext.cs:274-280 | A number written without leading zeros appears unchanged in the monitor's name |
| Monitors.ParsedMonitors | src/TrayApplicationContext.cs:258-291 | Definition: split the listing into lines, parse each, keep the accepted ones in order; what it yields is stated by `Monitors.ParsedListing` and `Monitors.CollectedMembers` |
| Monitors.PrintableLineParses | src/TrayApplicationContext.cs:264-284 | A listing line as the tool prints it (indented by white space, then well formed on one line, with a number within an int) is accepted as the monitor it announces |
| Monitors.ParsedListing | src/TrayApplicationContext.cs:258-291 | A listing made of `n = 'description'` lines, each indented by its own white space and joined by any line breaks, gives one monitor per line, in order, each with the line's number, name and working flag |
| Monitors.RenderHasQuote | src/TrayApplicationContext.cs:271 | Every line of the listing shape contains a single quote |
| Monitors.UnquotedLineRejected | src/TrayApplicationContext.cs:271 | A line without a single quote is never accepted |
| Monitors.UnquotedListingFallsBack | src/TrayApplicationContext.cs:250-254 | A listing without any single quote leaves the catalog as the primary fallback alone |
| Monitors.ParsedFromLinesSnoc | src/TrayApplicationContext.cs:263-289 | Each line appends its monitor, if accepted, after those of the lines before it |
| Monitors.CollectedMembers | src/TrayApplicationContext.cs:263-289 | The collected monitors are exactly the accepted lines' monitors |
| Monitors.ParsedFromLinesBounds | src/TrayApplicationContext.cs:274-282 | Every parsed monitor is working and numbered within the range of an int |
| Monitors.DiscoveredMonitors | src/TrayApplicationContext.cs:207-256 | Discovery never leaves the catalog empty |
| Monitors.DiscoveredMonitorsCases | src/TrayApplicationContext.cs:207-256 | The catalog is the single primary fallback exactly when the tool is missing or nothing parses; otherwise it is the parsed list, unchanged |
| Monitors.DiscoveredMonitorsBounds | src/TrayApplicationContext.cs:207-256 | Every catalog entry is working and numbered from 0 to the largest int |
| Monitors.DiscoveryOfEmptyListing | src/TrayApplicationContext.cs:250-254 | An empty listing gives the primary fallback alone |
| Monitors.FirstWithNumber | src/TrayApplicationContext.cs:554 | The search finds the first monitor with the number, or reports that there is none |
| Monitors.MonitorDisplayText | src/TrayApplicationContext.cs:547-561 | Definition of `GetMonitorDisplayText`; its three cases are stated by `Monitors.MonitorDisplayTextCases` |
| Monitors.MonitorDisplayTextCases | src/TrayApplicationContext.cs:547-561 | The scope text is " (All Monitors)" for -1, " (name)" of the first monitor with a positive selected number, and "" otherwise |
| Monitors.MonitorMenuChecks | src/TrayApplicationContext.cs:377-418 | The submenu has one check mark per catalog entry |
| Monitors.MenuChecksAt | src/TrayApplicationContext.cs:389-404 | "All Monitors" is checked exactly for -1, and a monitor entry exactly when its number is the selection |
| Monitors.MenuCheckCount | src/TrayApplicationContext.cs:420-445 | When the catalog's numbers are distinct and none is negative, the submenu shows exactly one check mark when the selection is -1 or a catalogued number, and none otherwise |
| Notifications.Queue | src/TrayApplicationContext.cs:166-179 | Definition of one `QueueBalloonTip` step: without a timer nothing changes; otherwise the slot takes the balloon and the timer restarts |
| Notifications.Tick | src/TrayApplicationContext.cs:147-159 | A tick stops the timer and empties the slot; it shows a balloon exactly when one was pending and showing is allowed, and that balloon is the pending one |
| Notifications.QueueAllAppend | src/TrayApplicationContext.cs:161-179 | Queueing in two bursts is the same as queueing the whole sequence |
| Notifications.QueueAllWithoutTimer | src/TrayApplicationContext.cs:168-170 | Without a timer, queueing changes nothing |
| Notifications.QueueAllKeepsTimer | src/TrayApplicationContext.cs:161-179 | Queueing never creates or destroys the timer |
| Notifications.QueueAllLastWins | src/TrayApplicationContext.cs:161-179 | With a timer, after a burst the slot holds the newest balloon and the timer runs |
| Notifications.BurstThenTick | src/TrayApplicationContext.cs:147-179 | A burst followed by a tick shows only the newest balloon, when allowed, and leaves a stopped timer with an empty slot |
| Notifications.TickTwice | src/TrayApplicationContext.cs:147-159 | A second tick with nothing queued in between shows nothing |
| Notifications.TickOnEmptySlot | src/TrayApplicationContext.cs:147-159 | A tick with nothing pending only stops the timer |
| Notifications.QueueAllKeepsArmed | src/TrayApplicationContext.cs:161-179 | Queueing keeps the debouncer armed: whenever a balloon is pending, the timer exists and runs, so no queued balloon is stranded |
| Notifications.TickArms | src/TrayApplicationContext.cs:137-159 | The freshly created timer and the state after every tick are armed |
| Executor.WorkingDirectory | src/TrayApplicationContext.cs:635 | Definition of `GetDirectoryName(path) ?? BaseDirectory`, used at lines 635 and 711 |
| Executor.ToolWorkingDirectory | src/TrayApplicationContext.cs:627-635 | For an application directory ending in a single separator, a found tool runs in `BaseDirectory\scripts` when the tool is there, and otherwise in the application directory without its trailing separator (the drive root itself at a root) |
| Executor.ApplyArguments | src/TrayApplicationContext.cs:639-643 | Definition: `-d n "<working directory>\lut.cal"` |
| Executor.RevertArguments | src/TrayApplicationContext.cs:645-648 | Definition: `-d n -c` |
| Executor.ToolArguments | src/TrayApplicationContext.cs:638-654 | Definition: a name containing "srgb-to-gamma" gets the apply arguments, else one containing "revert" the clear arguments, else none (the legacy fallback); the cases are stated by `Executor.ProfileScriptArguments` |
| Executor.RunOriginal | src/TrayApplicationContext.cs:683-746 | The legacy path launches at most one process and queues at most one balloon; on success it launched once and queued nothing |
| Executor.RunForMonitor | src/TrayApplicationContext.cs:622-681 | A tool run queues at most one balloon; on success it launched exactly one process and queued nothing |
| Executor.PlanFor | src/TrayApplicationContext.cs:597-620 | -1 means every monitor, a positive selection means that display number, and anything else means the legacy script |
| Executor.Execute | src/TrayApplicationContext.cs:597-620 | Definition of `ExecuteBatchFile`: the run that `PlanFor` picks for the selection; what it does is stated by `Executor.SelectedMonitorRunsOnce`, `Executor.LegacySelections` and `Executor.ExecuteQueuesOnlyErrors` |
| Executor.RunAll | src/TrayApplicationContext.cs:599-610 | Definition of the all-monitors loop: each catalog entry's tool run, in catalog order, with no early exit; its meaning is stated by `Executor.RunAllSucceedsIffEach` and `Executor.RunAllLaunchesEachMonitor` |
| Executor.RunsAt | src/TrayApplicationContext.cs:601-608 | The i-th run of the loop is the tool run for the i-th catalog entry's number |
| Executor.RunAllSnoc | src/TrayApplicationContext.cs:601-608 | One more loop iteration appends that monitor's run to the accumulated result |
| Executor.RunAllSucceedsIffEach | src/TrayApplicationContext.cs:599-610 | The all-monitors run succeeds exactly when every monitor's run succeeds |
| Executor.RunAllAppend | src/TrayApplicationContext.cs:601-608 | Running a catalog in two parts, one after the other, equals running it whole |
| Executor.RunAllLaunchesEachMonitor | src/TrayApplicationContext.cs:601-608 | With the tool present, the all-monitors run launches the tool exactly once per catalog entry, in catalog order, each with that entry's number |
| Executor.RunAllWithoutTool | src/TrayApplicationContext.cs:627-633 | Without the tool, nothing is launched, one "Could not find dispwin.exe" balloon is queued per monitor, and the run fails unless the catalog is empty |
| Executor.ToolRunLaunchesOnce | src/TrayApplicationContext.cs:635-666 | With the tool present and a profile script, a monitor's run launches the tool once, with that monitor's arguments, in the tool's directory |
| Executor.SilentToolFailures | src/TrayApplicationContext.cs:664-680 | A tool run succeeds exactly when the tool exits with 0, and queues a balloon exactly when an exception was raised |
| Executor.RunOriginalQueuesErrors | src/TrayApplicationContext.cs:683-746 | The legacy path queues only error balloons |
| Executor.RunForMonitorQueuesErrors | src/TrayApplicationContext.cs:622-681 | A tool run queues only error balloons |
| Executor.ExecuteQueuesOnlyErrors | src/TrayApplicationContext.cs:597-620 | Whatever the selection, executing a script queues only error balloons |
| Executor.SelectedMonitorRunsOnce | src/TrayApplicationContext.cs:612-615 | A positive selection launches the tool exactly once, for that number, whether or not the catalog lists it |
| Executor.LegacySelections | src/TrayApplicationContext.cs:617-619 | Selection 0, or a selection below -1, takes the legacy script path, whatever the catalog |
| Executor.ProfileScriptArguments | src/TrayApplicationContext.cs:639-648 | "srgb-to-gamma.bat" gets the apply arguments and "revert.bat" the clear arguments |
| Executor.DisplayArgumentsDetermine | src/TrayApplicationContext.cs:643-648 | "-d n" followed by a space-led remainder determines both the number and the remainder |
| Executor.ApplyArgumentsInjective | src/TrayApplicationContext.cs:643 | Different monitors never get the same apply command line |
| Executor.RevertArgumentsInjective | src/TrayApplicationContext.cs:648 | Different monitors never get the same clear command line |
| Executor.ApplyIsNotRevert | src/TrayApplicationContext.cs:638-648 | An apply command line is never a clear command line |
| Profiles.ToggleAction | src/TrayApplicationContext.cs:522-532 | A click applies the gamma profile exactly when the default profile is active, and reverts otherwise |
| Profiles.HotkeyAction | src/TrayApplicationContext.cs:482-494 | Hotkey 1 (Alt+F1) applies, hotkey 2 (Alt+F2) reverts, and every other identifier does nothing |
| Profiles.HotkeyWarnings | src/TrayApplicationContext.cs:448-468 | One "Hotkey Registration Failed" warning per hotkey that could not be registered |
| Profiles.ChangeProfile | src/TrayApplicationContext.cs:563-591 | Definition of the effect of `ApplySrgbToGamma` and `RevertToDefault`: run the action's script; only on success set the flag, the tooltip and the "Profile Changed" balloon |
| Profiles.FlagFollowsSuccess | src/TrayApplicationContext.cs:563-591 | After a successful run the flag is that of the action's profile; after a failed run the flag and tooltip are unchanged |
| Profiles.ToggleFlips | src/TrayApplicationContext.cs:522-532 | A toggle flips the flag exactly when its run succeeds |
| Profiles.SuccessIsAnnounced | src/TrayApplicationContext.cs:563-576 | A successful change leaves the "Profile Changed" balloon for that action and scope pending, and rewrites the tooltip for the new profile |
| Profiles.FailureIsNotAnnounced | src/TrayApplicationContext.cs:563-591 | A failed change queues only error balloons, never "Profile Changed" |
| Profiles.ToolTipText | src/TrayApplicationContext.cs:541-544 | Definition: "HDR Gamma Fix: " followed by the active profile's name and the scope text; the icon starts with "Color Profile: Default" until the first change |
| Profiles.ToolTipDistinguishesProfiles | src/TrayApplicationContext.cs:534-545 | The tooltip always tells the two profiles apart |
| Profiles.ChangedNoticesDiffer | src/TrayApplicationContext.cs:572-589 | The apply and revert balloons never coincide |
| Settings.LoadedSelection | src/TrayApplicationContext.cs:305-325 | Definition: the stored selection, or -1 when the key or the value is missing; `Settings.LoadDefaults` and `Settings.SelectionRoundTrip` state it |
| Settings.LoadedNotificationsEnabled | src/TrayApplicationContext.cs:327-347 | Balloons are off exactly when the stored value is present and 0 |
| Settings.LoadDefaults | src/TrayApplicationContext.cs:305-347 | A missing or unreadable key gives all monitors (-1) and balloons on |
| Settings.SelectionRoundTrip | src/TrayApplicationContext.cs:305-361 | A written selection is what the next load reads, and the notification setting is not disturbed |
| Settings.NotificationsRoundTrip | src/TrayApplicationContext.cs:327-375 | A written notification flag is what the next load reads, and the selection is not disturbed |
| Settings.SaveSelectionOutcomes | src/TrayApplicationContext.cs:349-361 | Only a write that raises leaves the in-memory selection alone, and only a completed write changes the key |
| Settings.SaveSelection | src/TrayApplicationContext.cs:349-361 | Definition of a selection write's effect on the key and on memory, for each write outcome |
| Settings.SaveNotifications | src/TrayApplicationContext.cs:363-375 | The same for the notification flag, stored as 1 or 0 |
| Settings.SaveNotificationsOutcomes | src/TrayApplicationContext.cs:363-375 | The same for the notification flag |
| Tray.TrayApplicationContext.constructor | src/TrayApplicationContext.cs:66-77 | After construction the catalog, both settings and the check marks are as loaded, and the state is exactly one gamma application from the default profile, queued after the hotkey warnings; the key still holds what was stored, or nothing when it was missing, as startup writes nothing to it |
| Tray.TrayApplicationContext.Start | src/TrayApplicationContext.cs:68-76 | The constructor's steps once the fields exist: settings loaded, then the gamma profile applied once, with the key left untouched |
| Tray.TrayApplicationContext.PrepareStartup | src/TrayApplicationContext.cs:68-73 | The startup steps before the first change: catalog, settings and check marks loaded; icon visible with the initial tooltip; timer created, holding the hotkey warnings; the key untouched |
| Tray.TrayApplicationContext.ApplyAtStartup | src/TrayApplicationContext.cs:75-76 | The startup application of the gamma profile, as `ChangeProfile` defines it, leaving the catalog, settings, check marks and key unchanged |
| Tray.TrayApplicationContext.InitializeNotificationTimer | src/TrayApplicationContext.cs:137-145 | A stopped timer with nothing pending |
| Tray.TrayApplicationContext.InitializeComponent | src/TrayApplicationContext.cs:79-135 | The check marks show the selection and the notification setting; the icon is visible with the initial tooltip and the default icon |
| Tray.TrayApplicationContext.QueueBalloonTip | src/TrayApplicationContext.cs:161-179 | The debouncer takes one `Queue` step |
| Tray.TrayApplicationContext.ShowBalloonTipInternal | src/TrayApplicationContext.cs:181-205 | A balloon is shown and logged exactly when notifications are on and the icon is visible |
| Tray.TrayApplicationContext.NotificationTimerTick | src/TrayApplicationContext.cs:147-159 | The debouncer takes one `Tick` step, and the balloon it emits, if any, is shown and logged |
| Tray.TrayApplicationContext.DetectAvailableMonitors | src/TrayApplicationContext.cs:207-256 | The catalog becomes the discovered monitors |
| Tray.TrayApplicationContext.ParseMonitorsFromDispwinOutput | src/TrayApplicationContext.cs:258-291 | The monitors of the accepted lines are appended to the catalog, in line order |
| Tray.TrayApplicationContext.ExecuteBatchFileOriginal | src/TrayApplicationContext.cs:683-746 | Result, queued balloons and launches are those of the legacy run |
| Tray.TrayApplicationContext.ExecuteBatchFileForMonitor | src/TrayApplicationContext.cs:622-681 | Result, queued balloons and launches are those of the tool run for that number |
| Tray.TrayApplicationContext.ExecuteBatchFile | src/TrayApplicationContext.cs:597-620 | Result, queued balloons and launches are those that the selection's plan prescribes |
| Tray.TrayApplicationContext.ExecuteForEveryMonitor | src/TrayApplicationContext.cs:599-610 | The loop's result, balloons and launches are those of every catalog entry's run, in order, with no early exit |
| Tray.TrayApplicationContext.UpdateIconAndText | src/TrayApplicationContext.cs:534-545 | The icon and tooltip show the active profile and the scope |
| Tray.TrayApplicationContext.ApplySrgbToGamma | src/TrayApplicationContext.cs:563-576 | The new state is the apply action's `ChangeProfile` effect: flag, tooltip and icon change only on success, and the balloons and launches are appended |
| Tray.TrayApplicationContext.RevertToDefault | src/TrayApplicationContext.cs:578-591 | The same for the revert action |
| Tray.TrayApplicationContext.ToggleProfile | src/TrayApplicationContext.cs:522-532 | The effect of the action `ToggleAction` picks for the current flag |
| Tray.TrayApplicationContext.OnHotkeyPressed | src/TrayApplicationContext.cs:482-494 | The effect of the hotkey's action; for an unknown identifier, nothing changes |
| Tray.TrayApplicationContext.RegisterHotkeys | src/TrayApplicationContext.cs:448-468 | The warnings for the unregistered hotkeys are queued, Alt+F1's first |
| Tray.TrayApplicationContext.LoadMonitorSelection | src/TrayApplicationContext.cs:305-325 | The selection is the stored value, or -1 |
| Tray.TrayApplicationContext.LoadNotificationSetting | src/TrayApplicationContext.cs:327-347 | The flag is the stored value read as non-zero, or on |
| Tray.TrayApplicationContext.SaveMonitorSelection | src/TrayApplicationContext.cs:349-361 | Key and selection as `SaveSelection` gives them for the write's outcome |
| Tray.TrayApplicationContext.SaveNotificationSetting | src/TrayApplicationContext.cs:363-375 | Key and flag as `SaveNotifications` gives them for the write's outcome |
| Tray.TrayApplicationContext.RefreshMonitorMenu | src/TrayApplicationContext.cs:420-445 | The loop leaves the check marks of the current selection |
| Tray.TrayApplicationContext.SelectMonitor | src/TrayApplicationContext.cs:389-414 | A click on a monitor entry saves the selection, then refreshes the check marks and tooltip to match; the icon keeps showing the active profile (the gamma icon exactly when the default profile is not active) |
| Tray.TrayApplicationContext.ToggleNotifications | src/TrayApplicationContext.cs:105-109 | The check mark flips, then is saved; the flag follows it unless the write raises |
| Tray.TrayApplicationContext.OnExit | src/TrayApplicationContext.cs:749-757 | The icon is hidden, so no further balloon can be shown |
| Tray.TrayApplicationContext.Dispose | src/TrayApplicationContext.cs:759-774 | The timer is stopped; releasing the timer, icons, menu and message window and unregistering the hotkeys are not modelled |

## Left out

- Windows Forms rendering is not modelled:
  - `MessageBox` dialogs;
  - icon loading (`LoadIcons`); the model only records whether the gamma icon is shown;
  - building the context menu; the model keeps only the check marks and the click handlers' effects.
- The "Run at Startup" entry is not modelled: `SetStartup` and `IsConfiguredToRunAtStartup` write the Windows run key, which is outside the profile logic.
- Hotkey registration and unregistration through P/Invoke, and the hidden message window, are not modelled.
  - Whether each registration succeeded is a parameter.
  - A pressed hotkey is the identifier passed to `OnHotkeyPressed`.
- Process creation, the 5- and 10-second waits, and reading the tool's output are not modelled; they are the `Host.launch` oracle and the `listing` parameter.
  - `Host.launch` is a function, so it gives one fixed outcome per command line. Two identical launches cannot differ in the model: the same profile change repeated by a later handler, or two catalog entries with the same number in one all-monitors run. In the program they can differ. No lemma here relies on this.
  - `listing` is the tool's standard output followed by its standard error, or `None` when no listing was obtained.
  - `ExitCode` raising for a process that has not exited is folded into `Threw`.
- The display-listing command (`dispwin -?`) is not recorded in the `launched` log. The log holds only the `Process.Start` calls made to change a profile, whatever their outcome.
- Timing is not modelled: the 500 ms timer delay and the timer thread are replaced by explicit `Queue` and `Tick` steps.
- `src/Program.cs` only bootstraps the application and is not part of this model.
- Exceptions other than those raised when starting a process are not modelled. This covers exceptions from the file system or the path functions, and from the registry beyond the modelled write outcomes.
- `Paths.Combine` does not model separator normalisation or rooted second arguments. It handles only the relative names the agent passes.
- Paths.DirectoryName: only drive roots (`C:\`, `C:`) and a leading `\` are recognised as roots. UNC roots (`\\server\share`) and device paths (`\\?\`), the normalisation of `/` to `\` and of doubled separators, and the exceptions .NET Framework raises for invalid paths are not modelled. The application directory is a local drive path in every modelled lemma.
- `Text.IsWhiteSpace` and the digit class are written out for the characters .NET recognises.
  - Non-ASCII Unicode digits are left out: `\d` would accept them, but `int.Parse` then rejects the line, so the line is skipped either way.
  - A number beyond the range of an `int` makes `int.Parse` throw; the model skips the line, as the `catch` does.
- `Monitors.ParsedMonitors` computes every line's result first and then collects the accepted ones. The loop in `ParseMonitorsFromDispwinOutput` appends as it goes; the two give the same catalog.
- Tray.TrayApplicationContext.constructor: its postcondition does not restate that the icon is visible, the timer exists, no balloon has been shown and the ghost `shown` log is empty. `PrepareStartup` states the first two, and the profile change cannot change any of them.
- Tray.TrayApplicationContext.UpdateIconAndText: the early return for a missing icon is not modelled. The icon always exists once `InitializeComponent` has run, and every caller runs after it.
- Re-entrancy is not modelled. Every error path shows a modal `MessageBox` (`src/TrayApplicationContext.cs` lines 630, 675, 705, 727 and 741) before it queues its balloon, and a modal dialog runs its own message loop: while it is open, the notification timer can tick and a hotkey or menu click can start another profile change in the middle of the current one. The model runs each handler to completion before the next starts.
- Notifications.BurstThenTick: describes a burst with no tick in between, which is the atomic reading; with the re-entrancy above, a tick during a dialog can show an earlier balloon of the burst first.
- Tray.TrayApplicationContext.ExecuteBatchFile: its ensures, and those of `ExecuteForEveryMonitor`, `ExecuteBatchFileForMonitor` and `ExecuteBatchFileOriginal`, describe the atomic reading: the queued balloons, launches and state of a run without any other handler running during its dialogs.
