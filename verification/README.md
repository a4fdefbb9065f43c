# Verified model of the qBittorrent application shell

This project models the stateful protocols and the text and path algorithms of qBittorrent's
application shell and of `src/base` in Dafny, and proves what they keep. Code that updates fields is
a class whose methods are proved against a function on values; the theorems are about that function,
over every input and over whole runs. There is one module per source file or concern:

- **Settings, SettingsRuns** (`settingsstorage.cpp`): the settings are written to a `_new` file that
  then replaces the final file, and a start finishes what was interrupted. Every run of starts,
  changes, saves and crashes after any step refines one durable map that a save replaces at once.
- **FolderWorker, FolderWalk, FolderRuns, FolderRemovals, FolderParams, FolderWatcher, FolderReports,
  FolderReportRuns, FolderFinds, Algorithm** (`torrentfileswatcher.cpp`, `algorithm.h`): the main
  thread's folder list mirrored to a worker through queued calls; polling and notification, the walk
  of directory trees, what scans find, failed files and their retries, and how each file ends.
- **Paths, RootFolders, Profile** (`path.cpp`, `profile_p.cpp`): paths as strings, their cleaning and
  resolution, common paths, root folders, and paths stored relative to the profile.
- **CommandLine, CommandLineRoundTrip, ExternalProgram** (`application.cpp`): the text in which one
  instance passes its command line to another, and the templates of external programs.
- **TorrentFileGuards, AddTorrent, AddTorrentLife, AddTorrentRuns, AddTorrentOwnReports**
  (`torrentfileguard.cpp`, `addtorrentmanager.cpp`, `guiaddtorrentmanager.cpp`): from a source to a
  torrent in the session, which `.torrent` files are deleted on the way, and by whose report. Guards are objects owned by a
  table.
- **ContentLayout, PathHistory** (`addnewtorrentdialog.cpp`): the content layouts of the add dialog
  and its history of save paths.
- **Logger** (`logger.cpp`): the bounded log in memory and a reader that polls it.
- **FileLogNames, FileLogger, FileLoggerRuns** (`filelogger.cpp`): the log file, its flushing and its
  rotation.
- **FlowLayout, FlowLayoutProperties** (`flowlayout.cpp`): breaking items into lines.
- **Strings**: splitting, joining and decimal numbers, shared by the others.

## Where the code does not do what one would expect

- Saving an empty settings map creates no `_new` file, so the rename fails, `save` returns false and
  the program stays dirty (`SettingsRuns.SaveReportExactly`; an input is in
  `SettingsRuns.EmptyMapIsNotSaved`).
- After a failed rename the next save merges into the leftover `_new` file, so a key removed in
  between comes back although that save reports success (`SettingsRuns.FailedRenameResurrects`). A
  save that reports success made the durable map equal to the memory exactly when no valid key is
  left in the `_new` file that the memory does not have (`SettingsRuns.SaveReport`).
- A torrent directly in a watched folder gets its category with a trailing `/` when it is found by a
  retry under automatic management (`FolderParams.RetryLikeScan`; an input is in
  `FolderParams.RetryAddsSeparator`).
- A folder that is removed while a scan of it is pending is still scanned, and its broken files are
  then recorded and retried although it is no longer watched (`FolderRemovals.StaleExactly`; a run is in
  `FolderRemovals.StaleFailure`).
- A guard knows its source but not its torrent: when a file changes while its first torrent is on the
  way and is added again, the report of the first torrent deletes the file of the second. A report ends
  its own torrent's guard exactly when the file contained that torrent the last time its source was
  added in a way that guarded it (`AddTorrentOwnReports.OtherTorrentExactly`; a run is in
  `AddTorrentOwnReports.OtherTorrentsReportDeletes`).
- A profile path that begins with `..` above the root does not survive the portable form
  (`Profile.RoundTrip`; the counterexample is `Profile.RoundTripNeedsTheHypothesis`).
- For a torrent without a root folder whose first file lies in a folder, the subfolder layout and back
  does not restore the list, because only one of the added folders is removed again
  (`ContentLayout.LayoutRuns`; an input is in `ContentLayout.FolderIsLeft`).
- In deletion mode "always" a `.torrent` file goes with its guard unless the session refuses the torrent
  or the user keeps the file (`AddTorrentRuns.EveryDeletionIsJust`): it is deleted when it does not load
  (`AddTorrentRuns.UnloadableIsDeleted`), when its dialog is rejected
  (`AddTorrentRuns.RejectedIsDeleted`), and for a duplicate at once where dialogs are used
  (`AddTorrentRuns.DuplicateIsDeleted`), otherwise when its guard is replaced or dropped later, at the
  latest at shutdown (`AddTorrentRuns.DuplicateWaits`).
- An item exactly as wide as the layout counts as too wide, because its width is compared with the
  last column (`FlowLayoutProperties.NextItem` says exactly when a line is broken; an input is in
  `FlowLayoutProperties.ExactFitBreaks`).

## Model

| member | source | states |
|---|---|---|
| Settings.SettingsStorage.constructor | src/base/settingsstorage.cpp:48-56 | a start loads what the disk stands for and leaves a clean program without timer; the disk goes through the recovery's steps only |
| Settings.SettingsStorage.Deserialize | src/base/settingsstorage.cpp:117-138 | adds exactly the valid entries of a file to the memory, and tells whether the file had any key |
| Settings.SettingsStorage.ReadNativeSettings | src/base/settingsstorage.cpp:115-162 | the leftover `_new` file wins if it has keys, else the final file is read; the recovery is visible on disk step by step |
| Settings.SettingsStorage.WriteNativeSettings | src/base/settingsstorage.cpp:164-210 | every intermediate state of the two files, and that success is reported exactly when the new map became the final file |
| Settings.SettingsStorage.Save | src/base/settingsstorage.cpp:80-95 | true exactly for a dirty program whose write succeeded; the dirty flag and the timer afterwards |
| Settings.SettingsStorage.OnTimeout | src/base/settingsstorage.cpp:53-55 | the timer is a single shot, and is armed again when the save fails; the save's report and the files are those of a save |
| Settings.SettingsStorage.StoreValue | src/base/settingsstorage.cpp:103-113 | a changed value dirties and arms the timer; an invalid value under a new key is inserted without either |
| Settings.SettingsStorage.RemoveValue | src/base/settingsstorage.cpp:212-220 | removing an existing key dirties and arms the timer, a missing key changes nothing |
| SettingsRuns.ReadAfterRestart | src/base/settingsstorage.cpp:97-113 | after a change, a successful save and a restart a key reads as the value stored last, or as the default if it was removed or its value is not valid; the other keys read as before |
| SettingsRuns.StoringDirtiesExactly | src/base/settingsstorage.cpp:103-113 | storing dirties and starts the timer if and only if the value differs from the one read already; afterwards it is what is read, and other keys read as before |
| SettingsRuns.RemovingDirtiesExactly | src/base/settingsstorage.cpp:212-220 | removing dirties and starts the timer if and only if the key is there; afterwards the default is read |
| SettingsRuns.RecoveryKeepsLoaded | src/base/settingsstorage.cpp:115-162 | cutting off or failing the recovery anywhere does not change what the next start loads |
| SettingsRuns.SaveStates | src/base/settingsstorage.cpp:164-210 | after every step of a save the next start would load the old map or the new one, and which of them |
| SettingsRuns.StepIsAtomic | src/base/settingsstorage.cpp:80-220 | every event, cut off anywhere, acts like one step of the atomic reference and keeps the invariant |
| SettingsRuns.RunIsAtomic | src/base/settingsstorage.cpp:80-220 | over every run with working removals and renames: what the next start loads is the durable map of the reference; a clean memory is durable, a dirty one has its timer armed |
| SettingsRuns.SaveReport | src/base/settingsstorage.cpp:80-95 | a save that reports success leaves a clean program, and made the durable map equal to the memory if and only if no valid key is left in the `_new` file that the memory does not have |
| SettingsRuns.SaveReportExactly | src/base/settingsstorage.cpp:164-210 | with working files the report is success if and only if the sync works and there is something to rename |
| SettingsRuns.SaveIsAtomicExactly | src/base/settingsstorage.cpp:173-201 | under all faults a save is atomic if and only if there is no leftover file, or merging into it and deleting it are both harmless |
| SettingsRuns.EmptyMapIsNotSaved | src/base/settingsstorage.cpp:164-210 | a concrete run: the last value is removed and its save fails although every file can be written |
| SettingsRuns.FailedRenameResurrects | src/base/settingsstorage.cpp:173-210 | a concrete run in which a removed key comes back after a failed rename |
| FolderWalk.WalkVisitsExactly | src/base/torrentfileswatcher.cpp:374-456 | a directory of the tree is visited if and only if it is the folder itself, or the folder is recursive and its nearest watched ancestor-or-self |
| FolderWalk.WalkOnce | src/base/torrentfileswatcher.cpp:445-455 | no directory is visited twice in one walk |
| FolderWalk.WalksDisjoint | src/base/torrentfileswatcher.cpp:445-455 | no directory is visited by the walks of two watched folders |
| FolderWorker.Worker.SetWatchedFolder | src/base/torrentfileswatcher.cpp:335-341 | a known folder is updated, a new one added |
| FolderWorker.Worker.AddWatchedFolder | src/base/torrentfileswatcher.cpp:517-535 | the new state: polled with the timer on if recursive or on a network, else notified and scheduled once |
| FolderWorker.Worker.UpdateWatchedFolder | src/base/torrentfileswatcher.cpp:537-562 | the new state: a change of recursion moves a local folder between polling and notification |
| FolderWorker.Worker.RemoveWatchedFolder | src/base/torrentfileswatcher.cpp:343-355 | the folder, its monitoring and its failures are gone; timers without work stop |
| FolderWorker.Worker.ScheduleWatchedFolderProcessing | src/base/torrentfileswatcher.cpp:357-363 | one more pending scan of the path |
| FolderWorker.Worker.OnTimeout | src/base/torrentfileswatcher.cpp:329-333 | each polled folder is scanned exactly once, in some order, and exactly what these scans find is reported and removed |
| FolderWorker.Worker.OnScheduled | src/base/torrentfileswatcher.cpp:359-362 | the pending scan is made and is no longer pending |
| FolderWorker.Worker.ProcessWatchedFolder | src/base/torrentfileswatcher.cpp:365-372 | the torrents found, the files removed and the failures of one scan; the retry timer runs if any failure is recorded |
| FolderWorker.Worker.ProcessFolder | src/base/torrentfileswatcher.cpp:374-456 | the recursive, in-place walk handles the files of exactly the visits of the reference walk, in its order |
| FolderWorker.Worker.ProcessFiles | src/base/torrentfileswatcher.cpp:377-443 | the files of a directory are handled one after the other with the parameters of their directory |
| FolderWorker.Worker.ProcessFile | src/base/torrentfileswatcher.cpp:397-442 | what is found in a file, line by line in a magnet file, when it is removed, and that a broken one is recorded only if it is not recorded yet |
| FolderWorker.Worker.ProcessFailedTorrents | src/base/torrentfileswatcher.cpp:458-515 | the table after a pass; every recorded file that loads is reported and removed once, every one whose retries are used up is renamed once, also when it is recorded under several folders, and no other file is |
| FolderWorker.Worker.RetryOneFolder | src/base/torrentfileswatcher.cpp:461-508 | the entries left in one folder, the files found with their parameters and those rejected, given what the pass has already removed |
| FolderFinds.ScanReports | src/base/torrentfileswatcher.cpp:374-456 | a scan reports every torrent file that loads and every valid line of a readable magnet file in the directories it visits, in order, with the parameters of its directory, and nothing else |
| FolderFinds.PollReports | src/base/torrentfileswatcher.cpp:329-333 | a poll reports what the scans of its folders report, one after the other |
| FolderFinds.PollFails | src/base/torrentfileswatcher.cpp:329-333 | a poll leaves the failures of its scans |
| FolderFinds.RemovedExactly | src/base/torrentfileswatcher.cpp:402-433 | exactly the files that can be read are removed |
| FolderFinds.RemovedWasReported | src/base/torrentfileswatcher.cpp:402-433 | whatever a removed file held was reported |
| FolderFinds.ScanRecords | src/base/torrentfileswatcher.cpp:435-441 | a scan records, for its own folder, exactly the torrent files it sees that do not load |
| FolderFinds.ScanVisitsExactly | src/base/torrentfileswatcher.cpp:365-456 | a scan goes into subfolders exactly for a folder watched as recursive, and not into those watched on their own |
| FolderFinds.PollVisitsExactly | src/base/torrentfileswatcher.cpp:329-333 | a poll handles the directories of all its folders |
| FolderFinds.RetryReports | src/base/torrentfileswatcher.cpp:469-491 | a retry reports a torrent as a scan of its directory would, with the one exception |
| Algorithm.RemoveIf | src/base/algorithm.h:41-47 | every entry is asked about exactly once, with its first value; what is erased and what is kept with its new value |
| FolderRuns.RunKeepsInv | src/base/torrentfileswatcher.cpp:329-562 | after every series of slots: polled and notified folders partition the watched ones, polled are exactly the recursive and the network ones, each timer runs exactly when it has work, no failure table is empty, all counters are in range |
| FolderRuns.NewlyNotifiedIsScheduled | src/base/torrentfileswatcher.cpp:517-562 | a folder that comes to be notified of changes gets one pending scan, and nothing else does |
| FolderRuns.PendingExactly | src/base/torrentfileswatcher.cpp:320-363 | a scan that is put off, for a start or after a change, stays pending until it is made, whatever happens to its folder |
| FolderRuns.ScanKeepsCounts | src/base/torrentfileswatcher.cpp:437-440 | a scan never resets a counter |
| FolderRuns.RetryCounts | src/base/torrentfileswatcher.cpp:458-515 | what one pass does to each counter: an entry whose file is gone under an earlier folder is dropped |
| FolderRuns.FailingFileCounts | src/base/torrentfileswatcher.cpp:437-515 | over any slots the highest counter of a failing file rises with the retry passes and nothing else |
| FolderRuns.RejectedOnSixthPass | src/base/torrentfileswatcher.cpp:493-502 | a failing file is rejected, and dropped, by exactly the sixth pass after it was recorded, whatever other folders recorded it later |
| FolderRemovals.StaleExactly | src/base/torrentfileswatcher.cpp:343-372 | a slot records failures for a folder that is not watched if and only if it is a pending scan of such a folder that finds a broken file in it |
| FolderRemovals.TidyRun | src/base/torrentfileswatcher.cpp:343-372 | when no folder is removed while a scan of it is pending, failures are recorded for watched folders only |
| FolderRemovals.StaleFailure | src/base/torrentfileswatcher.cpp:343-372 | a concrete run that leaves a failure of a removed folder |
| FolderRuns.EntryEnds | src/base/torrentfileswatcher.cpp:437-515 | in any run with more retry passes than its counter leaves, whatever else is scanned, set or removed, an entry ends |
| FolderRuns.TableEmpties | src/base/torrentfileswatcher.cpp:458-515 | when no slot records a file that was not recorded before it, six passes empty the table and stop its timer, whatever is scanned in between |
| FolderReports.ScanRemoves | src/base/torrentfileswatcher.cpp:374-456 | a scan removes the files it could read in the directories it visits, and no others |
| FolderReports.PollRemoves | src/base/torrentfileswatcher.cpp:329-333 | a poll removes those of all the directories it handles |
| FolderReports.SameFile | src/base/torrentfileswatcher.cpp:377-380 | two files with one path are the same file of the same directory |
| FolderReports.VisitsRemovedOnce | src/base/torrentfileswatcher.cpp:374-456 | over different directories no path is removed twice |
| FolderReportRuns.RetryAccounts | src/base/torrentfileswatcher.cpp:458-515 | what a retry pass reports and renames is each file that its table makes it end, once |
| FolderReportRuns.PollRemovesOnce | src/base/torrentfileswatcher.cpp:329-333 | in every reachable state one poll removes no path twice |
| FolderReportRuns.EndedAtMostOnce | src/base/torrentfileswatcher.cpp:329-562 | over every run in which a path is not used again after its file was removed or renamed, each file is reported at most once by scans and retries together, and never both reported and rejected |
| FolderParams.SubdirectoryParams | src/base/torrentfileswatcher.cpp:381-395 | the way from the watched folder to a file extends the category under automatic management and the save path otherwise |
| FolderParams.RetryLikeScan | src/base/torrentfileswatcher.cpp:472-485 | a retry gives a file the parameters of a scan if and only if it is not directly in the folder under automatic management with a category |
| FolderParams.RetryAddsSeparator | src/base/torrentfileswatcher.cpp:472-480 | a concrete file for which scan and retry differ |
| FolderWatcher.TorrentFilesWatcher.DoSetWatchedFolder | src/base/torrentfileswatcher.cpp:273-289 | empty and relative paths are refused and change nothing; else the list changes and one call is queued |
| FolderWatcher.TorrentFilesWatcher.RemoveWatchedFolder | src/base/torrentfileswatcher.cpp:291-307 | a call is queued only for a folder that was there |
| FolderWatcher.TorrentFilesWatcher.Deliver | src/base/torrentfileswatcher.cpp:283-300 | the worker executes the oldest queued call |
| FolderWatcher.ThreadsAgree | src/base/torrentfileswatcher.cpp:273-355 | in every interleaving the worker's list with the queued calls applied is the main thread's list, and the worker's invariant holds |
| FolderWatcher.ListIsLastSaid | src/base/torrentfileswatcher.cpp:273-307 | after every run the main thread's list holds a folder with these options if and only if the last call about it that was not refused set it to them |
| FolderWatcher.QueueDrains | src/base/torrentfileswatcher.cpp:283-300 | as many deliveries as calls wait bring the worker's list up to date |
| FolderWatcher.PollHandlesOnce | src/base/torrentfileswatcher.cpp:329-333 | in every reachable state one poll handles no directory twice, in whatever order it goes through the folders |
| FolderWatcher.NoDirectoryTwice | src/base/torrentfileswatcher.cpp:374-456 | in every reachable state no directory is scanned for two watched folders |
| Paths.CleanIdempotent | src/base/path.cpp:49-56 | a cleaned path is clean, leads to the same place and stays absolute or relative |
| Paths.NothingToClean | src/base/path.cpp:49-56 | skipping the cleaning of a path without separator makes no difference |
| Paths.LocateRendered | src/base/path.cpp:49-56 | resolving the text of a resolved path gives it back, and that text is clean |
| Paths.ParentDropsLast | src/base/path.cpp:155-173 | the parent of a path, absolute or not, is the path without its last component |
| Paths.NoParent | src/base/path.cpp:155-173 | the root and the empty path have no parent |
| Paths.AppendFollows | src/base/path.cpp:355-364 | joining two paths follows the second from where the first leads |
| Paths.AppendName | src/base/path.cpp:355-364 | joining a name adds one component |
| Paths.CommonPath | src/base/path.cpp:273-297 | the loop's size arithmetic always cuts at a component boundary: the result is the join of the common components |
| Paths.CommonPathIsLongestPrefix | src/base/path.cpp:273-297 | it is the longest list of components both paths begin with, whichever path comes first |
| Paths.RelativePathIsWay | src/base/path.cpp:212-219 | the relative path to an absolute path is the way up to the last common component and down again, from the current directory if the base is relative |
| Paths.RelativePathBelowHome | src/base/path.cpp:212-219 | between two relative paths it is the way between their places below the home directory |
| Paths.RelativeStays | src/base/path.cpp:212-219 | from an absolute base a relative path stays as it is |
| Profile.PortableIsWay | src/base/profile_p.cpp:199-215 | the portable form is the way from the base to the path |
| Profile.FromPortableFollows | src/base/profile_p.cpp:217-223 | reading a portable form follows it from the base |
| Profile.WayLeads | src/base/profile_p.cpp:199-223 | a way leads to its goal if and only if its start has no more uncancelled `..` than the goal |
| Profile.RoundTrip | src/base/profile_p.cpp:199-223 | a clean absolute path survives the round trip if and only if the base does not begin with more `..` above the root than it does |
| Profile.AbsoluteStays | src/base/profile_p.cpp:217-223 | an absolute or an empty path is read as it is |
| Profile.Relocation | src/base/profile_p.cpp:199-223 | when the profile is moved, every path below it moves along |
| Profile.RoundTripNeedsTheHypothesis | src/base/profile_p.cpp:199-223 | a concrete base for which the round trip fails |
| RootFolders.FindRootFolder | src/base/path.cpp:299-316 | the loop computes the root folder of a list |
| RootFolders.RootFolderIsShared | src/base/path.cpp:299-316 | for relative paths the root folder is the folder all of them lie in, and it is empty if and only if there is none |
| RootFolders.StripRootFolder | src/base/path.cpp:318-332 | every path loses the shared folder, or none changes |
| RootFolders.AddRootFolder | src/base/path.cpp:334-340 | every path is put into the folder |
| RootFolders.AddedLeadsOn | src/base/path.cpp:334-340 | every path, of whatever kind, leads on from where the folder leads |
| RootFolders.WithoutRootParts | src/base/path.cpp:318-332 | a stripped path has its components but the first |
| ContentLayout.TorrentContentAdaptor.constructor | src/gui/addnewtorrentdialog.cpp:155-171 | the first layout is the one of the torrent, whatever the list being edited is |
| ContentLayout.TorrentContentAdaptor.RenameFile | src/gui/addnewtorrentdialog.cpp:200-213 | one path of the list changes, also when it was the torrent's own list before |
| ContentLayout.TorrentContentAdaptor.ApplyContentLayout | src/gui/addnewtorrentdialog.cpp:215-240 | the list and the layout after a choice |
| ContentLayout.LayoutRuns | src/gui/addnewtorrentdialog.cpp:164-240 | from any list, renamed or not: after every series of choices the list depends on the last layout alone, and the original layout restores it, if and only if it still has the torrent's root folder, or the torrent has none and the extension-less first path is one component (or names no folder and there is none to strip) |
| ContentLayout.UnrenamedRuns | src/gui/addnewtorrentdialog.cpp:164-240 | for a list that was not renamed this fails only without a root folder and with several components |
| ContentLayout.LastChoice | src/gui/addnewtorrentdialog.cpp:215-240 | the last choice decides the layout |
| ContentLayout.ExtensionIsRemoved | src/base/path.cpp:226-229 | the folder added is the first path up to its extension |
| ContentLayout.ThereAndBack | src/gui/addnewtorrentdialog.cpp:215-240 | the other layout and back restores the list if and only if it can be restored |
| ContentLayout.FolderIsLeft | src/gui/addnewtorrentdialog.cpp:215-240 | a concrete list around which a folder is left |
| PathHistory.UpdatePathHistory | src/gui/addnewtorrentdialog.cpp:132-148 | the path comes first, its old place is closed and the list is cut |
| PathHistory.NotUsedLater | src/gui/addnewtorrentdialog.cpp:132-148 | the last use by which the order is defined is the last one |
| PathHistory.FullIsRecent | src/gui/addnewtorrentdialog.cpp:132-148 | the history that is never cut holds every path used, once, ordered by last use |
| PathHistory.TruncateLater | src/gui/addnewtorrentdialog.cpp:132-148 | cutting before an update does not change what is left after it |
| PathHistory.HistoryIsMostRecent | src/gui/addnewtorrentdialog.cpp:132-148 | after any updates the list is a beginning of all distinct paths in most-recently-used order, with as many as there are up to the maximum |
| CommandLine.SerializeParams | src/app/application.cpp:152-189 | the options in their order, then the sources, joined by the separator |
| CommandLine.ParseParams | src/app/application.cpp:191-249 | the loop over the parts takes options and sources in order |
| CommandLine.ParseOne | src/app/application.cpp:196-246 | what one part changes |
| CommandLineRoundTrip.ParseParsed | src/app/application.cpp:191-249 | whatever text arrives, every source that is parsed is trimmed, has no separator and is not named like an option |
| CommandLineRoundTrip.Arrives | src/app/application.cpp:152-249 | what becomes of every field when no text contains the separator |
| CommandLineRoundTrip.SavePathKept | src/app/application.cpp:198-207 | a clean save path arrives unchanged if and only if it has no white space at its end |
| CommandLineRoundTrip.RoundTrip | src/app/application.cpp:138-249 | parsing what was serialized gives it back if and only if no text has a separator, save path and category have no trailing white space and the sources are non-empty, trimmed and not named like options; `=` may occur anywhere |
| CommandLineRoundTrip.LaterPartCounts | src/app/application.cpp:196-246 | of options given more than once the last one counts, and sources add up |
| CommandLineRoundTrip.NumberReads | src/app/application.cpp:209-213 | a switch reads as any 32-bit number it is given, and as 0 beyond that |
| ExternalProgram.ReplaceVariables | src/app/application.cpp:550-609 | the in-place replacement from right to left, with all its indices in range, is the reading of the template from left to right in which values are never read again |
| ExternalProgram.ReplaceSpecifier | src/app/application.cpp:557-602 | one specifier is replaced by its value, other characters are left |
| ExternalProgram.ExpandConcat | src/app/application.cpp:550-609 | templates expand piece by piece unless a pair lies across the border |
| ExternalProgram.DoubledPercent | src/app/application.cpp:604-605 | of two `%` before a specifier the first stays, whatever the value is |
| ExternalProgram.DocumentedParameters | src/gui/optionsdialog.cpp:690-704 | exactly the parameters the options dialog documents are replaced, each by what is documented |
| TorrentFileGuards.TorrentFileGuard.constructor | src/base/torrentfileguard.cpp:59-68 | a new guard would remove its file unless its mode is Never, and is not marked as added |
| TorrentFileGuards.TorrentFileGuard.MarkAsAddedToSession | src/base/torrentfileguard.cpp:76-79 | only the mark changes |
| TorrentFileGuards.TorrentFileGuard.SetAutoRemove | src/base/torrentfileguard.cpp:48-51 | only the flag changes |
| TorrentFileGuards.TorrentFileGuard.Destroy | src/base/torrentfileguard.cpp:53-74 | the file is removed exactly when the flag is still set, the mode allows it and it was added or the mode is Always |
| AddTorrent.GUIAddTorrentManager.AddTorrent | src/base/addtorrentmanager.cpp:54-100 | the new state for each kind of source and whether it was taken; a file that fails to load lets its guard go |
| AddTorrent.GUIAddTorrentManager.AddTorrentToSession | src/base/addtorrentmanager.cpp:102-110 | the source is remembered only if the session takes the torrent |
| AddTorrent.GUIAddTorrentManager.ProcessTorrent | src/base/addtorrentmanager.cpp:207-220 | a duplicate changes nothing |
| AddTorrent.GUIAddTorrentManager.OnDownloadFinished | src/base/addtorrentmanager.cpp:112-134 | the download is forgotten and its torrent processed if there is one |
| AddTorrent.GUIAddTorrentManager.OnSessionTorrentAdded | src/base/addtorrentmanager.cpp:136-145 | the guard of the reported source is marked and let go |
| AddTorrent.GUIAddTorrentManager.OnSessionAddTorrentFailed | src/base/addtorrentmanager.cpp:147-156 | the guard of the failed source is let go and its file kept |
| AddTorrent.GUIAddTorrentManager.SetTorrentFileGuard | src/base/addtorrentmanager.cpp:197-200 | the guard that was there before is let go |
| AddTorrent.GUIAddTorrentManager.ReleaseTorrentFileGuard | src/base/addtorrentmanager.cpp:202-205 | the guard leaves the table and no other guard does |
| AddTorrent.GUIAddTorrentManager.GuiAddTorrent | src/gui/guiaddtorrentmanager.cpp:96-153 | the new state with and without dialog and whether the source was taken; a file is guarded only if a dialog is open for its torrent |
| AddTorrent.GUIAddTorrentManager.GuiOnDownloadFinished | src/gui/guiaddtorrentmanager.cpp:155-177 | the download is forgotten and its torrent gets a dialog |
| AddTorrent.GUIAddTorrentManager.GuiProcessTorrent | src/gui/guiaddtorrentmanager.cpp:192-294 | one dialog per torrent, none for a duplicate |
| AddTorrent.GUIAddTorrentManager.OnDialogAccepted | src/gui/guiaddtorrentmanager.cpp:270-288 | the guard is let go only if the user wants to keep the file, and the torrent goes to the session |
| AddTorrent.GUIAddTorrentManager.OnDialogRejected | src/gui/guiaddtorrentmanager.cpp:281-288 | the guard is let go |
| AddTorrent.GUIAddTorrentManager.Destroy | src/gui/guiaddtorrentmanager.cpp:84-94 | all guards left in the table go with it, each once |
| AddTorrentLife.SourceIsRemembered | src/base/addtorrentmanager.cpp:102-134 | a torrent reaches the session, with its source remembered, if and only if it is not known and is accepted |
| AddTorrentLife.AddedFileIsReported | src/base/addtorrentmanager.cpp:87-145 | from every state: a file the session accepts is reported, its guard and no other ends as added, and the file is deleted unless the mode is Never |
| AddTorrentLife.AddedFileIsRefused | src/base/addtorrentmanager.cpp:147-156 | from every state: a file the session then refuses is kept and its guard ends |
| AddTorrentLife.HandedOverIsReported | src/base/addtorrentmanager.cpp:75-145 | from every state: a magnet link or a finished download that is accepted is reported, and frees what its source guarded |
| AddTorrentLife.DownloadOnce | src/base/addtorrentmanager.cpp:61-73 | a download is started once, with the parameters it was first asked for |
| AddTorrentLife.DownloadForgotten | src/base/addtorrentmanager.cpp:112-115 | a finished download is forgotten |
| AddTorrentLife.DialogOpens | src/gui/guiaddtorrentmanager.cpp:192-294 | a dialog opens exactly for a torrent without one that the session does not know |
| AddTorrentLife.AcceptedFileIsReported | src/gui/guiaddtorrentmanager.cpp:137-280 | from every state: a file accepted in its dialog and reported ends as added, and no other guard does |
| AddTorrentLife.AcceptedFileIsKept | src/gui/guiaddtorrentmanager.cpp:270-280 | accepted with "do not delete" the file is free at once and kept, and its torrent still goes to the session |
| AddTorrentLife.RejectedFileIsFree | src/gui/guiaddtorrentmanager.cpp:281-288 | a rejected file is free, deleted only in mode Always, and nothing goes to the session |
| AddTorrentLife.TakenMeans | src/base/addtorrentmanager.cpp:54-100 | the result is true if and only if the download is under way or the session got the torrent |
| AddTorrentLife.GuiTakenMeans | src/gui/guiaddtorrentmanager.cpp:96-153 | the result is true if and only if the download is under way or there is a dialog for the torrent |
| AddTorrentLife.NothingIsLeft | src/gui/guiaddtorrentmanager.cpp:84-94 | after the shutdown nothing is guarded and no dialog is open |
| AddTorrentRuns.StepJust | src/base/addtorrentmanager.cpp:54-220 | the guards in the table and those gone are, each with its source, file, torrent and mode, those before and the one the event makes; every guard that goes was treated as its mode and the cause demand |
| AddTorrentRuns.EveryDeletionIsJust | src/base/torrentfileguard.cpp:53-79 | over every run: the guards in the table and those gone are exactly the guards ever made, each once; a file is deleted if and only if its mode and the cause say so, never in mode Never, and in mode IfAdded only after the session reported a torrent from its source |
| AddTorrentRuns.UnloadableIsDeleted | src/base/addtorrentmanager.cpp:87-97 | a concrete run: in mode Always a file that does not load is deleted |
| AddTorrentRuns.DuplicateIsDeleted | src/gui/guiaddtorrentmanager.cpp:137-145 | a concrete run: with dialogs a duplicate is deleted |
| AddTorrentRuns.DuplicateWaits | src/base/addtorrentmanager.cpp:88-92 | a concrete run: without a dialog a duplicate is deleted at shutdown only |
| AddTorrentRuns.RejectedIsDeleted | src/gui/guiaddtorrentmanager.cpp:281-284 | a concrete run: a rejected file is deleted |
| AddTorrentRuns.ReportDeletes | src/base/addtorrentmanager.cpp:136-145 | a report deletes the guarded file of its source at once unless the mode is Never, and touches no other guard |
| AddTorrentOwnReports.ReportsEndTheirOwn | src/base/addtorrentmanager.cpp:136-145 | over every run in which the files keep their contents, each report ends only the guard of its own torrent |
| AddTorrentOwnReports.OtherTorrentExactly | src/base/addtorrentmanager.cpp:136-145 | after any run, a report ends the guard of its own torrent if and only if the file contained it when its source was last added in a way that guarded it |
| AddTorrentOwnReports.OtherTorrentsReportDeletes | src/base/addtorrentmanager.cpp:136-145 | a concrete run in which a report deletes the file of another torrent |
| Logger.Logger.AddMessage | src/base/logger.cpp:74-82 | the history grows by the message and the buffer holds its newest part, numbered |
| Logger.Logger.AddPeer | src/base/logger.cpp:84-92 | the same for peers |
| Logger.Logger.GetMessages | src/base/logger.cpp:94-108 | for every id: exactly the messages that are still held and newer, in order |
| Logger.Logger.GetPeers | src/base/logger.cpp:110-124 | the same for peers |
| Logger.GetNewer | src/base/logger.cpp:94-108 | the index arithmetic of the getters selects exactly the newer entries, for every id a caller may pass |
| Logger.LoadFromBuffer | src/base/logger.cpp:39-47 | the buffer without its first elements |
| Logger.PushKeepsNewest | src/base/logger.cpp:74-82 | pushing into the ring keeps the newest part of the history |
| Logger.NewerNumbered | src/base/logger.cpp:94-108 | the entries newer than an id are one end of the history |
| Logger.PollingReader | src/base/logger.cpp:74-108 | a reader that polls with its last id never gets an id twice or out of order, and misses nothing if and only if no more than the capacity is logged between two polls |
| FileLogNames.LogPathIs | src/app/filelogger.cpp:81-82 | the log's path in any folder is clean and ends with its name |
| FileLogNames.BackupText | src/app/filelogger.cpp:152-158 | the names that the rotation tries, as text; none of them is a log's own name |
| FileLogNames.BackupInjective | src/app/filelogger.cpp:152-158 | no two backups, of one log or of different ones, share a name |
| FileLogNames.UsedNamesBound | src/app/filelogger.cpp:154-158 | finitely many files cannot use up the names, so the search ends |
| FileLogger.FileLogger.constructor | src/app/filelogger.cpp:47-66 | the first path is opened and the messages so far are written to it |
| FileLogger.FileLogger.ChangePath | src/app/filelogger.cpp:73-86 | the folder in use changes nothing; else the old log is flushed and closed and the new one opened |
| FileLogger.FileLogger.AddLogMessage | src/app/filelogger.cpp:125-168 | nothing when the log is closed; else the line is written and either the log is rotated or the flush timer runs |
| FileLogger.FileLogger.FirstUnusedName | src/app/filelogger.cpp:151-158 | the first unused name of the sequence, for any set of files |
| FileLogger.FileLogger.FlushLog | src/app/filelogger.cpp:170-174 | what waits is in the file and the timer is over |
| FileLogger.FileLogger.OpenLogFile | src/app/filelogger.cpp:176-187 | an existing log is appended to, a missing one made; when it fails nothing changes |
| FileLogger.FileLogger.CloseLogFile | src/app/filelogger.cpp:189-193 | what waits is in the file, and the timer is stopped |
| FileLogger.RenamedKeeps | src/app/filelogger.cpp:160-161 | moving a log to an unused name moves its text to the end of its backups and touches no other log |
| FileLogger.AddedKeeps | src/app/filelogger.cpp:125-168 | a message adds its line to the open log's whole text and nothing to any other, rotation or not |
| FileLoggerRuns.NothingIsLost | src/app/filelogger.cpp:73-193 | over every run, whatever fails: backups in rotation order, the log file and what waits to be flushed are the first content and every line logged while it was open, in order; what waits has its timer running |
| FileLoggerRuns.NothingWaitsAfterFlush | src/app/filelogger.cpp:170-174 | over every run: once the flush timer has fired, all that was logged is in the backups and the log, and the timer is over |
| FileLoggerRuns.NeverOverwritten | src/app/filelogger.cpp:151-161 | no run changes or removes a backup, or any other file that is not a log |
| FileLoggerRuns.BackupsAreNumbered | src/app/filelogger.cpp:151-161 | without earlier backups and strangers' files of such names, the numbers of the backups are the order of their rotation, without gaps |
| FileLoggerRuns.RotatesExactly | src/app/filelogger.cpp:148-161 | the log is renamed by exactly the messages that find it full while backups are wanted, and only its own backups grow, by the first unused name |
| FileLoggerRuns.RotationMovesLog | src/app/filelogger.cpp:148-161 | the new backup holds the old log, what waited and the message, and the log is empty and open again |
| FileLoggerRuns.OtherMessageStays | src/app/filelogger.cpp:148-167 | any other message waits with the flush timer running, or is in the log when the rename failed |
| FileLoggerRuns.PathIsChanged | src/app/filelogger.cpp:73-86 | changing the folder opens the log there and leaves everything that waited in the old one |
| FileLoggerRuns.FolderOfLog | src/app/filelogger.cpp:73-86 | the folder of a log is found in its path if and only if it is not written as a dot |
| FileLoggerRuns.SameFolderAgain | src/app/filelogger.cpp:73-86 | choosing the folder in use once more changes nothing |
| FileLoggerRuns.LineReads | src/app/filelogger.cpp:129-146 | level and text of a message can be read from its line |
| FlowLayout.FlowLayout.AddItem | src/gui/flowlayout.cpp:59-62 | items keep the order in which they are added |
| FlowLayout.FlowLayout.DoLayout | src/gui/flowlayout.cpp:136-191 | the loop places every item as the plan says and returns its height; a test changes no geometry and returns the same height |
| FlowLayout.FlowLayout.ApplyItemsGeometry | src/gui/flowlayout.cpp:208-223 | the items of a line, and no others, get their aligned geometry |
| FlowLayout.FlowLayout.HeightForWidth | src/gui/flowlayout.cpp:108-112 | nothing moves |
| FlowLayout.FlowLayout.SetGeometry | src/gui/flowlayout.cpp:114-118 | every item gets its place |
| FlowLayout.LineHeightAt | src/gui/flowlayout.cpp:165-184 | all items of a line get the line's final height |
| FlowLayoutProperties.AlignedInLine | src/gui/flowlayout.cpp:215-221 | every alignment keeps an item inside its line: at its top, at its bottom, or in its middle up to one row |
| FlowLayoutProperties.ReadingOrder | src/gui/flowlayout.cpp:136-191 | of two items the later one is right of the earlier by its spacing, or below its line |
| FlowLayoutProperties.NoOverlap | src/gui/flowlayout.cpp:136-223 | no two placed rectangles overlap |
| FlowLayoutProperties.PenInArea | src/gui/flowlayout.cpp:142-173 | nothing is placed left of the area or above it |
| FlowLayoutProperties.FitsTheWidth | src/gui/flowlayout.cpp:165-178 | an item too wide for its place has only items without height before it on its line |
| FlowLayoutProperties.ExactFitBreaks | src/gui/flowlayout.cpp:165-178 | two items that fill the width exactly are put on two lines |
| FlowLayoutProperties.NextItem | src/gui/flowlayout.cpp:165-184 | the next item follows by exactly the spacing, or starts a new line below by its spacing exactly when it would be too wide and the line has a height |
| FlowLayoutProperties.HeightIsTight | src/gui/flowlayout.cpp:190-190 | the height is the lower end of the lowest item |
| FlowLayoutProperties.HeightForWidthHolds | src/gui/flowlayout.cpp:108-118 | the height promised for a width is the height needed wherever the layout is put |
| FlowLayoutProperties.WithinMargins | src/gui/flowlayout.cpp:138-178 | the first item is at the inner corner of the rectangle, and the others keep its margins, but for items too wide for their line |
| FlowLayoutProperties.HeightHasMargins | src/gui/flowlayout.cpp:138-190 | an empty layout needs its margins alone, any other at least these |
| FlowLayoutProperties.SpacingsUsed | src/gui/flowlayout.cpp:64-78 | which of the layout's, the parent's and the style's spacing is used |

## Left out

- FolderReportRuns.EndedAtMostOnce: does not cover a new file under the path of one that was removed, because the worker cannot tell them apart and rightly reports both.
- Inside QSettings, QFile, QTimer and QDir: a sync is one all-or-nothing write that merges, a rename needs a source and a free target (its fallback of copying is not modelled), timers fire once or repeatedly, and `cleanPath` and `relativeFilePath` follow their documentation.
- `QDir::cleanPath` above the root is taken to keep the `..`, on which its documentation is silent; a base without such `..` is covered either way.
- The file names of the settings, and QSettings errors other than a failed sync.
- Locks, signals to other components, translations, log texts about the operations, and wall-clock time.
- The files behind `load` and `store` of the watched folders. Removing found files and renaming rejected ones succeeds and is reported; within a retry pass such a file is then missing, and between slots a scan sees the tree given for it.
- Directory trees are finite and have no cycles through symbolic links, the answer whether a path is on a network file system is stable, and adding a path to QFileSystemWatcher succeeds and stays.
- Windows drive letters and case-insensitive comparison of paths.
- The database of file extensions in the content layout is an arbitrary function, and file priorities are not modelled.
- ContentLayout.LayoutRuns: does not cover renaming files between two changes of the layout, because a renamed list is a new list to restore.
- Logger.Logger.AddMessage: does not model the overflow of the 32-bit counter, because ids are meant to be unique.
- Logger.Logger.AddPeer: does not model the overflow of the 32-bit counter, for the same reason.
- AddTorrent.GUIAddTorrentManager.ProcessTorrent: does not model what a duplicate does to the existing torrent (metadata, trackers), because it touches no state of the manager.
- AddTorrent.GUIAddTorrentManager.GuiProcessTorrent: does not model it either, nor the message boxes.
- FileLogger.FileLogger.constructor: does not model `deleteOld`, because it removes backups by age on purpose.
- FlowLayout.FlowLayout.DoLayout: does not model the overflow of 32-bit coordinates or negative size hints, and an item is in the list once.
- FileLogger.FileLogger.AddLogMessage: takes the answer whether the maximum size is reached as an input, because it depends on the encoding; QFile writing a full buffer before the flush and failing writes are not modelled.
- Other programs may create files beside a log but not under a log's own name.
- What a source parses or loads to, what the session knows and accepts and what the user chooses in the dialogs and message boxes are inputs; metadata updates, merging of trackers and the download manager are not modelled.
- The fields of the command line that are not serialized.
- Widgets, menus, the main window, preferences, settings upgrades and the Windows search integration, which would add only simple members.
