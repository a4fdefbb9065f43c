/** Runs of the worker's slots: which folders are watched how, and what becomes of broken files. */
module FolderRuns {
  import opened Strings
  import opened Paths
  import opened Algorithm
  import opened FolderWalk
  import opened FolderWorker

  /** The slots of the worker, with the answers they get from outside. */
  datatype Slot =
    | SetSlot(path: string, options: Options)
    | RemoveSlot(path: string)
    | PollSlot(order: seq<string>, trees: string -> Folder)
    | ScheduledSlot(path: string, tree: Folder)
    | DirectoryChangedSlot(path: string)
    | RetrySlot(order: seq<string>, statuses: string -> FileStatus)

  lemma SomeOrder(paths: set<string>)
    ensures exists order :: IsOrder(order, paths)
  {
    var order: seq<string>, left := [], paths;
    while left != {}
      invariant left <= paths && Distinct(order) && forall path :: path in order <==> path in paths && path !in left
      decreases left
    {
      var path :| path in left;
      order, left := order + [path], left - {path};
    }
    assert IsOrder(order, paths);
  }

  /** A hash is gone through in some order; one that does not fit stands for any that does. */
  ghost function Fitting(order: seq<string>, paths: set<string>): (o: seq<string>)
    ensures IsOrder(o, paths)
  {
    if IsOrder(order, paths) then order
    else
      SomeOrder(paths);
      var o :| IsOrder(o, paths);
      o
  }

  /** A timer slot runs only when its timer is active. */
  ghost function StepSlot(s: State, slot: Slot, setup: Setup): State {
    match slot
    case SetSlot(path, options) => FolderSet(s, path, options, setup)
    case RemoveSlot(path) => FolderRemoved(s, path)
    case PollSlot(order, trees) => if s.watchTimer then ScannedAll(s, Fitting(order, s.polled), trees, setup) else s
    case ScheduledSlot(path, tree) =>
      if path in s.scheduled then Scanned(s.(scheduled := s.scheduled - multiset{path}), path, tree, setup) else s
    case DirectoryChangedSlot(path) => Scheduled(s, path)
    case RetrySlot(order, statuses) => if s.retryTimer then Retried(s, Fitting(order, s.failed.Keys), statuses) else s
  }

  ghost function RunSlots(s: State, slots: seq<Slot>, setup: Setup): State
    decreases |slots|
  {
    if |slots| == 0 then s else RunSlots(StepSlot(s, slots[0], setup), slots[1..], setup)
  }

  // ----- The invariant between slots -----

  predicate CountersInRange(t: FailedTable) {
    forall folder :: folder in t ==> t[folder] != map[] && forall file :: file in t[folder] ==> t[folder][file] <= MAX_FAILED_RETRIES
  }

  /**
    The polled folders and those of the directory watcher partition the watched folders; a folder is
    polled exactly when it is recursive or on a network file system; the poll timer runs exactly when
    there is a polled folder, the retry timer exactly when a failure is recorded; no folder has an
    empty failure table and every counter is within its range.
  */
  predicate Inv(s: State, setup: Setup) {
    && s.polled !! s.notified && s.polled + s.notified == s.watched.Keys
    && (forall path :: path in s.watched ==> (path in s.polled <==> s.watched[path].recursive || setup.isNetwork(path)))
    && (s.watchTimer <==> s.polled != {})
    && (s.retryTimer <==> s.failed != map[])
    && CountersInRange(s.failed)
  }

  lemma RecordInRange(t: FailedTable, folder: string, file: string)
    requires CountersInRange(t)
    ensures CountersInRange(Record(t, folder, file))
  {
  }

  lemma {:induction false} FilesInRange(o: Outcome, folder: string, v: Visit, i: nat, params: AddTorrentParams)
    requires i <= |v.folder.files| && CountersInRange(o.failed)
    ensures CountersInRange(FilesHandled(o, folder, v, i, params).failed)
    decreases |v.folder.files| - i
  {
    if i < |v.folder.files| {
      RecordInRange(o.failed, folder, Append(v.path, v.folder.files[i].name));
      FilesInRange(FileHandled(o, folder, v.path, v.folder.files[i], params), folder, v, i + 1, params);
    }
  }

  lemma {:induction false} VisitsInRange(o: Outcome, folder: string, p: AddTorrentParams, visits: seq<Visit>, setup: Setup)
    requires CountersInRange(o.failed)
    ensures CountersInRange(VisitsHandled(o, folder, p, visits, setup).failed)
    decreases |visits|
  {
    if |visits| > 0 {
      FilesInRange(o, folder, visits[0], 0, ScanParams(folder, visits[0].path, p, setup));
      VisitsInRange(VisitHandled(o, folder, p, visits[0], setup), folder, p, visits[1..], setup);
    }
  }

  lemma FolderRetriedInRange(p: Pass, folder: string, statuses: string -> FileStatus)
    requires CountersInRange(p.failed)
    ensures CountersInRange(FolderRetried(p, folder, statuses).failed)
  {
  }

  lemma {:induction false} RetryInRange(t: FailedTable, order: seq<string>, statuses: string -> FileStatus)
    requires CountersInRange(t)
    ensures CountersInRange(PassMade(t, order, statuses).failed)
    decreases |order|
  {
    if |order| > 0 {
      RetryInRange(t, order[..|order| - 1], statuses);
      FolderRetriedInRange(PassMade(t, order[..|order| - 1], statuses), order[|order| - 1], statuses);
    }
  }

  /** A scan changes nothing but the failures and starts the retry timer for them. */
  lemma ScannedInv(s: State, path: string, tree: Folder, setup: Setup)
    requires Inv(s, setup)
    ensures Inv(Scanned(s, path, tree, setup), setup)
    ensures Scanned(s, path, tree, setup).polled == s.polled && Scanned(s, path, tree, setup).watched == s.watched
  {
    var o := Outcome(s.failed, [], []);
    VisitsInRange(o, path, OptionsOf(s, path).addTorrentParams, ScanVisits(s, path, tree), setup);
    ScanKeepsFailures(s, path, tree, setup);
  }

  lemma {:induction false} ScannedAllInv(s: State, order: seq<string>, trees: string -> Folder, setup: Setup)
    requires Inv(s, setup)
    ensures Inv(ScannedAll(s, order, trees, setup), setup)
    decreases |order|
  {
    if |order| > 0 {
      ScannedInv(s, order[0], trees(order[0]), setup);
      ScannedAllInv(Scanned(s, order[0], trees(order[0]), setup), order[1..], trees, setup);
    }
  }

  lemma FolderAddedInv(s: State, path: string, options: Options, setup: Setup)
    requires Inv(s, setup) && path !in s.watched
    ensures Inv(FolderAdded(s, path, options, setup), setup)
  {
  }

  lemma FolderUpdatedInv(s: State, path: string, options: Options, setup: Setup)
    requires Inv(s, setup) && path in s.watched
    ensures Inv(FolderUpdated(s, path, options, setup), setup)
  {
  }

  /** Setting a folder touches no failure. */
  lemma FolderSetParts(s: State, path: string, options: Options, setup: Setup)
    ensures FolderSet(s, path, options, setup).watched == s.watched[path := options]
    ensures FolderSet(s, path, options, setup).failed == s.failed && FolderSet(s, path, options, setup).retryTimer == s.retryTimer
  {
  }

  lemma FolderSetInv(s: State, path: string, options: Options, setup: Setup)
    requires Inv(s, setup)
    ensures Inv(FolderSet(s, path, options, setup), setup)
  {
    if path in s.watched {
      FolderUpdatedInv(s, path, options, setup);
    } else {
      FolderAddedInv(s, path, options, setup);
    }
  }

  /** A folder that comes to be notified of changes is scanned once for a start, any other pending scan stays as it is. */
  lemma NewlyNotifiedIsScheduled(s: State, path: string, options: Options, setup: Setup)
    requires Inv(s, setup)
    ensures
      var t := FolderSet(s, path, options, setup);
      && t.notified - s.notified <= {path}
      && t.scheduled == s.scheduled + if path in t.notified && path !in s.notified then multiset{path} else multiset{}
  {
  }

  /** The scans that a slot puts off: one for a folder that comes to be notified of changes, and one for a folder that changed. */
  function PutsOff(s: State, slot: Slot, setup: Setup): multiset<string> {
    match slot
    case SetSlot(path, options) =>
      if path !in s.notified && !options.recursive && !setup.isNetwork(path) then multiset{path} else multiset{}
    case DirectoryChangedSlot(path) => multiset{path}
    case _ => multiset{}
  }

  lemma SetPutsOff(s: State, path: string, options: Options, setup: Setup)
    requires Inv(s, setup)
    ensures FolderSet(s, path, options, setup).scheduled == s.scheduled + PutsOff(s, SetSlot(path, options), setup)
  {
    NewlyNotifiedIsScheduled(s, path, options, setup);
  }

  lemma OthersPutOff(s: State, slot: Slot, setup: Setup)
    requires !slot.SetSlot? && !slot.ScheduledSlot?
    ensures StepSlot(s, slot, setup).scheduled == s.scheduled + PutsOff(s, slot, setup)
  {
    if slot.PollSlot? {
      ScannedAllKeepsFolders(s, Fitting(slot.order, s.polled), slot.trees, setup);
    }
  }

  /** Every scan that is put off stays pending until it is made, also when its folder is set again, polled or removed. */
  lemma PendingExactly(s: State, slot: Slot, setup: Setup)
    requires Inv(s, setup)
    ensures StepSlot(s, slot, setup).scheduled
            == s.scheduled + PutsOff(s, slot, setup) - if slot.ScheduledSlot? then multiset{slot.path} else multiset{}
  {
    if slot.SetSlot? {
      SetPutsOff(s, slot.path, slot.options, setup);
    } else if !slot.ScheduledSlot? {
      OthersPutOff(s, slot, setup);
    }
  }

  lemma FolderRemovedInv(s: State, path: string, setup: Setup)
    requires Inv(s, setup)
    ensures Inv(FolderRemoved(s, path), setup)
  {
  }

  lemma StepKeepsInv(s: State, slot: Slot, setup: Setup)
    requires Inv(s, setup)
    ensures Inv(StepSlot(s, slot, setup), setup)
  {
    match slot
    case SetSlot(path, options) => FolderSetInv(s, path, options, setup);
    case RemoveSlot(path) => FolderRemovedInv(s, path, setup);
    case PollSlot(order, trees) => ScannedAllInv(s, Fitting(order, s.polled), trees, setup);
    case ScheduledSlot(path, tree) => ScannedInv(s.(scheduled := s.scheduled - multiset{path}), path, tree, setup);
    case DirectoryChangedSlot(path) =>
    case RetrySlot(order, statuses) => RetryInRange(s.failed, Fitting(order, s.failed.Keys), statuses);
  }

  lemma {:induction false} RunKeepsInv(s: State, slots: seq<Slot>, setup: Setup)
    requires Inv(s, setup)
    ensures Inv(RunSlots(s, slots, setup), setup)
    decreases |slots|
  {
    if |slots| > 0 {
      StepKeepsInv(s, slots[0], setup);
      RunKeepsInv(StepSlot(s, slots[0], setup), slots[1..], setup);
    }
  }

  // ----- The counter of one broken file -----

  function Count(t: FailedTable, folder: string, file: string): Option<nat> {
    if folder in t && file in t[folder] then Some(t[folder][file]) else None
  }

  /** Every recorded counter of `t` is the same in `u`, and new ones begin with 0. */
  ghost predicate KeepsCounts(t: FailedTable, u: FailedTable) {
    forall folder, file :: Count(u, folder, file) == Count(t, folder, file)
                           || (Count(t, folder, file).None? && Count(u, folder, file) == Some(0))
  }

  lemma {:induction false} FilesKeepCounts(o: Outcome, folder: string, v: Visit, i: nat, params: AddTorrentParams)
    requires i <= |v.folder.files|
    ensures KeepsCounts(o.failed, FilesHandled(o, folder, v, i, params).failed)
    decreases |v.folder.files| - i
  {
    if i < |v.folder.files| {
      FilesKeepCounts(FileHandled(o, folder, v.path, v.folder.files[i], params), folder, v, i + 1, params);
      assert KeepsCounts(o.failed, FileHandled(o, folder, v.path, v.folder.files[i], params).failed);
    }
  }

  lemma {:induction false} VisitsKeepCounts(o: Outcome, folder: string, p: AddTorrentParams, visits: seq<Visit>, setup: Setup)
    ensures KeepsCounts(o.failed, VisitsHandled(o, folder, p, visits, setup).failed)
    decreases |visits|
  {
    if |visits| > 0 {
      FilesKeepCounts(o, folder, visits[0], 0, ScanParams(folder, visits[0].path, p, setup));
      VisitsKeepCounts(VisitHandled(o, folder, p, visits[0], setup), folder, p, visits[1..], setup);
    }
  }

  /** Rescanning never resets a counter. */
  lemma ScanKeepsCounts(s: State, path: string, tree: Folder, setup: Setup)
    ensures KeepsCounts(s.failed, Scanned(s, path, tree, setup).failed)
  {
    VisitsKeepCounts(Outcome(s.failed, [], []), path, OptionsOf(s, path).addTorrentParams, ScanVisits(s, path, tree), setup);
  }

  lemma ScanKeepsFailures(s: State, path: string, tree: Folder, setup: Setup)
    requires CountersInRange(s.failed)
    ensures s.failed != map[] ==> Scanned(s, path, tree, setup).failed != map[]
  {
    ScanKeepsCounts(s, path, tree, setup);
    if s.failed != map[] {
      var folder :| folder in s.failed;
      var file :| file in s.failed[folder];
      assert Count(s.failed, folder, file).Some?;
    }
  }

  lemma {:induction false} ScannedAllKeepsCounts(s: State, order: seq<string>, trees: string -> Folder, setup: Setup)
    ensures KeepsCounts(s.failed, ScannedAll(s, order, trees, setup).failed)
    decreases |order|
  {
    if |order| > 0 {
      ScanKeepsCounts(s, order[0], trees(order[0]), setup);
      ScannedAllKeepsCounts(Scanned(s, order[0], trees(order[0]), setup), order[1..], trees, setup);
    }
  }

  /** The file was removed or renamed under one of the first i folders. */
  ghost predicate GoneBefore(t: FailedTable, order: seq<string>, statuses: string -> FileStatus, i: nat, file: string)
    requires i <= |order|
  {
    exists j :: 0 <= j < i && (Recovers(t, statuses, order[j], file) || Rejects(t, statuses, order[j], file))
  }

  lemma FolderRetriedCount(p: Pass, folder: string, statuses: string -> FileStatus, file: string)
    ensures Count(FolderRetried(p, folder, statuses).failed, folder, file)
            == match Count(p.failed, folder, file)
               case None => None
               case Some(n) => RetryEntry(Now(p.gone, statuses)(file), n)
  {
    if folder in p.failed {
      var left := RetryFolder(p.failed[folder], Now(p.gone, statuses));
      assert file in left ==> left != map[];
    }
  }

  lemma FolderRetriedOthers(p: Pass, folder: string, statuses: string -> FileStatus, other: string, file: string)
    requires other != folder
    ensures Count(FolderRetried(p, folder, statuses).failed, other, file) == Count(p.failed, other, file)
  {
  }

  /** What a retry pass does to each counter: a file that is gone under an earlier folder loses its later entries. */
  lemma {:induction false} RetryCounts(t: FailedTable, order: seq<string>, statuses: string -> FileStatus, i: nat, file: string)
    requires Distinct(order) && i < |order|
    ensures Count(PassMade(t, order, statuses).failed, order[i], file)
            == match Count(t, order[i], file)
               case None => None
               case Some(n) => if GoneBefore(t, order, statuses, i, file) then None else RetryEntry(statuses(file), n)
    decreases |order|
  {
    var m := |order| - 1;
    var before := order[..m];
    var p := PassMade(t, before, statuses);
    if i < m {
      RetryCounts(t, before, statuses, i, file);
      FolderRetriedOthers(p, order[m], statuses, order[i], file);
      assert GoneBefore(t, before, statuses, i, file) <==> GoneBefore(t, order, statuses, i, file);
    } else {
      PassUnderWay(t, before, statuses, order[m], file);
      FolderRetriedCount(p, order[m], statuses, file);
      assert file in p.gone <==> GoneBefore(t, order, statuses, m, file);
    }
  }

  /** A counter after a pass: what it was before, whether the file is gone earlier or not. */
  lemma RetriedCount(t: FailedTable, order: seq<string>, statuses: string -> FileStatus, folder: string, file: string)
    requires IsOrder(order, t.Keys)
    ensures var n, m := Count(t, folder, file), Count(PassMade(t, order, statuses).failed, folder, file);
      && (m.Some? ==> n.Some? && m == RetryEntry(statuses(file), n.value))
      && ((n.Some? && forall g :: !Recovers(t, statuses, g, file) && !Rejects(t, statuses, g, file))
          ==> m == RetryEntry(statuses(file), n.value))
  {
    if folder in order {
      var i :| 0 <= i < |order| && order[i] == folder;
      RetryCounts(t, order, statuses, i, file);
    } else {
      PassUnderWay(t, order, statuses, folder, file);
    }
  }

  function Retries(slots: seq<Slot>): nat {
    if |slots| == 0 then 0 else (if slots[0].RetrySlot? then 1 else 0) + Retries(slots[1..])
  }

  /** The folder stays set, and a retry finds the file broken. */
  predicate SlotFails(slot: Slot, folder: string, file: string) {
    (slot.RemoveSlot? ==> slot.path != folder) && (slot.RetrySlot? ==> slot.statuses(file).Broken?)
  }

  predicate KeepsFailing(slots: seq<Slot>, folder: string, file: string) {
    forall k :: 0 <= k < |slots| ==> SlotFails(slots[k], folder, file)
  }

  /** The file has this counter under the folder, and none that is higher under another one. */
  ghost predicate Highest(t: FailedTable, folder: string, file: string, n: nat) {
    Count(t, folder, file) == Some(n) && forall g :: Count(t, g, file).Some? ==> Count(t, g, file).value <= n
  }

  lemma KeptHighest(t: FailedTable, u: FailedTable, folder: string, file: string, n: nat)
    requires Highest(t, folder, file, n) && KeepsCounts(t, u)
    ensures Highest(u, folder, file, n)
  {
    assert Count(u, folder, file) == Count(t, folder, file);
    forall g | Count(u, g, file).Some? ensures Count(u, g, file).value <= n {
      assert Count(u, g, file) == Count(t, g, file) || Count(u, g, file) == Some(0);
    }
  }

  /** All slots but a retry keep the counter. */
  lemma StepKeepsCount(s: State, slot: Slot, setup: Setup, folder: string, file: string, n: nat)
    requires SlotFails(slot, folder, file) && !slot.RetrySlot? && Highest(s.failed, folder, file, n)
    ensures Highest(StepSlot(s, slot, setup).failed, folder, file, n)
  {
    match slot
    case SetSlot(path, options) => FolderSetParts(s, path, options, setup);
    case RemoveSlot(path) =>
      assert forall g :: Count(s.failed - {path}, g, file).Some? ==> Count(s.failed - {path}, g, file) == Count(s.failed, g, file);
    case PollSlot(order, trees) =>
      if s.watchTimer {
        ScannedAllKeepsCounts(s, Fitting(order, s.polled), trees, setup);
        KeptHighest(s.failed, StepSlot(s, slot, setup).failed, folder, file, n);
      }
    case ScheduledSlot(path, tree) =>
      if path in s.scheduled {
        ScanKeepsCounts(s.(scheduled := s.scheduled - multiset{path}), path, tree, setup);
        KeptHighest(s.failed, StepSlot(s, slot, setup).failed, folder, file, n);
      }
    case DirectoryChangedSlot(path) =>
  }

  lemma RetryRaisesCount(t: FailedTable, order: seq<string>, statuses: string -> FileStatus, folder: string, file: string, n: nat)
    requires IsOrder(order, t.Keys) && statuses(file).Broken? && Highest(t, folder, file, n) && n < MAX_FAILED_RETRIES
    ensures Highest(PassMade(t, order, statuses).failed, folder, file, n + 1)
  {
    var u := PassMade(t, order, statuses).failed;
    forall g ensures !Recovers(t, statuses, g, file) && !Rejects(t, statuses, g, file) {
      assert Count(t, g, file).Some? ==> Count(t, g, file).value <= n;
    }
    RetriedCount(t, order, statuses, folder, file);
    forall g | Count(u, g, file).Some? ensures Count(u, g, file).value <= n + 1 {
      RetriedCount(t, order, statuses, g, file);
    }
  }

  /** While an entry is left, the retry timer goes on. */
  lemma StepKeepsTimer(s: State, slot: Slot, setup: Setup)
    requires s.retryTimer && StepSlot(s, slot, setup).failed != map[]
    ensures StepSlot(s, slot, setup).retryTimer
  {
    if slot.PollSlot? && s.watchTimer {
      ScannedAllKeepsTimer(s, Fitting(slot.order, s.polled), slot.trees, setup);
    }
  }

  lemma {:induction false} ScannedAllKeepsTimer(s: State, order: seq<string>, trees: string -> Folder, setup: Setup)
    requires s.retryTimer
    ensures ScannedAll(s, order, trees, setup).retryTimer
    decreases |order|
  {
    if |order| > 0 {
      ScannedAllKeepsTimer(Scanned(s, order[0], trees(order[0]), setup), order[1..], trees, setup);
    }
  }

  /** The file has this counter as its highest one and the retry timer is active. */
  ghost predicate Waits(s: State, folder: string, file: string, n: nat) {
    s.retryTimer && Highest(s.failed, folder, file, n)
  }

  function After(n: nat, slot: Slot): nat {
    if slot.RetrySlot? then n + 1 else n
  }

  lemma StepCounts(s: State, slot: Slot, setup: Setup, folder: string, file: string, n: nat)
    requires SlotFails(slot, folder, file) && Waits(s, folder, file, n) && (slot.RetrySlot? ==> n < MAX_FAILED_RETRIES)
    ensures Waits(StepSlot(s, slot, setup), folder, file, After(n, slot))
  {
    if slot.RetrySlot? {
      RetryRaisesCount(s.failed, Fitting(slot.order, s.failed.Keys), slot.statuses, folder, file, n);
    } else {
      StepKeepsCount(s, slot, setup, folder, file, n);
    }
    assert Count(StepSlot(s, slot, setup).failed, folder, file).Some?;
    StepKeepsTimer(s, slot, setup);
  }

  lemma RetriesFirst(slots: seq<Slot>, n: nat)
    requires |slots| > 0
    ensures After(n, slots[0]) + Retries(slots[1..]) == n + Retries(slots)
  {
  }

  /** Over any slots the highest counter of a failing file counts the retry passes, whatever is scanned in between. */
  lemma {:induction false} FailingFileCounts(s: State, slots: seq<Slot>, setup: Setup, folder: string, file: string, n: nat)
    requires KeepsFailing(slots, folder, file) && Waits(s, folder, file, n) && n + Retries(slots) <= MAX_FAILED_RETRIES
    ensures Waits(RunSlots(s, slots, setup), folder, file, n + Retries(slots))
    decreases |slots|
  {
    if |slots| > 0 {
      var slot, rest := slots[0], slots[1..];
      assert KeepsFailing(rest, folder, file) && SlotFails(slot, folder, file);
      RetriesFirst(slots, n);
      StepCounts(s, slot, setup, folder, file, n);
      FailingFileCounts(StepSlot(s, slot, setup), rest, setup, folder, file, After(n, slot));
    }
  }

  /**
    A file that was just recorded and keeps failing is rejected by exactly the sixth retry pass: the
    pass after the given slots uses up its retries, and drops its entry, if and only if five passes
    went before. The folder is one under which the file was recorded first.
  */
  lemma RejectedOnSixthPass(s: State, slots: seq<Slot>, setup: Setup, folder: string, file: string, order: seq<string>, statuses: string -> FileStatus)
    requires Inv(s, setup) && KeepsFailing(slots, folder, file) && statuses(file).Broken?
    requires Highest(s.failed, folder, file, 0) && Retries(slots) <= MAX_FAILED_RETRIES
    ensures var t := RunSlots(s, slots, setup);
      && t.retryTimer
      && (Rejects(t.failed, statuses, folder, file) <==> Retries(slots) == 5)
      && (IsOrder(order, t.failed.Keys) ==>
            (Count(Retried(t, order, statuses).failed, folder, file) == None <==> Retries(slots) == 5))
  {
    FailingFileCounts(s, slots, setup, folder, file, 0);
    var t := RunSlots(s, slots, setup);
    if IsOrder(order, t.failed.Keys) {
      RetriedCount(t.failed, order, statuses, folder, file);
      if Retries(slots) < 5 {
        RetryRaisesCount(t.failed, order, statuses, folder, file, Retries(slots));
      }
    }
  }

  // ----- The table empties -----

  /** A slot either ends an entry, or keeps its counter, or raises it by a retry. */
  lemma StepOfEntry(s: State, slot: Slot, setup: Setup, folder: string, file: string)
    requires Inv(s, setup) && Count(s.failed, folder, file).Some?
    ensures var n, m := Count(s.failed, folder, file), Count(StepSlot(s, slot, setup).failed, folder, file);
      m == None || m == Some(After(n.value, slot))
  {
    match slot
    case SetSlot(path, options) => FolderSetParts(s, path, options, setup);
    case RemoveSlot(path) =>
    case PollSlot(order, trees) =>
      if s.watchTimer {
        ScannedAllKeepsCounts(s, Fitting(order, s.polled), trees, setup);
      }
    case ScheduledSlot(path, tree) =>
      if path in s.scheduled {
        ScanKeepsCounts(s.(scheduled := s.scheduled - multiset{path}), path, tree, setup);
      }
    case DirectoryChangedSlot(path) =>
    case RetrySlot(order, statuses) => RetriedCount(s.failed, Fitting(order, s.failed.Keys), statuses, folder, file);
  }

  /**
    Every recorded entry ends: somewhere in any run, whatever is scanned, set or removed in it, that
    has more retry passes than its counter leaves, the entry is gone.
  */
  lemma {:induction false} EntryEnds(s: State, slots: seq<Slot>, setup: Setup, folder: string, file: string, n: nat) returns (k: nat)
    requires Inv(s, setup) && Count(s.failed, folder, file) == Some(n) && n + Retries(slots) > MAX_FAILED_RETRIES
    ensures k <= |slots| && Count(RunSlots(s, slots[..k], setup).failed, folder, file) == None
    decreases |slots|
  {
    assert n == s.failed[folder][file] <= MAX_FAILED_RETRIES;
    if |slots| > 0 {
      var slot, rest := slots[0], slots[1..];
      var next := StepSlot(s, slot, setup);
      StepOfEntry(s, slot, setup, folder, file);
      if Count(next.failed, folder, file) == None {
        k := 1;
        assert slots[..1] == [slot] && [slot][1..] == [];
        assert RunSlots(next, [], setup) == next;
      } else {
        StepKeepsInv(s, slot, setup);
        RetriesFirst(slots, n);
        var i := EntryEnds(next, rest, setup, folder, file, After(n, slot));
        k := i + 1;
        assert slots[..k][1..] == rest[..i] && slots[..k][0] == slot;
      }
    }
  }

  /** The slot leaves no file recorded that was not recorded before; it may scan, and drop entries. */
  ghost predicate RecordsNothingNew(s: State, slot: Slot, setup: Setup) {
    forall folder, file :: Count(StepSlot(s, slot, setup).failed, folder, file).Some? ==> Count(s.failed, folder, file).Some?
  }

  ghost predicate NothingNew(s: State, slots: seq<Slot>, setup: Setup)
    decreases |slots|
  {
    |slots| == 0 || (RecordsNothingNew(s, slots[0], setup) && NothingNew(StepSlot(s, slots[0], setup), slots[1..], setup))
  }

  ghost predicate CountsAtLeast(t: FailedTable, n: nat) {
    forall folder, file :: Count(t, folder, file).Some? ==> Count(t, folder, file).value >= n
  }

  lemma StepRaises(s: State, slot: Slot, setup: Setup, n: nat)
    requires Inv(s, setup) && RecordsNothingNew(s, slot, setup) && CountsAtLeast(s.failed, n)
    ensures CountsAtLeast(StepSlot(s, slot, setup).failed, After(n, slot))
  {
    var u := StepSlot(s, slot, setup).failed;
    forall folder, file | Count(u, folder, file).Some? ensures Count(u, folder, file).value >= After(n, slot) {
      StepOfEntry(s, slot, setup, folder, file);
    }
  }

  lemma {:induction false} CountsRise(s: State, slots: seq<Slot>, setup: Setup, n: nat)
    requires Inv(s, setup) && NothingNew(s, slots, setup) && CountsAtLeast(s.failed, n)
    ensures CountsAtLeast(RunSlots(s, slots, setup).failed, n + Retries(slots))
    decreases |slots|
  {
    if |slots| > 0 {
      StepKeepsInv(s, slots[0], setup);
      StepRaises(s, slots[0], setup, n);
      RetriesFirst(slots, n);
      CountsRise(StepSlot(s, slots[0], setup), slots[1..], setup, After(n, slots[0]));
    }
  }

  /** When nothing new is recorded, six retry passes empty the table and stop the timer, whatever is scanned in between. */
  lemma TableEmpties(s: State, slots: seq<Slot>, setup: Setup)
    requires Inv(s, setup) && NothingNew(s, slots, setup) && Retries(slots) > MAX_FAILED_RETRIES
    ensures RunSlots(s, slots, setup).failed == map[] && !RunSlots(s, slots, setup).retryTimer
  {
    CountsRise(s, slots, setup, 0);
    RunKeepsInv(s, slots, setup);
    if RunSlots(s, slots, setup).failed != map[] {
      LeftCount(RunSlots(s, slots, setup).failed, Retries(slots));
    }
  }

  lemma LeftCount(t: FailedTable, n: nat)
    requires CountersInRange(t) && CountsAtLeast(t, n) && t != map[]
    ensures n <= MAX_FAILED_RETRIES
  {
    var folder :| folder in t;
    var file :| file in t[folder];
    assert n <= Count(t, folder, file).value;
  }
}
