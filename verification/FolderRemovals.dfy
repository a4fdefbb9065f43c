/** Failures recorded for folders that are no longer watched: a pending scan outlives the removal of its folder. */
module FolderRemovals {
  import opened Strings
  import opened Paths
  import opened FolderWalk
  import opened FolderWorker
  import opened FolderRuns

  predicate FailuresWatched(s: State) {
    s.failed.Keys <= s.watched.Keys
  }

  predicate AnyBroken(files: seq<Entry>, i: nat)
    requires i <= |files|
    decreases |files| - i
  {
    i < |files| && (IsBroken(files[i]) || AnyBroken(files, i + 1))
  }

  lemma {:induction false} AnyBrokenIs(files: seq<Entry>, i: nat)
    requires i <= |files|
    ensures AnyBroken(files, i) <==> exists k :: i <= k < |files| && IsBroken(files[k])
    decreases |files| - i
  {
    if i < |files| {
      AnyBrokenIs(files, i + 1);
    }
  }

  lemma {:induction false} FilesRecord(o: Outcome, folder: string, v: Visit, i: nat, params: AddTorrentParams)
    requires i <= |v.folder.files|
    ensures FilesHandled(o, folder, v, i, params).failed.Keys
            == o.failed.Keys + if AnyBroken(v.folder.files, i) then {folder} else {}
    decreases |v.folder.files| - i
  {
    if i < |v.folder.files| {
      FilesRecord(FileHandled(o, folder, v.path, v.folder.files[i], params), folder, v, i + 1, params);
      var file := Append(v.path, v.folder.files[i].name);
      assert Record(o.failed, folder, file).Keys == o.failed.Keys + {folder};
    }
  }

  lemma {:induction false} VisitsRecord(o: Outcome, folder: string, p: AddTorrentParams, visits: seq<Visit>, setup: Setup)
    ensures VisitsHandled(o, folder, p, visits, setup).failed.Keys <= o.failed.Keys + {folder}
    decreases |visits|
  {
    if |visits| > 0 {
      FilesRecord(o, folder, visits[0], 0, ScanParams(folder, visits[0].path, p, setup));
      VisitsRecord(VisitHandled(o, folder, p, visits[0], setup), folder, p, visits[1..], setup);
    }
  }

  lemma WatchedScan(s: State, path: string, tree: Folder, setup: Setup)
    requires FailuresWatched(s) && path in s.watched
    ensures FailuresWatched(Scanned(s, path, tree, setup))
  {
    VisitsRecord(Outcome(s.failed, [], []), path, OptionsOf(s, path).addTorrentParams, ScanVisits(s, path, tree), setup);
  }

  lemma {:induction false} WatchedScans(s: State, order: seq<string>, trees: string -> Folder, setup: Setup)
    requires FailuresWatched(s) && forall path :: path in order ==> path in s.watched
    ensures FailuresWatched(ScannedAll(s, order, trees, setup))
    decreases |order|
  {
    if |order| > 0 {
      WatchedScan(s, order[0], trees(order[0]), setup);
      WatchedScans(Scanned(s, order[0], trees(order[0]), setup), order[1..], trees, setup);
    }
  }

  /** A folder that is not watched is scanned with the default options, so only the files directly in it count. */
  lemma UnwatchedScan(s: State, path: string, tree: Folder, setup: Setup)
    requires FailuresWatched(s) && path !in s.watched
    ensures FailuresWatched(Scanned(s, path, tree, setup)) <==> forall k :: 0 <= k < |tree.files| ==> !IsBroken(tree.files[k])
  {
    var o, p := Outcome(s.failed, [], []), DEFAULT_OPTIONS.addTorrentParams;
    assert ScanVisits(s, path, tree) == [Visit(path, tree)];
    VisitsHandledOne(o, path, p, Visit(path, tree), setup);
    FilesRecord(o, path, Visit(path, tree), 0, ScanParams(path, path, p, setup));
    AnyBrokenIs(tree.files, 0);
  }

  lemma {:induction false} PassKeys(t: FailedTable, order: seq<string>, statuses: string -> FileStatus)
    ensures PassMade(t, order, statuses).failed.Keys <= t.Keys
    decreases |order|
  {
    if |order| > 0 {
      PassKeys(t, order[..|order| - 1], statuses);
    }
  }

  /** A pending scan of a folder that was removed meanwhile finds a broken file. */
  ghost predicate FindsStale(s: State, slot: Slot) {
    && slot.ScheduledSlot? && slot.path in s.scheduled && slot.path !in s.watched
    && exists k :: 0 <= k < |slot.tree.files| && IsBroken(slot.tree.files[k])
  }

  /** Failures are recorded under a folder that is not watched by exactly such a scan. */
  lemma StaleExactly(s: State, slot: Slot, setup: Setup)
    requires Inv(s, setup) && FailuresWatched(s)
    ensures FailuresWatched(StepSlot(s, slot, setup)) <==> !FindsStale(s, slot)
  {
    match slot
    case SetSlot(path, options) => FolderSetParts(s, path, options, setup);
    case RemoveSlot(path) =>
    case PollSlot(order, trees) => WatchedScans(s, Fitting(order, s.polled), trees, setup);
    case ScheduledSlot(path, tree) =>
      var t := s.(scheduled := s.scheduled - multiset{path});
      if path in s.watched {
        WatchedScan(t, path, tree, setup);
      } else {
        UnwatchedScan(t, path, tree, setup);
      }
    case DirectoryChangedSlot(path) =>
    case RetrySlot(order, statuses) => PassKeys(s.failed, Fitting(order, s.failed.Keys), statuses);
  }

  /** No folder is removed while a scan of it is pending, and no other folder is reported as changed. */
  ghost predicate IsTidy(s: State, slots: seq<Slot>, setup: Setup)
    decreases |slots|
  {
    |slots| == 0 ||
    (&& (slots[0].RemoveSlot? ==> slots[0].path !in s.scheduled)
     && (slots[0].DirectoryChangedSlot? ==> slots[0].path in s.watched)
     && IsTidy(StepSlot(s, slots[0], setup), slots[1..], setup))
  }

  ghost predicate PendingWatched(s: State) {
    forall path :: path in s.scheduled ==> path in s.watched
  }

  lemma StepPending(s: State, slot: Slot, setup: Setup)
    requires PendingWatched(s) && IsTidy(s, [slot], setup)
    ensures PendingWatched(StepSlot(s, slot, setup))
  {
    match slot
    case SetSlot(path, options) => FolderSetParts(s, path, options, setup);
    case PollSlot(order, trees) => ScannedAllKeepsFolders(s, Fitting(order, s.polled), trees, setup);
    case _ =>
  }

  /** Over a tidy run, failures are recorded for watched folders only. */
  lemma {:induction false} TidyRun(s: State, slots: seq<Slot>, setup: Setup)
    requires Inv(s, setup) && FailuresWatched(s) && PendingWatched(s) && IsTidy(s, slots, setup)
    ensures FailuresWatched(RunSlots(s, slots, setup)) && PendingWatched(RunSlots(s, slots, setup))
    decreases |slots|
  {
    if |slots| > 0 {
      var t := StepSlot(s, slots[0], setup);
      StepKeepsInv(s, slots[0], setup);
      StaleExactly(s, slots[0], setup);
      assert IsTidy(s, [slots[0]], setup) by {
        assert IsTidy(t, [], setup) && [slots[0]][1..] == [];
      }
      StepPending(s, slots[0], setup);
      TidyRun(t, slots[1..], setup);
    }
  }

  const IDLE := State(map[], {}, {}, multiset{}, false, false, map[])

  /** Set, removed, and then scanned by the timer that was started for it. */
  lemma StaleFailure(setup: Setup)
    requires !setup.isNetwork("/w")
    ensures
      var slots := [SetSlot("/w", DEFAULT_OPTIONS), RemoveSlot("/w"), ScheduledSlot("/w", Folder([TorrentFile("x", None)], []))];
      var s := RunSlots(IDLE, slots, setup);
      s.watched == map[] && "/w" in s.failed
  {
    var add, remove := SetSlot("/w", DEFAULT_OPTIONS), RemoveSlot("/w");
    var scan := ScheduledSlot("/w", Folder([TorrentFile("x", None)], []));
    var s1 := StepSlot(IDLE, add, setup);
    var s2 := StepSlot(s1, remove, setup);
    assert s2.scheduled == multiset{"/w"} && s2.watched == map[] && s2.failed == map[];
    UnwatchedScan(s2.(scheduled := multiset{}), "/w", scan.tree, setup);
    var s3 := StepSlot(s2, scan, setup);
    assert s2.scheduled - multiset{"/w"} == multiset{};
    VisitsRecord(Outcome(s2.failed, [], []), "/w", OptionsOf(s2, "/w").addTorrentParams, ScanVisits(s2, "/w", scan.tree), setup);
    assert [add, remove, scan][1..] == [remove, scan] && [remove, scan][1..] == [scan] && [scan][1..] == [];
    assert RunSlots(s3, [], setup) == s3;
    assert RunSlots(s2, [scan], setup) == s3;
    assert RunSlots(s1, [remove, scan], setup) == s3;
  }
}
