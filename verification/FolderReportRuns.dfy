/**
  Each file's end over whole runs of the worker: as long as a path that was removed or renamed is not
  used again, every file is reported at most once, and never both reported and rejected.
*/
module FolderReportRuns {
  import opened Strings
  import opened Paths
  import opened Algorithm
  import opened FolderWalk
  import opened FolderWorker
  import opened FolderRuns
  import opened FolderRemovals
  import opened FolderWatcher
  import opened FolderReports

  /** How often each file was reported and removed, and how often it was rejected and renamed. */
  datatype Account = Account(reported: multiset<string>, rejected: multiset<string>)

  const NOTHING := Account(multiset{}, multiset{})

  predicate IsOver(a: Account, path: string) {
    path in a.reported || path in a.rejected
  }

  ghost predicate AtMostOnce(a: Account) {
    forall path :: a.reported[path] + a.rejected[path] <= 1
  }

  // ----- One slot -----

  /** The directories that a slot handles. */
  ghost function Visited(s: State, slot: Slot): seq<Visit> {
    match slot
    case PollSlot(order, trees) => if s.watchTimer then PollVisits(s, Fitting(order, s.polled), trees) else []
    case ScheduledSlot(path, tree) => if path in s.scheduled then ScanVisits(s, path, tree) else []
    case _ => []
  }

  /** The files that a retry pass reports or rejects. */
  ghost function Retired(s: State, slot: Slot): set<string> {
    match slot
    case RetrySlot(order, statuses) => if s.retryTimer then PassMade(s.failed, Fitting(order, s.failed.Keys), statuses).gone else {}
    case _ => {}
  }

  function Loading(files: set<string>, statuses: string -> FileStatus): set<string> {
    set file | file in files && statuses(file).Loads?
  }

  function Broken(files: set<string>, statuses: string -> FileStatus): set<string> {
    set file | file in files && statuses(file).Broken?
  }

  ghost function Accounted(a: Account, s: State, slot: Slot): Account {
    if slot.RetrySlot?
    then Account(a.reported + multiset(Loading(Retired(s, slot), slot.statuses)),
                 a.rejected + multiset(Broken(Retired(s, slot), slot.statuses)))
    else a.(reported := a.reported + multiset(VisitsRemoved(Visited(s, slot))))
  }

  /** What the worker writes in a retry pass is what is accounted for it. */
  lemma RetryAccounts(t: FailedTable, order: seq<string>, statuses: string -> FileStatus, rs: seq<Recovered>, js: seq<Rejected>)
    requires IsOrder(order, t.Keys) && EachOnce(t, statuses, rs, js)
    ensures multiset(FilesFound(rs)) == multiset(Loading(PassMade(t, order, statuses).gone, statuses))
    ensures multiset(FilesGivenUp(js)) == multiset(Broken(PassMade(t, order, statuses).gone, statuses))
  {
    var gone := PassMade(t, order, statuses).gone;
    forall file ensures file in FilesFound(rs) <==> file in Loading(gone, statuses) {
      PassUnderWay(t, order, statuses, "", file);
      if file in FilesFound(rs) {
        var k :| 0 <= k < |rs| && FilesFound(rs)[k] == file;
        assert Recovers(t, statuses, rs[k].folder, file) && rs[k].folder in order;
      }
    }
    forall file ensures file in FilesGivenUp(js) <==> file in Broken(gone, statuses) {
      PassUnderWay(t, order, statuses, "", file);
      if file in FilesGivenUp(js) {
        var k :| 0 <= k < |js| && FilesGivenUp(js)[k] == file;
        assert Rejects(t, statuses, js[k].folder, file) && js[k].folder in order;
      }
    }
    DistinctIsSet(FilesFound(rs), Loading(gone, statuses));
    DistinctIsSet(FilesGivenUp(js), Broken(gone, statuses));
  }

  lemma {:induction false} DistinctCounts<T>(xs: seq<T>, x: T)
    requires Distinct(xs)
    ensures multiset(xs)[x] == if x in xs then 1 else 0
  {
    if |xs| > 0 {
      var front, last := xs[..|xs| - 1], xs[|xs| - 1];
      assert xs == front + [last];
      DistinctCounts(front, x);
    }
  }

  lemma DistinctIsSet<T>(xs: seq<T>, elements: set<T>)
    requires Distinct(xs) && forall x :: x in xs <==> x in elements
    ensures multiset(xs) == multiset(elements)
  {
    forall x ensures multiset(xs)[x] == multiset(elements)[x] {
      DistinctCounts(xs, x);
    }
  }

  // ----- Runs -----

  /** Every path the worker is given is clean and absolute. */
  predicate ArePlaces(s: State) {
    && (forall path :: path in s.watched ==> IsPlace(path))
    && (forall path :: path in s.scheduled ==> IsPlace(path))
  }

  /** The names seen are those of directories, and no file is seen again after its end. */
  ghost predicate Sees(a: Account, visits: seq<Visit>) {
    forall k :: 0 <= k < |visits| ==> NamesDiffer(visits[k].folder) && SeesNoEnded(a, visits[k])
  }

  predicate SeesNoEnded(a: Account, v: Visit) {
    forall i :: 0 <= i < |v.folder.files| ==> !IsOver(a, Append(v.path, v.folder.files[i].name))
  }

  ghost predicate StaysOver(a: Account, s: State, slot: Slot) {
    && Sees(a, Visited(s, slot))
    && match slot
       case SetSlot(path, _) => IsPlace(path)
       case DirectoryChangedSlot(path) => IsPlace(path)
       case PollSlot(order, trees) => forall path :: path in s.polled ==> WellFormed(trees(path))
       case ScheduledSlot(path, tree) => WellFormed(tree)
       case RetrySlot(order, statuses) => forall file :: IsOver(a, file) ==> statuses(file).Missing?
       case RemoveSlot(_) => true
  }

  ghost predicate AllStayOver(a: Account, s: State, slots: seq<Slot>, setup: Setup)
    decreases |slots|
  {
    |slots| == 0 || (StaysOver(a, s, slots[0]) && AllStayOver(Accounted(a, s, slots[0]), StepSlot(s, slots[0], setup), slots[1..], setup))
  }

  ghost function AccountOf(a: Account, s: State, slots: seq<Slot>, setup: Setup): Account
    decreases |slots|
  {
    if |slots| == 0 then a else AccountOf(Accounted(a, s, slots[0]), StepSlot(s, slots[0], setup), slots[1..], setup)
  }

  lemma ScanPlaces(s: State, folder: string, tree: Folder)
    requires IsPlace(folder) && WellFormed(tree)
    ensures forall k :: 0 <= k < |ScanVisits(s, folder, tree)| ==> IsPlace(ScanVisits(s, folder, tree)[k].path)
  {
    var visits := ScanVisits(s, folder, tree);
    forall k | 0 <= k < |visits| ensures IsPlace(visits[k].path) {
      var names := VisitedIsUnwatched(tree, folder, s.watched.Keys, OptionsOf(s, folder).recursive, k);
      DescendLocates(folder, names);
    }
  }

  lemma {:induction false} PollPlaces(s: State, order: seq<string>, trees: string -> Folder)
    requires forall path :: path in order ==> IsPlace(path) && WellFormed(trees(path))
    ensures forall k :: 0 <= k < |PollVisits(s, order, trees)| ==> IsPlace(PollVisits(s, order, trees)[k].path)
    decreases |order|
  {
    if |order| > 0 {
      PollPlaces(s, order[..|order| - 1], trees);
      ScanPlaces(s, order[|order| - 1], trees(order[|order| - 1]));
    }
  }

  /** The directories of one slot are different places. */
  lemma VisitedFiles(a: Account, s: State, slot: Slot, setup: Setup)
    requires Inv(s, setup) && ArePlaces(s) && StaysOver(a, s, slot)
    ensures AreFiles(Visited(s, slot))
  {
    match slot
    case PollSlot(order, trees) =>
      var o := Fitting(order, s.polled);
      PollVisitsDiffer(s, o, trees);
      PollPlaces(s, o, trees);
    case ScheduledSlot(path, tree) =>
      if path in s.scheduled {
        ScanDiffers(s, path, tree);
        ScanPlaces(s, path, tree);
      }
    case _ =>
  }

  lemma RemovedAreNew(a: Account, visits: seq<Visit>, path: string)
    requires Sees(a, visits) && path in VisitsRemoved(visits)
    ensures !IsOver(a, path)
  {
    var i, k := RemovedIsVisited(visits, path);
    assert SeesNoEnded(a, visits[i]);
  }

  lemma ScanAccounts(a: Account, visits: seq<Visit>)
    requires AtMostOnce(a) && AreFiles(visits) && Sees(a, visits)
    ensures AtMostOnce(a.(reported := a.reported + multiset(VisitsRemoved(visits))))
  {
    VisitsRemovedOnce(visits);
    forall path ensures a.reported[path] + multiset(VisitsRemoved(visits))[path] + a.rejected[path] <= 1 {
      DistinctCounts(VisitsRemoved(visits), path);
      if path in VisitsRemoved(visits) {
        RemovedAreNew(a, visits, path);
      }
    }
  }

  lemma RetryAccountsOnce(a: Account, files: set<string>, statuses: string -> FileStatus)
    requires AtMostOnce(a) && forall file :: IsOver(a, file) ==> statuses(file).Missing?
    ensures AtMostOnce(Account(a.reported + multiset(Loading(files, statuses)), a.rejected + multiset(Broken(files, statuses))))
  {
    forall path ensures a.reported[path] + multiset(Loading(files, statuses))[path]
                        + a.rejected[path] + multiset(Broken(files, statuses))[path] <= 1 {
      if IsOver(a, path) {
        assert statuses(path).Missing?;
      }
    }
  }

  lemma StepAccounts(a: Account, s: State, slot: Slot, setup: Setup)
    requires Inv(s, setup) && ArePlaces(s) && AtMostOnce(a) && StaysOver(a, s, slot)
    ensures AtMostOnce(Accounted(a, s, slot))
  {
    if slot.RetrySlot? {
      RetryAccountsOnce(a, Retired(s, slot), slot.statuses);
    } else {
      VisitedFiles(a, s, slot, setup);
      ScanAccounts(a, Visited(s, slot));
    }
  }

  function PathsOf(s: State): set<string> {
    s.watched.Keys + set path | path in s.scheduled
  }

  /** The paths that a slot makes known. */
  function NewPaths(slot: Slot): set<string> {
    match slot
    case SetSlot(path, _) => {path}
    case DirectoryChangedSlot(path) => {path}
    case _ => {}
  }

  lemma StepPaths(s: State, slot: Slot, setup: Setup)
    ensures PathsOf(StepSlot(s, slot, setup)) <= PathsOf(s) + NewPaths(slot)
  {
    match slot
    case SetSlot(path, options) => FolderSetParts(s, path, options, setup);
    case PollSlot(order, trees) => ScannedAllKeepsFolders(s, Fitting(order, s.polled), trees, setup);
    case _ =>
  }

  lemma StepPlaces(a: Account, s: State, slot: Slot, setup: Setup)
    requires ArePlaces(s) && StaysOver(a, s, slot)
    ensures ArePlaces(StepSlot(s, slot, setup))
  {
    var t := StepSlot(s, slot, setup);
    StepPaths(s, slot, setup);
    forall path | path in t.watched || path in t.scheduled ensures IsPlace(path) {
      assert path in PathsOf(t);
    }
  }

  lemma {:induction false} RunAccounts(a: Account, s: State, slots: seq<Slot>, setup: Setup)
    requires Inv(s, setup) && ArePlaces(s) && AtMostOnce(a) && AllStayOver(a, s, slots, setup)
    ensures AtMostOnce(AccountOf(a, s, slots, setup))
    decreases |slots|
  {
    if |slots| > 0 {
      StepAccounts(a, s, slots[0], setup);
      StepPlaces(a, s, slots[0], setup);
      StepKeepsInv(s, slots[0], setup);
      RunAccounts(Accounted(a, s, slots[0]), StepSlot(s, slots[0], setup), slots[1..], setup);
    }
  }

  /**
    Over every run of the worker in which a path is not used again after its file was removed or renamed:
    each file is reported at most once, whether a scan or a retry finds it, and no file is both reported
    and rejected, under whatever folders it was recorded.
  */
  lemma EndedAtMostOnce(slots: seq<Slot>, setup: Setup, path: string)
    requires AllStayOver(NOTHING, IDLE, slots, setup)
    ensures var a := AccountOf(NOTHING, IDLE, slots, setup); a.reported[path] + a.rejected[path] <= 1
  {
    RunAccounts(NOTHING, IDLE, slots, setup);
  }

  /** In every reachable state, one poll removes no path twice. */
  lemma PollRemovesOnce(events: seq<FolderWatcher.Event>, setup: Setup, order: seq<string>, trees: string -> Folder, o: Outcome)
    requires
      var s := FolderWatcher.Run(INITIAL, events, setup).worker;
      && IsOrder(order, s.polled) && (forall path :: path in order ==> WellFormed(trees(path)))
      && (forall k :: 0 <= k < |PollVisits(s, order, trees)| ==> NamesDiffer(PollVisits(s, order, trees)[k].folder))
    ensures
      var s := FolderWatcher.Run(INITIAL, events, setup).worker;
      exists removed :: Distinct(removed) && PollOutcome(o, s, order, trees, setup).removed == o.removed + removed
  {
    assert SystemInv(INITIAL, setup);
    RunKeepsSystem(INITIAL, events, setup);
    var s := FolderWatcher.Run(INITIAL, events, setup).worker;
    PollVisitsDiffer(s, order, trees);
    PollPlaces(s, order, trees);
    VisitsRemovedOnce(PollVisits(s, order, trees));
    PollRemoves(o, s, order, trees, setup);
  }
}
