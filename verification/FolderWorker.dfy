/**
  The worker of the watched folders: TorrentFilesWatcher::Worker of torrentfileswatcher.cpp. Its slots
  run one at a time on the worker thread. File trees, load results and the answer whether a path is on
  a network file system come from outside.
*/
module FolderWorker {
  import opened Strings
  import opened Paths
  import opened Algorithm
  import opened FolderWalk

  const MAX_FAILED_RETRIES := 5

  datatype AddTorrentParams = AddTorrentParams(category: string, savePath: string, useAutoTMM: Option<bool>)

  datatype Options = Options(addTorrentParams: AddTorrentParams, recursive: bool)

  const DEFAULT_OPTIONS := Options(AddTorrentParams("", "", None), false)

  /** A torrent reported to the main thread. */
  datatype Found = Found(descriptor: Descriptor, params: AddTorrentParams)

  type FailedTable = map<string, map<string, nat>>

  /** What the worker remembers between its slots; timers by whether they are active. */
  datatype State = State(
    watched: map<string, Options>, polled: set<string>, notified: set<string>, scheduled: multiset<string>,
    watchTimer: bool, retryTimer: bool, failed: FailedTable)

  /** Answers of the session and of the operating system that do not change. */
  datatype Setup = Setup(isNetwork: string -> bool, autoTMMByDefault: bool, places: Places)

  function OptionsIn(watched: map<string, Options>, path: string): Options {
    if path in watched then watched[path] else DEFAULT_OPTIONS
  }

  function OptionsOf(s: State, path: string): Options {
    OptionsIn(s.watched, path)
  }

  // ----- Parameters of the torrents found -----

  /** How a subdirectory of the watched folder changes the category or the save path. */
  function BelowParams(p: AddTorrentParams, subdirectory: string, setup: Setup): AddTorrentParams {
    var auto := if p.useAutoTMM.Some? then p.useAutoTMM.value else setup.autoTMMByDefault;
    if auto then p.(category := if p.category == "" then subdirectory else p.category + "/" + subdirectory)
    else p.(savePath := Append(p.savePath, subdirectory))
  }

  function ScanParams(watchedFolder: string, directory: string, p: AddTorrentParams, setup: Setup): AddTorrentParams {
    if directory == watchedFolder then p
    else BelowParams(p, RelativePathOf(watchedFolder, directory, setup.places), setup)
  }

  function RetryParams(watchedFolder: string, file: string, p: AddTorrentParams, setup: Setup): AddTorrentParams {
    if file == watchedFolder then p
    else BelowParams(p, ParentPath(RelativePathOf(watchedFolder, file, setup.places)), setup)
  }

  // ----- One scan -----

  /** Descriptors found in one file. */
  function Descriptors(e: Entry): seq<Descriptor> {
    match e
    case MagnetFile(_, links) => if links.Some? then Parsed(links.value) else []
    case TorrentFile(_, loaded) => if loaded.Some? then [loaded.value] else []
  }

  function Parsed(links: seq<Option<Descriptor>>): seq<Descriptor> {
    if |links| == 0 then []
    else
      var last := links[|links| - 1];
      Parsed(links[..|links| - 1]) + if last.Some? then [last.value] else []
  }

  /** The file is removed after it was handled. */
  predicate IsConsumed(e: Entry) {
    match e
    case MagnetFile(_, links) => links.Some?
    case TorrentFile(_, loaded) => loaded.Some?
  }

  predicate IsBroken(e: Entry) {
    e.TorrentFile? && e.loaded.None?
  }

  function WithParams(ds: seq<Descriptor>, params: AddTorrentParams): (found: seq<Found>)
    ensures |found| == |ds|
  {
    seq(|ds|, i requires 0 <= i < |ds| => Found(ds[i], params))
  }

  /** What a scan changes: the failure table, the torrents reported and the files removed so far. */
  datatype Outcome = Outcome(failed: FailedTable, found: seq<Found>, removed: seq<string>)

  /** A broken file is entered with counter 0 unless it has an entry already. */
  function Record(t: FailedTable, watchedFolder: string, file: string): FailedTable {
    var known := if watchedFolder in t then t[watchedFolder] else map[];
    if file in known then t else t[watchedFolder := known[file := 0]]
  }

  function FileHandled(o: Outcome, watchedFolder: string, directory: string, e: Entry, params: AddTorrentParams): Outcome {
    var file := Append(directory, e.name);
    Outcome(if IsBroken(e) then Record(o.failed, watchedFolder, file) else o.failed,
            o.found + WithParams(Descriptors(e), params),
            if IsConsumed(e) then o.removed + [file] else o.removed)
  }

  /** The files of a directory from the i-th on. */
  function FilesHandled(o: Outcome, watchedFolder: string, v: Visit, i: nat, params: AddTorrentParams): Outcome
    requires i <= |v.folder.files|
    decreases |v.folder.files| - i
  {
    if i == |v.folder.files| then o
    else FilesHandled(FileHandled(o, watchedFolder, v.path, v.folder.files[i], params), watchedFolder, v, i + 1, params)
  }

  function VisitHandled(o: Outcome, watchedFolder: string, p: AddTorrentParams, v: Visit, setup: Setup): Outcome {
    FilesHandled(o, watchedFolder, v, 0, ScanParams(watchedFolder, v.path, p, setup))
  }

  function VisitsHandled(o: Outcome, watchedFolder: string, p: AddTorrentParams, visits: seq<Visit>, setup: Setup): Outcome
    decreases |visits|
  {
    if |visits| == 0 then o
    else VisitsHandled(VisitHandled(o, watchedFolder, p, visits[0], setup), watchedFolder, p, visits[1..], setup)
  }

  lemma {:induction false} VisitsHandledConcat(o: Outcome, watchedFolder: string, p: AddTorrentParams, a: seq<Visit>, b: seq<Visit>, setup: Setup)
    ensures VisitsHandled(o, watchedFolder, p, a + b, setup)
            == VisitsHandled(VisitsHandled(o, watchedFolder, p, a, setup), watchedFolder, p, b, setup)
    decreases |a|
  {
    if |a| == 0 {
      assert a + b == b;
    } else {
      assert (a + b)[1..] == a[1..] + b;
      VisitsHandledConcat(VisitHandled(o, watchedFolder, p, a[0], setup), watchedFolder, p, a[1..], b, setup);
    }
  }

  lemma VisitsHandledOne(o: Outcome, watchedFolder: string, p: AddTorrentParams, v: Visit, setup: Setup)
    ensures VisitsHandled(o, watchedFolder, p, [v], setup) == VisitHandled(o, watchedFolder, p, v, setup)
  {
  }

  /** The walk of a folder is handled as its files and then its subfolders one by one. */
  lemma WalkHandled(o: Outcome, watchedFolder: string, p: AddTorrentParams, folder: Folder, path: string,
                    watched: set<string>, recursive: bool, setup: Setup)
    ensures var files := VisitHandled(o, watchedFolder, p, Visit(path, folder), setup);
      VisitsHandled(o, watchedFolder, p, Walk(folder, path, watched, recursive), setup)
      == if recursive then VisitsHandled(files, watchedFolder, p, WalkSubfolders(folder, 0, path, watched), setup) else files
  {
    var below := if recursive then WalkSubfolders(folder, 0, path, watched) else [];
    VisitsHandledConcat(o, watchedFolder, p, [Visit(path, folder)], below, setup);
    VisitsHandledOne(o, watchedFolder, p, Visit(path, folder), setup);
  }

  /** The walks of the subfolders from the i-th on. */
  function SubfoldersHandled(o: Outcome, watchedFolder: string, p: AddTorrentParams, folder: Folder, i: nat, path: string,
                             watched: set<string>, setup: Setup): Outcome
    requires i <= |folder.subfolders|
  {
    VisitsHandled(o, watchedFolder, p, WalkSubfolders(folder, i, path, watched), setup)
  }

  lemma SubfoldersEnd(o: Outcome, watchedFolder: string, p: AddTorrentParams, folder: Folder, path: string, watched: set<string>, setup: Setup)
    ensures SubfoldersHandled(o, watchedFolder, p, folder, |folder.subfolders|, path, watched, setup) == o
  {
  }

  lemma SubfolderSkipped(o: Outcome, watchedFolder: string, p: AddTorrentParams, folder: Folder, i: nat, path: string,
                         watched: set<string>, setup: Setup)
    requires i < |folder.subfolders| && Append(path, folder.subfolders[i].name) in watched
    ensures SubfoldersHandled(o, watchedFolder, p, folder, i, path, watched, setup)
            == SubfoldersHandled(o, watchedFolder, p, folder, i + 1, path, watched, setup)
  {
    assert [] + WalkSubfolders(folder, i + 1, path, watched) == WalkSubfolders(folder, i + 1, path, watched);
  }

  lemma SubfolderEntered(o: Outcome, watchedFolder: string, p: AddTorrentParams, folder: Folder, i: nat, path: string,
                         watched: set<string>, setup: Setup)
    requires i < |folder.subfolders| && Append(path, folder.subfolders[i].name) !in watched
    ensures
      var inner := Walk(folder.subfolders[i].folder, Append(path, folder.subfolders[i].name), watched, true);
      SubfoldersHandled(o, watchedFolder, p, folder, i, path, watched, setup)
      == SubfoldersHandled(VisitsHandled(o, watchedFolder, p, inner, setup), watchedFolder, p, folder, i + 1, path, watched, setup)
  {
    var inner := Walk(folder.subfolders[i].folder, Append(path, folder.subfolders[i].name), watched, true);
    VisitsHandledConcat(o, watchedFolder, p, inner, WalkSubfolders(folder, i + 1, path, watched), setup);
  }

  /** The failure table does not depend on what was reported before. */
  lemma {:induction false} FilesFailedOnly(o: Outcome, o': Outcome, watchedFolder: string, v: Visit, i: nat, params: AddTorrentParams)
    requires i <= |v.folder.files| && o.failed == o'.failed
    ensures FilesHandled(o, watchedFolder, v, i, params).failed == FilesHandled(o', watchedFolder, v, i, params).failed
    decreases |v.folder.files| - i
  {
    if i < |v.folder.files| {
      var e := v.folder.files[i];
      FilesFailedOnly(FileHandled(o, watchedFolder, v.path, e, params), FileHandled(o', watchedFolder, v.path, e, params),
                      watchedFolder, v, i + 1, params);
    }
  }

  lemma {:induction false} VisitsFailedOnly(o: Outcome, o': Outcome, watchedFolder: string, p: AddTorrentParams, visits: seq<Visit>, setup: Setup)
    requires o.failed == o'.failed
    ensures VisitsHandled(o, watchedFolder, p, visits, setup).failed == VisitsHandled(o', watchedFolder, p, visits, setup).failed
    decreases |visits|
  {
    if |visits| > 0 {
      FilesFailedOnly(o, o', watchedFolder, visits[0], 0, ScanParams(watchedFolder, visits[0].path, p, setup));
      VisitsFailedOnly(VisitHandled(o, watchedFolder, p, visits[0], setup), VisitHandled(o', watchedFolder, p, visits[0], setup),
                       watchedFolder, p, visits[1..], setup);
    }
  }

  /** The visits of a scan of `path`; a path that is no longer watched is scanned with default options. */
  function ScanVisits(s: State, path: string, tree: Folder): seq<Visit> {
    Walk(tree, path, s.watched.Keys, OptionsOf(s, path).recursive)
  }

  function ScanOutcome(o: Outcome, s: State, path: string, tree: Folder, setup: Setup): Outcome {
    VisitsHandled(o, path, OptionsOf(s, path).addTorrentParams, ScanVisits(s, path, tree), setup)
  }

  /** processWatchedFolder: the failures are recorded and the retry timer runs if there are any. */
  function Scanned(s: State, path: string, tree: Folder, setup: Setup): State {
    var failed := ScanOutcome(Outcome(s.failed, [], []), s, path, tree, setup).failed;
    s.(failed := failed, retryTimer := s.retryTimer || failed != map[])
  }

  function ScannedAll(s: State, paths: seq<string>, trees: string -> Folder, setup: Setup): State
    decreases |paths|
  {
    if |paths| == 0 then s else ScannedAll(Scanned(s, paths[0], trees(paths[0]), setup), paths[1..], trees, setup)
  }

  lemma {:induction false} ScannedAllKeepsFolders(s: State, order: seq<string>, trees: string -> Folder, setup: Setup)
    ensures ScannedAll(s, order, trees, setup).scheduled == s.scheduled && ScannedAll(s, order, trees, setup).watched == s.watched
    decreases |order|
  {
    if |order| > 0 {
      ScannedAllKeepsFolders(Scanned(s, order[0], trees(order[0]), setup), order[1..], trees, setup);
    }
  }

  /** What the scans of a poll report and remove, one folder after the other. */
  function PollOutcome(o: Outcome, s: State, paths: seq<string>, trees: string -> Folder, setup: Setup): Outcome {
    if |paths| == 0 then o
    else
      var last := paths[|paths| - 1];
      ScanOutcome(PollOutcome(o, s, paths[..|paths| - 1], trees, setup), s, last, trees(last), setup)
  }

  // ----- Folders -----

  function Scheduled(s: State, path: string): State {
    s.(scheduled := s.scheduled + multiset{path})
  }

  function FolderAdded(s: State, path: string, options: Options, setup: Setup): State {
    var t := if setup.isNetwork(path) || options.recursive
             then s.(polled := s.polled + {path}, watchTimer := true)
             else Scheduled(s.(notified := s.notified + {path}), path);
    t.(watched := s.watched[path := options])
  }

  function FolderUpdated(s: State, path: string, options: Options, setup: Setup): State {
    var t := if OptionsOf(s, path).recursive == options.recursive || setup.isNetwork(path) then s
             else if options.recursive
             then s.(notified := s.notified - {path}, polled := s.polled + {path}, watchTimer := true)
             else
               var polled := s.polled - {path};
               Scheduled(s.(polled := polled, watchTimer := s.watchTimer && polled != {},
                            notified := s.notified + {path}), path);
    t.(watched := s.watched[path := options])
  }

  function FolderSet(s: State, path: string, options: Options, setup: Setup): State {
    if path in s.watched then FolderUpdated(s, path, options, setup) else FolderAdded(s, path, options, setup)
  }

  function FolderRemoved(s: State, path: string): State {
    var polled, failed := s.polled - {path}, s.failed - {path};
    s.(watched := s.watched - {path}, notified := s.notified - {path}, polled := polled,
       watchTimer := s.watchTimer && polled != {}, failed := failed, retryTimer := s.retryTimer && failed != map[])
  }

  // ----- The retry pass -----

  /** What a retry finds at a recorded path. */
  datatype FileStatus = Missing | Loads(descriptor: Descriptor) | Broken

  /** None when the entry is erased, otherwise the new counter. */
  function RetryEntry(status: FileStatus, count: nat): Option<nat> {
    if status.Broken? && count < MAX_FAILED_RETRIES then Some(count + 1) else None
  }

  function RetryFolder(entries: map<string, nat>, statuses: string -> FileStatus): map<string, nat> {
    Kept(entries, (file, count) => RetryEntry(statuses(file), count))
  }

  /** The files of these entries that the pass removes or renames. */
  function Consumed(entries: map<string, nat>, statuses: string -> FileStatus): set<string> {
    set file | file in entries && !statuses(file).Missing? && RetryEntry(statuses(file), entries[file]).None?
  }

  /** A pass under way: the table, and the files that are no longer there because of the pass. */
  datatype Pass = Pass(failed: FailedTable, gone: set<string>)

  /** What the pass itself removed or renamed is missing from then on. */
  function Now(gone: set<string>, statuses: string -> FileStatus): string -> FileStatus {
    file => if file in gone then Missing else statuses(file)
  }

  /** A folder without entries is dropped. */
  function WithEntries(t: FailedTable, folder: string, entries: map<string, nat>): FailedTable {
    if entries == map[] then t - {folder} else t[folder := entries]
  }

  function FolderRetried(p: Pass, folder: string, statuses: string -> FileStatus): Pass {
    if folder !in p.failed then p
    else
      var now := Now(p.gone, statuses);
      Pass(WithEntries(p.failed, folder, RetryFolder(p.failed[folder], now)), p.gone + Consumed(p.failed[folder], now))
  }

  /** The folders one after the other. */
  function PassMade(t: FailedTable, order: seq<string>, statuses: string -> FileStatus): Pass {
    if |order| == 0 then Pass(t, {}) else FolderRetried(PassMade(t, order[..|order| - 1], statuses), order[|order| - 1], statuses)
  }

  function Retried(s: State, order: seq<string>, statuses: string -> FileStatus): State {
    var failed := PassMade(s.failed, order, statuses).failed;
    s.(failed := failed, retryTimer := failed != map[])
  }

  /** The order is one in which these folders may be gone through. */
  ghost predicate IsOrder(order: seq<string>, paths: set<string>) {
    Distinct(order) && forall path :: path in order <==> path in paths
  }

  /** The file's retries are used up under this folder. */
  predicate Rejects(t: FailedTable, statuses: string -> FileStatus, folder: string, file: string) {
    folder in t && file in t[folder] && statuses(file).Broken? && t[folder][file] >= MAX_FAILED_RETRIES
  }

  predicate Recovers(t: FailedTable, statuses: string -> FileStatus, folder: string, file: string) {
    folder in t && file in t[folder] && statuses(file).Loads?
  }

  /** Folders not yet gone through are untouched; what is gone was recovered or rejected under one gone through. */
  lemma {:induction false} PassUnderWay(t: FailedTable, order: seq<string>, statuses: string -> FileStatus, folder: string, file: string)
    requires Distinct(order)
    ensures var p := PassMade(t, order, statuses);
      && (folder !in order ==> (folder in p.failed <==> folder in t) && (folder in t ==> p.failed[folder] == t[folder]))
      && (file in p.gone <==> exists k :: 0 <= k < |order| && (Recovers(t, statuses, order[k], file) || Rejects(t, statuses, order[k], file)))
    decreases |order|
  {
    if |order| > 0 {
      var n := |order| - 1;
      var before := order[..n];
      PassUnderWay(t, before, statuses, folder, file);
      PassUnderWay(t, before, statuses, order[n], file);
      var p := PassMade(t, before, statuses);
      assert forall k :: 0 <= k < n ==> before[k] == order[k];
      if order[n] in t {
        assert file in Consumed(t[order[n]], Now(p.gone, statuses))
          <==> file !in p.gone && (Recovers(t, statuses, order[n], file) || Rejects(t, statuses, order[n], file));
      }
    }
  }

  /** A file that loads at last, and a file that is given up, with the folder whose entry was erased for it. */
  datatype Recovered = Recovered(folder: string, file: string, descriptor: Descriptor)
  datatype Rejected = Rejected(folder: string, file: string)

  function Report(watched: map<string, Options>, r: Recovered, setup: Setup): Found {
    Found(r.descriptor, RetryParams(r.folder, r.file, OptionsIn(watched, r.folder).addTorrentParams, setup))
  }

  function Reports(watched: map<string, Options>, rs: seq<Recovered>, setup: Setup): (found: seq<Found>)
    ensures |found| == |rs|
  {
    seq(|rs|, k requires 0 <= k < |rs| => Report(watched, rs[k], setup))
  }

  function FilesFound(rs: seq<Recovered>): (files: seq<string>)
    ensures |files| == |rs|
  {
    seq(|rs|, k requires 0 <= k < |rs| => rs[k].file)
  }

  function FilesGivenUp(js: seq<Rejected>): (files: seq<string>)
    ensures |files| == |js|
  {
    seq(|js|, k requires 0 <= k < |js| => js[k].file)
  }

  /** No file occurs twice, and each occurs because of its entry. */
  predicate AreFates(t: FailedTable, statuses: string -> FileStatus, rs: seq<Recovered>, js: seq<Rejected>) {
    && Distinct(FilesFound(rs)) && Distinct(FilesGivenUp(js))
    && (forall k :: 0 <= k < |rs| ==>
          Recovers(t, statuses, rs[k].folder, rs[k].file) && statuses(rs[k].file) == Loads(rs[k].descriptor))
    && (forall k :: 0 <= k < |js| ==> Rejects(t, statuses, js[k].folder, js[k].file))
  }

  /** Every recorded file that loads is found once, every recorded file whose retries are used up is given up once. */
  ghost predicate EachOnce(t: FailedTable, statuses: string -> FileStatus, rs: seq<Recovered>, js: seq<Rejected>) {
    && AreFates(t, statuses, rs, js)
    && (forall folder, file :: Recovers(t, statuses, folder, file) ==> file in FilesFound(rs))
    && (forall folder, file :: Rejects(t, statuses, folder, file) ==> file in FilesGivenUp(js))
  }

  ghost predicate AreGone(gone: set<string>, rs: seq<Recovered>, js: seq<Rejected>) {
    forall file :: file in gone <==> file in FilesFound(rs) || file in FilesGivenUp(js)
  }

  /** The fates of one folder's entries. */
  ghost predicate FolderFates(folder: string, entries: map<string, nat>, now: string -> FileStatus,
                              rs: seq<Recovered>, js: seq<Rejected>) {
    AreFates(map[folder := entries], now, rs, js) && AreGone(Consumed(entries, now), rs, js)
  }

  /** What the worker has reported, removed and renamed. */
  datatype Written = Written(found: seq<Found>, removed: seq<string>, renamed: seq<string>)

  function WithFates(w: Written, watched: map<string, Options>, rs: seq<Recovered>, js: seq<Rejected>, setup: Setup): Written {
    Written(w.found + Reports(watched, rs, setup), w.removed + FilesFound(rs), w.renamed + FilesGivenUp(js))
  }

  lemma WithFatesConcat(w: Written, watched: map<string, Options>, rs: seq<Recovered>, js: seq<Rejected>,
                        rs': seq<Recovered>, js': seq<Rejected>, setup: Setup)
    ensures WithFates(WithFates(w, watched, rs, js, setup), watched, rs', js', setup)
            == WithFates(w, watched, rs + rs', js + js', setup)
  {
    FatesConcat(watched, rs, rs', js, js', setup);
    var v := WithFates(w, watched, rs, js, setup);
    Regroup(v.found, w.found, Reports(watched, rs, setup), Reports(watched, rs', setup));
    Regroup(v.removed, w.removed, FilesFound(rs), FilesFound(rs'));
    Regroup(v.renamed, w.renamed, FilesGivenUp(js), FilesGivenUp(js'));
  }

  lemma FatesConcat(watched: map<string, Options>, rs: seq<Recovered>, rs': seq<Recovered>, js: seq<Rejected>, js': seq<Rejected>, setup: Setup)
    ensures Reports(watched, rs + rs', setup) == Reports(watched, rs, setup) + Reports(watched, rs', setup)
    ensures FilesFound(rs + rs') == FilesFound(rs) + FilesFound(rs')
    ensures FilesGivenUp(js + js') == FilesGivenUp(js) + FilesGivenUp(js')
  {
    ReportsConcat(watched, rs, rs', setup);
    FoundConcat(rs, rs');
    GivenUpConcat(js, js');
  }

  lemma ReportsConcat(watched: map<string, Options>, a: seq<Recovered>, b: seq<Recovered>, setup: Setup)
    ensures Reports(watched, a + b, setup) == Reports(watched, a, setup) + Reports(watched, b, setup)
  {
  }

  lemma FoundConcat(a: seq<Recovered>, b: seq<Recovered>)
    ensures FilesFound(a + b) == FilesFound(a) + FilesFound(b)
  {
  }

  lemma GivenUpConcat(a: seq<Rejected>, b: seq<Rejected>)
    ensures FilesGivenUp(a + b) == FilesGivenUp(a) + FilesGivenUp(b)
  {
  }

  /** The fate of an erased entry, by what was found at its path. */
  function FoundAs(folder: string, file: string, status: FileStatus): seq<Recovered> {
    if status.Loads? then [Recovered(folder, file, status.descriptor)] else []
  }

  function GivenUpAs(folder: string, file: string, status: FileStatus): seq<Rejected> {
    if status.Broken? then [Rejected(folder, file)] else []
  }

  function ConsumedAs(file: string, status: FileStatus): set<string> {
    if status.Missing? then {} else {file}
  }

  lemma OneMoreFate(t: FailedTable, now: string -> FileStatus, rs: seq<Recovered>, js: seq<Rejected>, consumed: set<string>,
                    folder: string, file: string)
    requires AreFates(t, now, rs, js) && AreGone(consumed, rs, js) && file !in consumed
    requires folder in t && file in t[folder] && RetryEntry(now(file), t[folder][file]).None?
    ensures AreFates(t, now, rs + FoundAs(folder, file, now(file)), js + GivenUpAs(folder, file, now(file)))
    ensures AreGone(consumed + ConsumedAs(file, now(file)), rs + FoundAs(folder, file, now(file)), js + GivenUpAs(folder, file, now(file)))
  {
    var r, j := FoundAs(folder, file, now(file)), GivenUpAs(folder, file, now(file));
    assert FilesFound(r) == (if now(file).Loads? then [file] else []) && FilesGivenUp(j) == if now(file).Broken? then [file] else [];
    FoundConcat(rs, r);
    GivenUpConcat(js, j);
  }

  /** These erased entries of one folder have met their fates. */
  ghost predicate Handled(folder: string, entries: map<string, nat>, now: string -> FileStatus, erased: seq<string>,
                          consumed: set<string>, rs: seq<Recovered>, js: seq<Rejected>) {
    && consumed == (set file | file in erased && !now(file).Missing?)
    && AreFates(map[folder := entries], now, rs, js) && AreGone(consumed, rs, js)
  }

  lemma HandledStep(folder: string, entries: map<string, nat>, now: string -> FileStatus, erased: seq<string>, i: nat,
                    consumed: set<string>, rs: seq<Recovered>, js: seq<Rejected>)
    requires i < |erased| && Distinct(erased) && erased[i] in entries && RetryEntry(now(erased[i]), entries[erased[i]]).None?
    requires Handled(folder, entries, now, erased[..i], consumed, rs, js)
    ensures var file := erased[i];
      Handled(folder, entries, now, erased[..i + 1], consumed + ConsumedAs(file, now(file)),
              rs + FoundAs(folder, file, now(file)), js + GivenUpAs(folder, file, now(file)))
  {
    assert erased[..i + 1] == erased[..i] + [erased[i]];
    OneMoreFate(map[folder := entries], now, rs, js, consumed, folder, erased[i]);
  }

  lemma FatesStep(t: FailedTable, statuses: string -> FileStatus, gone: set<string>, folder: string,
                  rs: seq<Recovered>, js: seq<Rejected>, rs': seq<Recovered>, js': seq<Rejected>)
    requires AreFates(t, statuses, rs, js) && AreGone(gone, rs, js) && folder in t
    requires FolderFates(folder, t[folder], Now(gone, statuses), rs', js')
    ensures AreFates(t, statuses, rs + rs', js + js')
    ensures AreGone(gone + Consumed(t[folder], Now(gone, statuses)), rs + rs', js + js')
  {
    FoundConcat(rs, rs');
    GivenUpConcat(js, js');
    forall k | 0 <= k < |rs'| ensures rs'[k].file !in gone && rs'[k].folder == folder {
      assert Recovers(map[folder := t[folder]], Now(gone, statuses), rs'[k].folder, rs'[k].file);
    }
    forall k | 0 <= k < |js'| ensures js'[k].file !in gone && js'[k].folder == folder {
      assert Rejects(map[folder := t[folder]], Now(gone, statuses), js'[k].folder, js'[k].file);
    }
    assert forall k :: 0 <= k < |rs| ==> rs[k].file == FilesFound(rs)[k] && FilesFound(rs)[k] in FilesFound(rs);
    assert forall k :: 0 <= k < |js| ==> js[k].file == FilesGivenUp(js)[k] && FilesGivenUp(js)[k] in FilesGivenUp(js);
  }

  /** A pass that began with the table `t` has gone through some folders, with these fates so far. */
  ghost predicate UnderWay(t: FailedTable, order: seq<string>, statuses: string -> FileStatus, p: Pass, rs: seq<Recovered>, js: seq<Rejected>) {
    Distinct(order) && p == PassMade(t, order, statuses) && AreFates(t, statuses, rs, js) && AreGone(p.gone, rs, js)
  }

  lemma UnderWayStep(t: FailedTable, order: seq<string>, statuses: string -> FileStatus, p: Pass, folder: string,
                     rs: seq<Recovered>, js: seq<Rejected>, rs': seq<Recovered>, js': seq<Rejected>)
    requires UnderWay(t, order, statuses, p, rs, js) && folder in t && folder !in order
    requires folder in p.failed ==> FolderFates(folder, p.failed[folder], Now(p.gone, statuses), rs', js')
    ensures folder in p.failed && UnderWay(t, order + [folder], statuses, FolderRetried(p, folder, statuses), rs + rs', js + js')
  {
    PassUnderWay(t, order, statuses, folder, "");
    FatesStep(t, statuses, p.gone, folder, rs, js, rs', js');
    assert (order + [folder])[..|order|] == order;
  }

  lemma FatesEnd(t: FailedTable, statuses: string -> FileStatus, order: seq<string>, p: Pass, rs: seq<Recovered>, js: seq<Rejected>)
    requires IsOrder(order, t.Keys) && UnderWay(t, order, statuses, p, rs, js)
    ensures EachOnce(t, statuses, rs, js)
  {
    forall folder, file | Recovers(t, statuses, folder, file) || Rejects(t, statuses, folder, file) ensures file in p.gone {
      PassUnderWay(t, order, statuses, folder, file);
      assert folder in order;
    }
    forall k | 0 <= k < |rs| ensures statuses(FilesFound(rs)[k]).Loads? {
      assert Recovers(t, statuses, rs[k].folder, rs[k].file);
    }
    forall k | 0 <= k < |js| ensures statuses(FilesGivenUp(js)[k]).Broken? {
      assert Rejects(t, statuses, js[k].folder, js[k].file);
    }
  }

  // ----- The worker object -----

  class Worker {
    const setup: Setup
    var watchedFolders: map<string, Options>
    var watchedByTimeoutFolders: set<string>
    var watcherDirectories: set<string>
    var scheduledFolders: multiset<string>
    var watchTimerActive: bool
    var retryTimerActive: bool
    var failedTorrents: FailedTable
    var torrentsFound: seq<Found>
    var filesRemoved: seq<string>
    var filesRejected: seq<string>      // renamed with a suffix

    function Output(): Outcome
      reads this
    {
      Outcome(failedTorrents, torrentsFound, filesRemoved)
    }

    function Snapshot(): State
      reads this
    {
      State(watchedFolders, watchedByTimeoutFolders, watcherDirectories, scheduledFolders,
            watchTimerActive, retryTimerActive, failedTorrents)
    }

    function Writing(): Written
      reads this
    {
      Written(torrentsFound, filesRemoved, filesRejected)
    }

    constructor (setup: Setup)
      ensures this.setup == setup
      ensures Snapshot() == State(map[], {}, {}, multiset{}, false, false, map[])
    {
      this.setup := setup;
      watchedFolders, watchedByTimeoutFolders, watcherDirectories, scheduledFolders := map[], {}, {}, multiset{};
      watchTimerActive, retryTimerActive, failedTorrents := false, false, map[];
      torrentsFound, filesRemoved, filesRejected := [], [], [];
    }

    method SetWatchedFolder(path: string, options: Options)
      modifies this
      ensures Snapshot() == FolderSet(old(Snapshot()), path, options, setup)
    {
      if path in watchedFolders {
        UpdateWatchedFolder(path, options);
      } else {
        AddWatchedFolder(path, options);
      }
    }

    method AddWatchedFolder(path: string, options: Options)
      modifies this
      ensures Snapshot() == FolderAdded(old(Snapshot()), path, options, setup)
    {
      if setup.isNetwork(path) || options.recursive {
        watchedByTimeoutFolders := watchedByTimeoutFolders + {path};
        if !watchTimerActive {
          watchTimerActive := true;
        }
      } else {
        watcherDirectories := watcherDirectories + {path};
        ScheduleWatchedFolderProcessing(path);
      }
      watchedFolders := watchedFolders[path := options];
    }

    method UpdateWatchedFolder(path: string, options: Options)
      requires path in watchedFolders
      modifies this
      ensures Snapshot() == FolderUpdated(old(Snapshot()), path, options, setup)
    {
      var recursiveModeChanged := watchedFolders[path].recursive != options.recursive;
      if recursiveModeChanged && !setup.isNetwork(path) {
        if options.recursive {
          watcherDirectories := watcherDirectories - {path};
          watchedByTimeoutFolders := watchedByTimeoutFolders + {path};
          if !watchTimerActive {
            watchTimerActive := true;
          }
        } else {
          watchedByTimeoutFolders := watchedByTimeoutFolders - {path};
          if watchedByTimeoutFolders == {} {
            watchTimerActive := false;
          }
          watcherDirectories := watcherDirectories + {path};
          ScheduleWatchedFolderProcessing(path);
        }
      }
      watchedFolders := watchedFolders[path := options];
    }

    method RemoveWatchedFolder(path: string)
      modifies this
      ensures Snapshot() == FolderRemoved(old(Snapshot()), path)
    {
      watchedFolders := watchedFolders - {path};
      watcherDirectories := watcherDirectories - {path};
      watchedByTimeoutFolders := watchedByTimeoutFolders - {path};
      if watchedByTimeoutFolders == {} {
        watchTimerActive := false;
      }
      failedTorrents := failedTorrents - {path};
      if failedTorrents == map[] {
        retryTimerActive := false;
      }
    }

    method ScheduleWatchedFolderProcessing(path: string)
      modifies this`scheduledFolders
      ensures scheduledFolders == old(scheduledFolders) + multiset{path}
    {
      scheduledFolders := scheduledFolders + multiset{path};
    }

    /** A single-shot timer fires. */
    method OnScheduled(path: string, tree: Folder)
      requires path in scheduledFolders
      modifies this
      ensures Snapshot() == Scanned(old(Snapshot()).(scheduled := old(scheduledFolders) - multiset{path}), path, tree, setup)
      ensures Output() == ScanOutcome(old(Output()), old(Snapshot()), path, tree, setup)
    {
      scheduledFolders := scheduledFolders - multiset{path};
      ProcessWatchedFolder(path, tree);
    }

    /** The poll timer: the polled folders in some order. */
    method OnTimeout(trees: string -> Folder) returns (ghost order: seq<string>)
      modifies this`failedTorrents, this`retryTimerActive, this`torrentsFound, this`filesRemoved
      ensures Distinct(order) && forall path :: path in order <==> path in watchedByTimeoutFolders
      ensures Snapshot() == ScannedAll(old(Snapshot()), order, trees, setup)
      ensures Output() == PollOutcome(old(Output()), old(Snapshot()), order, trees, setup)
    {
      order := [];
      var left := watchedByTimeoutFolders;
      while left != {}
        invariant left <= watchedByTimeoutFolders
        invariant Distinct(order) && forall path :: path in order <==> path in watchedByTimeoutFolders && path !in left
        invariant Snapshot() == ScannedAll(old(Snapshot()), order, trees, setup)
        invariant Output() == PollOutcome(old(Output()), old(Snapshot()), order, trees, setup)
        decreases left
      {
        var path :| path in left;
        PollNext(path, trees, old(Snapshot()), old(Output()), order);
        order, left := order + [path], left - {path};
      }
    }

    /** One turn of the loop of a poll that began in state `s` with the output `o`. */
    method PollNext(path: string, trees: string -> Folder, ghost s: State, ghost o: Outcome, ghost order: seq<string>)
      requires Snapshot() == ScannedAll(s, order, trees, setup) && Output() == PollOutcome(o, s, order, trees, setup)
      modifies this`failedTorrents, this`retryTimerActive, this`torrentsFound, this`filesRemoved
      ensures Snapshot() == ScannedAll(s, order + [path], trees, setup)
      ensures Output() == PollOutcome(o, s, order + [path], trees, setup)
    {
      ScannedAllKeepsFolders(s, order, trees, setup);
      ScannedAllSnoc(s, order, path, trees, setup);
      assert (order + [path])[..|order|] == order;
      ProcessWatchedFolder(path, trees(path));
    }

    method ProcessWatchedFolder(path: string, tree: Folder)
      modifies this`failedTorrents, this`retryTimerActive, this`torrentsFound, this`filesRemoved
      ensures Snapshot() == Scanned(old(Snapshot()), path, tree, setup)
      ensures Output() == ScanOutcome(old(Output()), old(Snapshot()), path, tree, setup)
    {
      var options := if path in watchedFolders then watchedFolders[path] else DEFAULT_OPTIONS;
      VisitsFailedOnly(Output(), Outcome(failedTorrents, [], []), path, options.addTorrentParams,
                       Walk(tree, path, watchedFolders.Keys, options.recursive), setup);
      ProcessFolder(path, path, options, tree);
      if failedTorrents != map[] && !retryTimerActive {
        retryTimerActive := true;
      }
    }

    /** The files of the directory first, then its subdirectories. */
    method ProcessFolder(path: string, watchedFolderPath: string, options: Options, folder: Folder)
      modifies this`failedTorrents, this`torrentsFound, this`filesRemoved
      ensures Output() == VisitsHandled(old(Output()), watchedFolderPath, options.addTorrentParams,
                                        Walk(folder, path, watchedFolders.Keys, options.recursive), setup)
      decreases folder, 2
    {
      WalkHandled(Output(), watchedFolderPath, options.addTorrentParams, folder, path, watchedFolders.Keys, options.recursive, setup);
      ProcessFiles(path, watchedFolderPath, options, folder);
      if options.recursive {
        ProcessSubfolders(path, watchedFolderPath, options, folder);
      }
    }

    method ProcessSubfolders(path: string, watchedFolderPath: string, options: Options, folder: Folder)
      requires options.recursive
      modifies this`failedTorrents, this`torrentsFound, this`filesRemoved
      ensures Output() == SubfoldersHandled(old(Output()), watchedFolderPath, options.addTorrentParams, folder, 0, path,
                                            watchedFolders.Keys, setup)
      decreases folder, 1
    {
      ghost var watched, p := watchedFolders.Keys, options.addTorrentParams;
      ghost var end := SubfoldersHandled(Output(), watchedFolderPath, p, folder, 0, path, watched, setup);
      var i := 0;
      while i < |folder.subfolders|
        invariant 0 <= i <= |folder.subfolders|
        invariant SubfoldersHandled(Output(), watchedFolderPath, p, folder, i, path, watched, setup) == end
      {
        ProcessSubfolder(path, watchedFolderPath, options, folder, i, watched, end);
        i := i + 1;
      }
      SubfoldersEnd(Output(), watchedFolderPath, p, folder, path, watched, setup);
    }

    /** A subdirectory that is watched on its own is skipped. */
    method ProcessSubfolder(path: string, watchedFolderPath: string, options: Options, folder: Folder, i: nat,
                            ghost watched: set<string>, ghost end: Outcome)
      requires options.recursive && i < |folder.subfolders| && watched == watchedFolders.Keys
      requires SubfoldersHandled(Output(), watchedFolderPath, options.addTorrentParams, folder, i, path, watched, setup) == end
      modifies this`failedTorrents, this`torrentsFound, this`filesRemoved
      ensures SubfoldersHandled(Output(), watchedFolderPath, options.addTorrentParams, folder, i + 1, path, watched, setup) == end
      decreases folder, 0
    {
      var subfolder := folder.subfolders[i];
      var folderPath := Append(path, subfolder.name);
      if folderPath !in watchedFolders {
        SubfolderEntered(Output(), watchedFolderPath, options.addTorrentParams, folder, i, path, watched, setup);
        ProcessFolder(folderPath, watchedFolderPath, options, subfolder.folder);
      } else {
        SubfolderSkipped(Output(), watchedFolderPath, options.addTorrentParams, folder, i, path, watched, setup);
      }
    }

    method ProcessFiles(path: string, watchedFolderPath: string, options: Options, folder: Folder)
      modifies this`failedTorrents, this`torrentsFound, this`filesRemoved
      ensures Output() == VisitHandled(old(Output()), watchedFolderPath, options.addTorrentParams, Visit(path, folder), setup)
    {
      ghost var v, start := Visit(path, folder), Output();
      var params := ScanParams(watchedFolderPath, path, options.addTorrentParams, setup);
      var i := 0;
      while i < |folder.files|
        invariant 0 <= i <= |folder.files|
        invariant FilesHandled(Output(), watchedFolderPath, v, i, params) == FilesHandled(start, watchedFolderPath, v, 0, params)
      {
        ProcessFile(path, watchedFolderPath, folder.files[i], params);
        i := i + 1;
      }
    }

    method ProcessFile(path: string, watchedFolderPath: string, e: Entry, params: AddTorrentParams)
      modifies this`failedTorrents, this`torrentsFound, this`filesRemoved
      ensures Output() == FileHandled(old(Output()), watchedFolderPath, path, e, params)
    {
      var filePath := Append(path, e.name);
      match e {
        case MagnetFile(_, links) =>
          if links.Some? {
            ReportLinks(links.value, params);
            filesRemoved := filesRemoved + [filePath];
          }
        case TorrentFile(_, loaded) =>
          if loaded.Some? {
            torrentsFound := torrentsFound + [Found(loaded.value, params)];
            filesRemoved := filesRemoved + [filePath];
          } else {
            var known := if watchedFolderPath in failedTorrents then failedTorrents[watchedFolderPath] else map[];
            if filePath !in known {
              failedTorrents := failedTorrents[watchedFolderPath := known[filePath := 0]];
            }
          }
      }
    }

    /** The lines of a magnet file; those that are no magnet links are passed over. */
    method ReportLinks(links: seq<Option<Descriptor>>, params: AddTorrentParams)
      modifies this`torrentsFound
      ensures torrentsFound == old(torrentsFound) + WithParams(Parsed(links), params)
    {
      for i := 0 to |links|
        invariant torrentsFound == old(torrentsFound) + WithParams(Parsed(links[..i]), params)
      {
        assert links[..i + 1][..i] == links[..i];
        if links[i].Some? {
          torrentsFound := torrentsFound + [Found(links[i].value, params)];
        }
      }
      assert links[..|links|] == links;
    }

    /**
      Two nested removeIf: the inner one counts and erases, the outer one drops folders without entries.
      A file may be recorded under several folders, but it is found or given up at most once.
    */
    method ProcessFailedTorrents(statuses: string -> FileStatus)
        returns (ghost order: seq<string>, ghost recovered: seq<Recovered>, ghost rejected: seq<Rejected>)
      modifies this`failedTorrents, this`retryTimerActive, this`torrentsFound, this`filesRemoved, this`filesRejected
      ensures IsOrder(order, old(failedTorrents.Keys)) && Snapshot() == Retried(old(Snapshot()), order, statuses)
      ensures EachOnce(old(failedTorrents), statuses, recovered, rejected)
      ensures Writing() == WithFates(old(Writing()), watchedFolders, recovered, rejected, setup)
    {
      order, recovered, rejected := [], [], [];
      ghost var before := failedTorrents;
      var ahead, gone := failedTorrents.Keys, {};
      while ahead != {}
        invariant ahead <= before.Keys && forall folder :: folder in order <==> folder in before && folder !in ahead
        invariant UnderWay(before, order, statuses, Pass(failedTorrents, gone), recovered, rejected)
        invariant Writing() == WithFates(old(Writing()), watchedFolders, recovered, rejected, setup)
        decreases ahead
      {
        var folder :| folder in ahead;
        gone, recovered, rejected := RetryNextFolder(folder, before, order, gone, statuses, old(Writing()), recovered, rejected);
        order, ahead := order + [folder], ahead - {folder};
      }
      FatesEnd(before, statuses, order, Pass(failedTorrents, gone), recovered, rejected);
      retryTimerActive := failedTorrents != map[];
    }

    /** One turn of the outer removeIf. */
    method RetryNextFolder(folder: string, ghost before: FailedTable, ghost order: seq<string>, gone: set<string>,
                           statuses: string -> FileStatus, ghost w: Written, ghost rs: seq<Recovered>, ghost js: seq<Rejected>)
        returns (goneNow: set<string>, ghost recovered: seq<Recovered>, ghost rejected: seq<Rejected>)
      requires UnderWay(before, order, statuses, Pass(failedTorrents, gone), rs, js) && folder in before && folder !in order
      requires Writing() == WithFates(w, watchedFolders, rs, js, setup)
      modifies this`failedTorrents, this`torrentsFound, this`filesRemoved, this`filesRejected
      ensures UnderWay(before, order + [folder], statuses, Pass(failedTorrents, goneNow), recovered, rejected)
      ensures Writing() == WithFates(w, watchedFolders, recovered, rejected, setup)
    {
      PassUnderWay(before, order, statuses, folder, "");
      ghost var p, found, lost := Pass(failedTorrents, gone), [], [];
      goneNow, found, lost := RetryOneFolder(folder, gone, statuses);
      UnderWayStep(before, order, statuses, p, folder, rs, js, found, lost);
      WithFatesConcat(w, watchedFolders, rs, js, found, lost, setup);
      recovered, rejected := rs + found, js + lost;
    }

    /** The inner removeIf, with what its predicate does to the files it erases. */
    method RetryOneFolder(folder: string, gone: set<string>, statuses: string -> FileStatus)
        returns (goneNow: set<string>, ghost recovered: seq<Recovered>, ghost rejected: seq<Rejected>)
      requires folder in failedTorrents
      modifies this`failedTorrents, this`torrentsFound, this`filesRemoved, this`filesRejected
      ensures Pass(failedTorrents, goneNow) == FolderRetried(Pass(old(failedTorrents), gone), folder, statuses)
      ensures FolderFates(folder, old(failedTorrents)[folder], Now(gone, statuses), recovered, rejected)
      ensures Writing() == WithFates(old(Writing()), watchedFolders, recovered, rejected, setup)
    {
      var entries, now := failedTorrents[folder], Now(gone, statuses);
      var left, erased := RemoveIf(entries, (file, count) => RetryEntry(now(file), count));
      goneNow, recovered, rejected := HandleErased(folder, entries, erased, now);
      assert left == RetryFolder(entries, now) && goneNow == Consumed(entries, now);
      failedTorrents := if left == map[] then failedTorrents - {folder} else failedTorrents[folder := left];
      goneNow := gone + goneNow;
    }

    method HandleErased(folder: string, ghost entries: map<string, nat>, erased: seq<string>, now: string -> FileStatus)
        returns (consumed: set<string>, ghost recovered: seq<Recovered>, ghost rejected: seq<Rejected>)
      requires Distinct(erased) && forall file :: file in erased <==> file in entries && RetryEntry(now(file), entries[file]).None?
      modifies this`torrentsFound, this`filesRemoved, this`filesRejected
      ensures consumed == Consumed(entries, now) && FolderFates(folder, entries, now, recovered, rejected)
      ensures Writing() == WithFates(old(Writing()), watchedFolders, recovered, rejected, setup)
    {
      consumed, recovered, rejected := {}, [], [];
      for i := 0 to |erased|
        invariant Handled(folder, entries, now, erased[..i], consumed, recovered, rejected)
        invariant Writing() == WithFates(old(Writing()), watchedFolders, recovered, rejected, setup)
      {
        var file := erased[i];
        HandleErasedFile(folder, file, now(file));
        ghost var r, j := FoundAs(folder, file, now(file)), GivenUpAs(folder, file, now(file));
        HandledStep(folder, entries, now, erased, i, consumed, recovered, rejected);
        WithFatesConcat(old(Writing()), watchedFolders, recovered, rejected, r, j, setup);
        recovered, rejected, consumed := recovered + r, rejected + j, consumed + ConsumedAs(file, now(file));
      }
      assert erased[..|erased|] == erased;
    }

    method HandleErasedFile(folder: string, file: string, status: FileStatus)
      modifies this`torrentsFound, this`filesRemoved, this`filesRejected
      ensures Writing() == WithFates(old(Writing()), watchedFolders, FoundAs(folder, file, status), GivenUpAs(folder, file, status), setup)
    {
      match status {
        case Missing =>
        case Loads(descriptor) =>
          var params := OptionsIn(watchedFolders, folder).addTorrentParams;
          torrentsFound := torrentsFound + [Found(descriptor, RetryParams(folder, file, params, setup))];
          filesRemoved := filesRemoved + [file];
        case Broken =>
          filesRejected := filesRejected + [file];
      }
    }
  }

  lemma {:induction false} ScannedAllSnoc(s: State, paths: seq<string>, path: string, trees: string -> Folder, setup: Setup)
    ensures ScannedAll(s, paths + [path], trees, setup) == Scanned(ScannedAll(s, paths, trees, setup), path, trees(path), setup)
    decreases |paths|
  {
    if |paths| == 0 {
      assert paths + [path] == [path];
      assert ScannedAll(Scanned(s, path, trees(path), setup), [path][1..], trees, setup) == Scanned(s, path, trees(path), setup);
    } else {
      assert (paths + [path])[1..] == paths[1..] + [path];
      ScannedAllSnoc(Scanned(s, paths[0], trees(paths[0]), setup), paths[1..], path, trees, setup);
    }
  }
}
