/** What scans find: every torrent in the directories they visit, in order, and nothing else. */
module FolderFinds {
  import opened Strings
  import opened Paths
  import opened FolderWalk
  import opened FolderWorker
  import opened FolderRuns
  import opened FolderParams
  import opened FolderReports
  import opened FolderWatcher

  // ----- Where torrents are -----

  /** A line of a file of a visited directory; a torrent file counts as one line. */
  datatype Position = Position(visit: nat, file: nat, line: nat) {
    predicate Before(other: Position) {
      || visit < other.visit
      || (visit == other.visit && file < other.file)
      || (visit == other.visit && file == other.file && line < other.line)
    }
  }

  /** The file can be read: it loads, or it is a magnet file that opens and is not too big. */
  predicate Readable(e: Entry) {
    match e
    case TorrentFile(_, loaded) => loaded.Some?
    case MagnetFile(_, links) => links.Some?
  }

  /** This line of the file is a torrent. */
  predicate HoldsAt(e: Entry, line: nat, d: Descriptor) {
    match e
    case TorrentFile(_, loaded) => line == 0 && loaded == Some(d)
    case MagnetFile(_, links) => links.Some? && line < |links.value| && links.value[line] == Some(d)
  }

  /** Where reports come from: the watched folder that is scanned, its parameters and the directories visited. */
  datatype Scan = Scan(folder: string, params: AddTorrentParams, visits: seq<Visit>, setup: Setup) {
    predicate Exists(p: Position) {
      p.visit < |visits| && p.file < |visits[p.visit].folder.files|
    }

    predicate Holds(p: Position, d: Descriptor) {
      Exists(p) && HoldsAt(FileAt(p), p.line, d)
    }

    /** The report of a torrent: with the parameters of the directory it is in. */
    function ReportOf(p: Position, d: Descriptor): Found
      requires p.visit < |visits|
    {
      Found(d, ParamsAt(p.visit))
    }

    function ParamsAt(k: nat): AddTorrentParams
      requires k < |visits|
    {
      ScanParams(folder, visits[k].path, params, setup)
    }

    function FileAt(p: Position): Entry
      requires Exists(p)
    {
      visits[p.visit].folder.files[p.file]
    }
  }

  /** The reports are those of the torrents before a position, each once and in their order. */
  ghost predicate AreReports(found: seq<Found>, at: seq<Position>, scan: Scan, bound: Position) {
    && |found| == |at|
    && (forall j :: 0 <= j < |at| ==>
          at[j].Before(bound) && scan.Holds(at[j], found[j].descriptor) && found[j] == scan.ReportOf(at[j], found[j].descriptor))
    && (forall i, j :: 0 <= i < j < |at| ==> at[i].Before(at[j]))
    && (forall p: Position, d: Descriptor :: p.Before(bound) && scan.Holds(p, d) ==> p in at)
  }

  function EndOf(visits: seq<Visit>): Position {
    Position(|visits|, 0, 0)
  }

  // ----- One file -----

  lemma ReportOne(found: seq<Found>, at: seq<Position>, scan: Scan, p: Position, d: Descriptor)
    requires AreReports(found, at, scan, p) && scan.Holds(p, d)
    ensures AreReports(found + [scan.ReportOf(p, d)], at + [p], scan, p.(line := p.line + 1))
  {
    var next := p.(line := p.line + 1);
    forall q: Position, e: Descriptor | q.Before(next) && scan.Holds(q, e) ensures q in at + [p] {
      assert q == p || q.Before(p);
    }
  }

  /** Moving on over lines that hold no torrent. */
  lemma ReportNone(found: seq<Found>, at: seq<Position>, scan: Scan, p: Position, next: Position)
    requires AreReports(found, at, scan, p) && (p == next || p.Before(next))
    requires forall q: Position, d: Descriptor :: q.Before(next) && scan.Holds(q, d) ==> q.Before(p)
    ensures AreReports(found, at, scan, next)
  {
    forall j | 0 <= j < |at| ensures at[j].Before(next) {
      assert at[j].Before(p);
    }
  }

  /** One line of a magnet file. */
  lemma ReportLine(found: seq<Found>, at: seq<Position>, scan: Scan, p: Position, link: Option<Descriptor>) returns (more: seq<Position>)
    requires AreReports(found, at, scan, p) && scan.Exists(p) && forall d :: scan.Holds(p, d) <==> link == Some(d)
    ensures AreReports(found + (if link.Some? then [scan.ReportOf(p, link.value)] else []), more, scan, p.(line := p.line + 1))
  {
    if link.Some? {
      ReportOne(found, at, scan, p, link.value);
      more := at + [p];
    } else {
      more := at;
      NoTorrentThere(scan, p);
      ReportNone(found, at, scan, p, p.(line := p.line + 1));
      assert found + [] == found;
    }
  }

  lemma ParsedSnoc(links: seq<Option<Descriptor>>, n: nat, params: AddTorrentParams)
    requires n < |links|
    ensures WithParams(Parsed(links[..n + 1]), params)
            == WithParams(Parsed(links[..n]), params) + if links[n].Some? then [Found(links[n].value, params)] else []
  {
    assert links[..n + 1][..n] == links[..n];
  }

  lemma ReportLines(found: seq<Found>, at: seq<Position>, scan: Scan, p: Position, links: seq<Option<Descriptor>>, n: nat)
      returns (more: seq<Position>)
    requires AreReports(found, at, scan, p) && scan.Exists(p) && p.line == 0 && n <= |links|
    requires scan.FileAt(p).MagnetFile? && scan.FileAt(p).links == Some(links)
    ensures AreReports(found + WithParams(Parsed(links[..n]), scan.ParamsAt(p.visit)), more, scan, p.(line := n))
  {
    var params := scan.ParamsAt(p.visit);
    if n == 0 {
      more := at;
      assert found + WithParams(Parsed(links[..0]), params) == found;
    } else {
      var before := ReportLines(found, at, scan, p, links, n - 1);
      var done := found + WithParams(Parsed(links[..n - 1]), params);
      var last := if links[n - 1].Some? then [Found(links[n - 1].value, params)] else [];
      ParsedSnoc(links, n - 1, params);
      Regroup(done, found, WithParams(Parsed(links[..n - 1]), params), last);
      more := ReportLine(done, before, scan, p.(line := n - 1), links[n - 1]);
    }
  }

  lemma NoTorrentThere(scan: Scan, p: Position)
    requires forall d :: !scan.Holds(p, d)
    ensures forall q: Position, d: Descriptor :: q.Before(p.(line := p.line + 1)) && scan.Holds(q, d) ==> q.Before(p)
  {
    forall q: Position, d: Descriptor | q.Before(p.(line := p.line + 1)) && scan.Holds(q, d) ensures q.Before(p) {
      assert q != p;
    }
  }

  /** The rest of a file holds nothing. */
  lemma FileEnds(found: seq<Found>, at: seq<Position>, scan: Scan, p: Position)
    requires AreReports(found, at, scan, p) && scan.Exists(p)
    requires forall line: nat, d: Descriptor :: line >= p.line ==> !HoldsAt(scan.FileAt(p), line, d)
    ensures AreReports(found, at, scan, Position(p.visit, p.file + 1, 0))
  {
    var next := Position(p.visit, p.file + 1, 0);
    forall q: Position, d: Descriptor | q.Before(next) && scan.Holds(q, d) ensures q.Before(p) {
      assert q.visit == p.visit && q.file == p.file ==> HoldsAt(scan.FileAt(p), q.line, d);
    }
    ReportNone(found, at, scan, p, next);
  }

  lemma ReportFile(found: seq<Found>, at: seq<Position>, scan: Scan, p: Position) returns (more: seq<Position>)
    requires AreReports(found, at, scan, p) && scan.Exists(p) && p.line == 0
    ensures AreReports(found + WithParams(Descriptors(scan.FileAt(p)), scan.ParamsAt(p.visit)),
                       more, scan, Position(p.visit, p.file + 1, 0))
  {
    var e, params := scan.FileAt(p), scan.ParamsAt(p.visit);
    match e
    case TorrentFile(_, loaded) =>
      if loaded.Some? {
        ReportOne(found, at, scan, p, loaded.value);
        more := at + [p];
        assert WithParams(Descriptors(e), params) == [scan.ReportOf(p, loaded.value)];
        FileEnds(found + [scan.ReportOf(p, loaded.value)], more, scan, p.(line := 1));
      } else {
        more := at;
        assert found + WithParams(Descriptors(e), params) == found;
        FileEnds(found, at, scan, p);
      }
    case MagnetFile(_, links) =>
      if links.Some? {
        more := ReportLines(found, at, scan, p, links.value, |links.value|);
        assert links.value[..|links.value|] == links.value;
        FileEnds(found + WithParams(Descriptors(e), params), more, scan, p.(line := |links.value|));
      } else {
        more := at;
        assert found + WithParams(Descriptors(e), params) == found;
        FileEnds(found, at, scan, p);
      }
  }

  // ----- Directories -----

  lemma {:induction false} ReportFiles(o: Outcome, base: seq<Found>, found: seq<Found>, at: seq<Position>, scan: Scan, k: nat, i: nat)
      returns (news: seq<Found>, more: seq<Position>)
    requires k < |scan.visits| && i <= |scan.visits[k].folder.files| && o.found == base + found
    requires AreReports(found, at, scan, Position(k, i, 0))
    ensures FilesHandled(o, scan.folder, scan.visits[k], i, scan.ParamsAt(k)).found == base + news
    ensures AreReports(news, more, scan, Position(k + 1, 0, 0))
    decreases |scan.visits[k].folder.files| - i
  {
    var v := scan.visits[k];
    if i == |v.folder.files| {
      news, more := found, at;
      ReportNone(found, at, scan, Position(k, i, 0), Position(k + 1, 0, 0));
    } else {
      var p := Position(k, i, 0);
      var here := WithParams(Descriptors(v.folder.files[i]), scan.ParamsAt(k));
      var next := FileHandled(o, scan.folder, v.path, v.folder.files[i], scan.ParamsAt(k));
      var there := ReportFile(found, at, scan, p);
      Regroup(o.found, base, found, here);
      news, more := ReportFiles(next, base, found + here, there, scan, k, i + 1);
    }
  }

  lemma {:induction false} ReportVisits(o: Outcome, base: seq<Found>, found: seq<Found>, at: seq<Position>, scan: Scan, k: nat)
      returns (news: seq<Found>, more: seq<Position>)
    requires k <= |scan.visits| && o.found == base + found && AreReports(found, at, scan, Position(k, 0, 0))
    ensures VisitsHandled(o, scan.folder, scan.params, scan.visits[k..], scan.setup).found == base + news
    ensures AreReports(news, more, scan, EndOf(scan.visits))
    decreases |scan.visits| - k
  {
    if k == |scan.visits| {
      news, more := found, at;
    } else {
      assert scan.visits[k..][0] == scan.visits[k] && scan.visits[k..][1..] == scan.visits[k + 1..];
      var next := VisitHandled(o, scan.folder, scan.params, scan.visits[k], scan.setup);
      var now, there := ReportFiles(o, base, found, at, scan, k, 0);
      news, more := ReportVisits(next, base, now, there, scan, k + 1);
    }
  }

  function ScanOf(s: State, path: string, tree: Folder, setup: Setup): Scan {
    Scan(path, OptionsOf(s, path).addTorrentParams, ScanVisits(s, path, tree), setup)
  }

  /**
    A scan reports every torrent file that loads and every valid line of a readable magnet file in the
    directories it visits, in order, with the parameters of its directory, and it reports nothing else.
  */
  lemma ScanReports(o: Outcome, s: State, path: string, tree: Folder, setup: Setup) returns (news: seq<Found>, at: seq<Position>)
    ensures ScanOutcome(o, s, path, tree, setup).found == o.found + news
    ensures AreReports(news, at, ScanOf(s, path, tree, setup), EndOf(ScanVisits(s, path, tree)))
  {
    var scan := ScanOf(s, path, tree, setup);
    assert scan.visits[0..] == scan.visits && o.found + [] == o.found;
    news, at := ReportVisits(o, o.found, [], [], scan, 0);
  }

  function Flatten(parts: seq<seq<Found>>): seq<Found> {
    if |parts| == 0 then [] else Flatten(parts[..|parts| - 1]) + parts[|parts| - 1]
  }

  /** Each part is what the scan of the folder of the same number reports. */
  ghost predicate AreScans(parts: seq<seq<Found>>, s: State, order: seq<string>, trees: string -> Folder, setup: Setup) {
    && |parts| == |order|
    && forall k :: 0 <= k < |order| ==> IsScan(parts[k], s, order[k], trees(order[k]), setup)
  }

  ghost predicate IsScan(news: seq<Found>, s: State, path: string, tree: Folder, setup: Setup) {
    exists at :: AreReports(news, at, ScanOf(s, path, tree, setup), EndOf(ScanVisits(s, path, tree)))
  }

  /** A poll reports what the scans of its folders report, one folder after the other. */
  lemma {:induction false} PollReports(o: Outcome, s: State, order: seq<string>, trees: string -> Folder, setup: Setup)
      returns (parts: seq<seq<Found>>)
    ensures PollOutcome(o, s, order, trees, setup).found == o.found + Flatten(parts)
    ensures AreScans(parts, s, order, trees, setup)
    decreases |order|
  {
    if |order| == 0 {
      parts := [];
      assert o.found + [] == o.found;
    } else {
      var front, last := order[..|order| - 1], order[|order| - 1];
      var before := PollOutcome(o, s, front, trees, setup);
      var earlier := PollReports(o, s, front, trees, setup);
      var news, at := ScanReports(before, s, last, trees(last), setup);
      parts := earlier + [news];
      assert parts[..|earlier|] == earlier;
      assert IsScan(news, s, last, trees(last), setup);
      Regroup(before.found, o.found, Flatten(earlier), news);
    }
  }

  /** A poll leaves the same failures as its scans one by one. */
  lemma {:induction false} PollFails(o: Outcome, s: State, order: seq<string>, trees: string -> Folder, setup: Setup)
    requires o.failed == s.failed
    ensures PollOutcome(o, s, order, trees, setup).failed == ScannedAll(s, order, trees, setup).failed
    decreases |order|
  {
    if |order| > 0 {
      var front, last := order[..|order| - 1], order[|order| - 1];
      assert front + [last] == order;
      PollFails(o, s, front, trees, setup);
      ScannedAllSnoc(s, front, last, trees, setup);
      ScannedAllKeepsFolders(s, front, trees, setup);
      var t, before := ScannedAll(s, front, trees, setup), PollOutcome(o, s, front, trees, setup);
      VisitsFailedOnly(before, Outcome(t.failed, [], []), last, OptionsOf(s, last).addTorrentParams, ScanVisits(s, last, trees(last)), setup);
    }
  }

  // ----- What is removed was reported -----

  lemma {:induction false} FileRemovedExactly(v: Visit, i: nat, path: string)
    requires i <= |v.folder.files|
    ensures path in FilesRemoved(v, i)
            <==> exists k :: i <= k < |v.folder.files| && Readable(v.folder.files[k]) && path == Append(v.path, v.folder.files[k].name)
    decreases |v.folder.files| - i
  {
    if i < |v.folder.files| {
      FileRemovedExactly(v, i + 1, path);
    }
  }

  /** The file with this path, in one of the directories, can be read. */
  ghost predicate IsReadable(visits: seq<Visit>, path: string) {
    exists k: nat, i: nat :: IsReadableAt(visits, path, k, i)
  }

  predicate IsReadableAt(visits: seq<Visit>, path: string, k: nat, i: nat) {
    && k < |visits| && i < |visits[k].folder.files|
    && Readable(visits[k].folder.files[i]) && path == Append(visits[k].path, visits[k].folder.files[i].name)
  }

  /** Exactly the files that can be read are removed. */
  lemma {:induction false} RemovedExactly(visits: seq<Visit>, path: string)
    ensures path in VisitsRemoved(visits) <==> IsReadable(visits, path)
    decreases |visits|
  {
    if |visits| > 0 {
      var rest := visits[1..];
      FileRemovedExactly(visits[0], 0, path);
      RemovedExactly(rest, path);
      if path in FilesRemoved(visits[0], 0) {
        var i :| 0 <= i < |visits[0].folder.files| && Readable(visits[0].folder.files[i])
                 && path == Append(visits[0].path, visits[0].folder.files[i].name);
        assert IsReadableAt(visits, path, 0, i);
      }
      if IsReadable(rest, path) {
        var k: nat, i: nat :| IsReadableAt(rest, path, k, i);
        assert IsReadableAt(visits, path, k + 1, i);
      }
      if IsReadable(visits, path) {
        var k: nat, i: nat :| IsReadableAt(visits, path, k, i);
        assert k > 0 ==> IsReadableAt(rest, path, k - 1, i);
      }
    }
  }

  /** Whatever a file held that a scan removes, the scan reported it. */
  lemma RemovedWasReported(o: Outcome, s: State, path: string, tree: Folder, setup: Setup, file: string)
      returns (news: seq<Found>, k: nat, i: nat)
    requires file in VisitsRemoved(ScanVisits(s, path, tree))
    ensures ScanOutcome(o, s, path, tree, setup).found == o.found + news
    ensures IsReadableAt(ScanVisits(s, path, tree), file, k, i)
    ensures forall line, d :: HoldsAt(ScanVisits(s, path, tree)[k].folder.files[i], line, d)
                              ==> Found(d, ScanOf(s, path, tree, setup).ParamsAt(k)) in news
  {
    var visits, scan := ScanVisits(s, path, tree), ScanOf(s, path, tree, setup);
    RemovedExactly(visits, file);
    k, i :| IsReadableAt(visits, file, k, i);
    var at;
    news, at := ScanReports(o, s, path, tree, setup);
    forall line, d | HoldsAt(visits[k].folder.files[i], line, d) ensures Found(d, scan.ParamsAt(k)) in news {
      var p := Position(k, i, line);
      assert scan.Holds(p, d) && p.Before(EndOf(visits));
      var j :| 0 <= j < |at| && at[j] == p;
      OneTorrent(visits[k].folder.files[i], line, d, news[j].descriptor);
      assert news[j] == scan.ReportOf(p, d);
    }
  }

  lemma OneTorrent(e: Entry, line: nat, a: Descriptor, b: Descriptor)
    requires HoldsAt(e, line, a) && HoldsAt(e, line, b)
    ensures a == b
  {
  }

  // ----- What fails is recorded -----

  /** A torrent file with this path, in the directory, does not load. */
  predicate IsBrokenAt(v: Visit, file: string, i: nat) {
    && i < |v.folder.files| && v.folder.files[i].TorrentFile? && v.folder.files[i].loaded.None?
    && file == Append(v.path, v.folder.files[i].name)
  }

  ghost predicate BrokenFrom(v: Visit, file: string, i: nat) {
    exists j: nat :: i <= j && IsBrokenAt(v, file, j)
  }

  lemma BrokenNext(v: Visit, file: string, i: nat)
    ensures BrokenFrom(v, file, i) <==> IsBrokenAt(v, file, i) || BrokenFrom(v, file, i + 1)
  {
    if j: nat :| i <= j && IsBrokenAt(v, file, j) {
      assert j == i || i + 1 <= j;
    }
  }

  ghost predicate HasBroken(visits: seq<Visit>, file: string) {
    exists k: nat, i: nat :: k < |visits| && IsBrokenAt(visits[k], file, i)
  }

  lemma RecordCounts(t: FailedTable, watchedFolder: string, recorded: string, folder: string, file: string)
    ensures Count(Record(t, watchedFolder, recorded), folder, file).Some?
            <==> Count(t, folder, file).Some? || (folder == watchedFolder && file == recorded)
  {
  }

  lemma {:induction false} FilesRecorded(o: Outcome, watchedFolder: string, v: Visit, i: nat, params: AddTorrentParams, folder: string, file: string)
    requires i <= |v.folder.files|
    ensures Count(FilesHandled(o, watchedFolder, v, i, params).failed, folder, file).Some?
            <==> Count(o.failed, folder, file).Some? || (folder == watchedFolder && BrokenFrom(v, file, i))
    decreases |v.folder.files| - i
  {
    if i < |v.folder.files| {
      RecordCounts(o.failed, watchedFolder, Append(v.path, v.folder.files[i].name), folder, file);
      FilesRecorded(FileHandled(o, watchedFolder, v.path, v.folder.files[i], params), watchedFolder, v, i + 1, params, folder, file);
      BrokenNext(v, file, i);
    }
  }

  lemma {:induction false} VisitsRecorded(o: Outcome, watchedFolder: string, p: AddTorrentParams, visits: seq<Visit>, setup: Setup,
                                          folder: string, file: string)
    ensures Count(VisitsHandled(o, watchedFolder, p, visits, setup).failed, folder, file).Some?
            <==> Count(o.failed, folder, file).Some? || (folder == watchedFolder && HasBroken(visits, file))
    decreases |visits|
  {
    if |visits| > 0 {
      FilesRecorded(o, watchedFolder, visits[0], 0, ScanParams(watchedFolder, visits[0].path, p, setup), folder, file);
      VisitsRecorded(VisitHandled(o, watchedFolder, p, visits[0], setup), watchedFolder, p, visits[1..], setup, folder, file);
      BrokenFirst(visits, file);
    }
  }

  lemma BrokenFirst(visits: seq<Visit>, file: string)
    requires |visits| > 0
    ensures HasBroken(visits, file) <==> BrokenFrom(visits[0], file, 0) || HasBroken(visits[1..], file)
  {
    if k: nat, i: nat :| k < |visits| && IsBrokenAt(visits[k], file, i) {
      assert k > 0 ==> visits[1..][k - 1] == visits[k];
    }
    if k: nat, i: nat :| k < |visits[1..]| && IsBrokenAt(visits[1..][k], file, i) {
      assert visits[1..][k] == visits[k + 1];
    }
  }

  /** A scan records exactly the torrent files in the directories it visits that do not load, for its own folder. */
  lemma ScanRecords(s: State, path: string, tree: Folder, setup: Setup, folder: string, file: string)
    ensures Count(Scanned(s, path, tree, setup).failed, folder, file).Some?
            <==> Count(s.failed, folder, file).Some? || (folder == path && HasBroken(ScanVisits(s, path, tree), file))
  {
    VisitsRecorded(Outcome(s.failed, [], []), path, OptionsOf(s, path).addTorrentParams, ScanVisits(s, path, tree), setup, folder, file);
  }

  // ----- Which directories -----

  /** A scan goes into subfolders exactly for a folder that is watched as recursive. */
  lemma ScanVisitsExactly(s: State, path: string, tree: Folder, names: seq<string>)
    requires path != "" && WellFormed(tree) && HasDirectory(tree, names)
    ensures Visits(ScanVisits(s, path, tree), Descend(path, names))
            <==> names == [] || (path in s.watched && s.watched[path].recursive && Unwatched(path, names, s.watched.Keys))
  {
    WalkVisitsExactly(tree, path, s.watched.Keys, OptionsOf(s, path).recursive, names);
  }

  /** A poll handles the directories of all its folders. */
  lemma {:induction false} PollVisitsExactly(s: State, order: seq<string>, trees: string -> Folder, path: string)
    ensures Visits(PollVisits(s, order, trees), path)
            <==> exists folder :: folder in order && Visits(ScanVisits(s, folder, trees(folder)), path)
    decreases |order|
  {
    if |order| > 0 {
      var front, last := order[..|order| - 1], order[|order| - 1];
      var before, after := PollVisits(s, front, trees), ScanVisits(s, last, trees(last));
      PollVisitsExactly(s, front, trees, path);
      assert order == front + [last];
      if k :| 0 <= k < |before| && before[k].path == path {
        assert (before + after)[k].path == path;
      }
      if k :| 0 <= k < |after| && after[k].path == path {
        assert (before + after)[|before| + k].path == path;
      }
    }
  }

  // ----- What a retry reports -----

  /**
    A retry reports a torrent as a scan of its directory would have done, unless the file is directly in
    a folder under automatic management with a category.
  */
  lemma RetryReports(watched: map<string, Options>, folder: string, names: seq<string>, name: string, d: Descriptor, setup: Setup)
    requires IsAbsolute(folder) && AreNames(names) && IsName(name)
    ensures
      var directory, p := Descend(folder, names), OptionsIn(watched, folder).addTorrentParams;
      Report(watched, Recovered(folder, Append(directory, name), d), setup) == Found(d, ScanParams(folder, directory, p, setup))
      <==> !(names == [] && UsesAutoTMM(p, setup) && p.category != "")
  {
    RetryLikeScan(folder, names, name, OptionsIn(watched, folder).addTorrentParams, setup);
  }
}
