/** The files that scans report and remove: those of the directories they visit, each once. */
module FolderReports {
  import opened Strings
  import opened Paths
  import opened Algorithm
  import opened FolderWalk
  import opened FolderWorker
  import opened FolderRuns
  import opened FolderRemovals
  import opened FolderWatcher

  // ----- The files that scans report and remove -----

  /** Of the files of a directory from the i-th on. */
  function FilesRemoved(v: Visit, i: nat): seq<string>
    requires i <= |v.folder.files|
    decreases |v.folder.files| - i
  {
    if i == |v.folder.files| then []
    else (if IsConsumed(v.folder.files[i]) then [Append(v.path, v.folder.files[i].name)] else []) + FilesRemoved(v, i + 1)
  }

  function VisitsRemoved(visits: seq<Visit>): seq<string> {
    if |visits| == 0 then [] else FilesRemoved(visits[0], 0) + VisitsRemoved(visits[1..])
  }

  lemma {:induction false} FilesHandledRemove(o: Outcome, folder: string, v: Visit, i: nat, params: AddTorrentParams)
    requires i <= |v.folder.files|
    ensures FilesHandled(o, folder, v, i, params).removed == o.removed + FilesRemoved(v, i)
    decreases |v.folder.files| - i
  {
    if i < |v.folder.files| {
      var next := FileHandled(o, folder, v.path, v.folder.files[i], params);
      FilesHandledRemove(next, folder, v, i + 1, params);
      var here := if IsConsumed(v.folder.files[i]) then [Append(v.path, v.folder.files[i].name)] else [];
      assert next.removed == o.removed + here;
      Regroup(next.removed, o.removed, here, FilesRemoved(v, i + 1));
    }
  }

  lemma {:induction false} VisitsHandledRemove(o: Outcome, folder: string, p: AddTorrentParams, visits: seq<Visit>, setup: Setup)
    ensures VisitsHandled(o, folder, p, visits, setup).removed == o.removed + VisitsRemoved(visits)
    decreases |visits|
  {
    if |visits| > 0 {
      var next := VisitHandled(o, folder, p, visits[0], setup);
      FilesHandledRemove(o, folder, visits[0], 0, ScanParams(folder, visits[0].path, p, setup));
      VisitsHandledRemove(next, folder, p, visits[1..], setup);
      Regroup(next.removed, o.removed, FilesRemoved(visits[0], 0), VisitsRemoved(visits[1..]));
    }
  }

  lemma {:induction false} VisitsRemovedConcat(a: seq<Visit>, b: seq<Visit>)
    ensures VisitsRemoved(a + b) == VisitsRemoved(a) + VisitsRemoved(b)
    decreases |a|
  {
    if |a| == 0 {
      assert a + b == b;
    } else {
      assert (a + b)[1..] == a[1..] + b;
      VisitsRemovedConcat(a[1..], b);
    }
  }

  /** A scan removes the consumed files of the directories it visits. */
  lemma ScanRemoves(o: Outcome, s: State, path: string, tree: Folder, setup: Setup)
    ensures ScanOutcome(o, s, path, tree, setup).removed == o.removed + VisitsRemoved(ScanVisits(s, path, tree))
  {
    VisitsHandledRemove(o, path, OptionsOf(s, path).addTorrentParams, ScanVisits(s, path, tree), setup);
  }

  /** A poll removes the consumed files of all the directories it handles. */
  lemma {:induction false} PollRemoves(o: Outcome, s: State, order: seq<string>, trees: string -> Folder, setup: Setup)
    ensures PollOutcome(o, s, order, trees, setup).removed == o.removed + VisitsRemoved(PollVisits(s, order, trees))
    decreases |order|
  {
    if |order| > 0 {
      var front, last := order[..|order| - 1], order[|order| - 1];
      var before, visits := PollOutcome(o, s, front, trees, setup), PollVisits(s, front, trees);
      PollRemoves(o, s, front, trees, setup);
      ScanRemoves(before, s, last, trees(last), setup);
      VisitsRemovedConcat(visits, ScanVisits(s, last, trees(last)));
      Regroup(before.removed, o.removed, VisitsRemoved(visits), VisitsRemoved(ScanVisits(s, last, trees(last))));
    }
  }

  // ----- No file twice -----

  predicate IsPlace(path: string) {
    IsAbsolute(path) && IsClean(path)
  }

  /** The names in a directory are ordinary and do not repeat. */
  predicate NamesDiffer(folder: Folder) {
    && (forall i :: 0 <= i < |folder.files| ==> IsName(folder.files[i].name))
    && (forall i, j :: 0 <= i < j < |folder.files| ==> folder.files[i].name != folder.files[j].name)
  }

  /** Two files with one path are one file. */
  lemma SameFile(a: string, m: string, b: string, n: string)
    requires IsPlace(a) && IsPlace(b) && IsName(m) && IsName(n) && Append(a, m) == Append(b, n)
    ensures a == b && m == n
  {
    ChildLocates(a, m);
    ChildLocates(b, n);
    var l, r := Below(Locate(a), [m]), Below(Locate(b), [n]);
    assert l == r && l.names[|l.names| - 1] == m && r.names[|r.names| - 1] == n;
    assert Locate(a).names == l.names[..|l.names| - 1] && Locate(b).names == r.names[..|r.names| - 1];
    SameLocation(a, b);
  }

  lemma {:induction false} RemovedIsFile(v: Visit, i: nat, path: string) returns (k: nat)
    requires i <= |v.folder.files| && path in FilesRemoved(v, i)
    ensures i <= k < |v.folder.files| && path == Append(v.path, v.folder.files[k].name)
    decreases |v.folder.files| - i
  {
    if IsConsumed(v.folder.files[i]) && path == Append(v.path, v.folder.files[i].name) {
      k := i;
    } else {
      k := RemovedIsFile(v, i + 1, path);
    }
  }

  lemma {:induction false} RemovedIsVisited(visits: seq<Visit>, path: string) returns (i: nat, k: nat)
    requires path in VisitsRemoved(visits)
    ensures i < |visits| && k < |visits[i].folder.files| && path == Append(visits[i].path, visits[i].folder.files[k].name)
    decreases |visits|
  {
    if path in FilesRemoved(visits[0], 0) {
      i := 0;
      k := RemovedIsFile(visits[0], 0, path);
    } else {
      i, k := RemovedIsVisited(visits[1..], path);
      i := i + 1;
    }
  }

  lemma {:induction false} FilesRemovedOnce(v: Visit, i: nat)
    requires i <= |v.folder.files| && IsPlace(v.path) && NamesDiffer(v.folder)
    ensures Distinct(FilesRemoved(v, i))
    decreases |v.folder.files| - i
  {
    if i < |v.folder.files| {
      FilesRemovedOnce(v, i + 1);
      var path := Append(v.path, v.folder.files[i].name);
      if path in FilesRemoved(v, i + 1) {
        var k := RemovedIsFile(v, i + 1, path);
        SameFile(v.path, v.folder.files[i].name, v.path, v.folder.files[k].name);
      }
    }
  }

  lemma ConcatDistinct<T>(a: seq<T>, b: seq<T>)
    requires Distinct(a) && Distinct(b) && forall x :: x in a ==> x !in b
    ensures Distinct(a + b)
  {
    forall i, j | 0 <= i < j < |a + b| ensures (a + b)[i] != (a + b)[j] {
      if i < |a| <= j {
        assert a[i] in a && b[j - |a|] in b;
      }
    }
  }

  /** The places of the visits differ, and the names at each place do. */
  ghost predicate AreFiles(visits: seq<Visit>) {
    AllDiffer(visits) && forall k :: 0 <= k < |visits| ==> IsPlace(visits[k].path) && NamesDiffer(visits[k].folder)
  }

  lemma {:induction false} VisitsRemovedOnce(visits: seq<Visit>)
    requires AreFiles(visits)
    ensures Distinct(VisitsRemoved(visits))
    decreases |visits|
  {
    if |visits| > 0 {
      var first, rest := visits[0], visits[1..];
      assert AreFiles(rest) && IsPlace(first.path) && NamesDiffer(first.folder);
      VisitsRemovedOnce(rest);
      FilesRemovedOnce(first, 0);
      forall path | path in FilesRemoved(first, 0) ensures path !in VisitsRemoved(rest) {
        if path in VisitsRemoved(rest) {
          var k := RemovedIsFile(first, 0, path);
          var i, m := RemovedIsVisited(rest, path);
          assert rest[i] == visits[i + 1];
          SameFile(first.path, first.folder.files[k].name, rest[i].path, rest[i].folder.files[m].name);
        }
      }
      ConcatDistinct(FilesRemoved(first, 0), VisitsRemoved(rest));
    }
  }
}
