/** The walk over the tree below a watched folder: Worker::processFolder of torrentfileswatcher.cpp. */
module FolderWalk {
  import opened Strings
  import opened Paths

  // ----- Directory trees -----

  datatype Descriptor = Descriptor(id: string)

  /**
    A file with one of the two suffixes. `links` is None when a magnet file cannot be opened or is
    too big, otherwise what each of its lines parses to; `loaded` is what a torrent file loads to.
  */
  datatype Entry =
    | MagnetFile(name: string, links: Option<seq<Option<Descriptor>>>)
    | TorrentFile(name: string, loaded: Option<Descriptor>)

  datatype Folder = Folder(files: seq<Entry>, subfolders: seq<Subfolder>)
  datatype Subfolder = Subfolder(name: string, folder: Folder)

  /** Names of subfolders are ordinary and do not repeat. */
  predicate WellFormed(folder: Folder) {
    && (forall i :: 0 <= i < |folder.subfolders| ==> IsName(folder.subfolders[i].name) && WellFormed(folder.subfolders[i].folder))
    && (forall i, j :: 0 <= i < j < |folder.subfolders| ==> folder.subfolders[i].name != folder.subfolders[j].name)
  }

  /** `names` leads from the folder to a directory below it. */
  predicate HasDirectory(folder: Folder, names: seq<string>)
    decreases |names|
  {
    |names| == 0 || exists i :: 0 <= i < |folder.subfolders| && folder.subfolders[i].name == names[0]
                                && HasDirectory(folder.subfolders[i].folder, names[1..])
  }

  /** The path of the directory that the names lead to. */
  function Descend(path: string, names: seq<string>): string
    decreases |names|
  {
    if |names| == 0 then path else Descend(Append(path, names[0]), names[1..])
  }

  // ----- The walk -----

  datatype Visit = Visit(path: string, folder: Folder)

  /** The directories handled, in order: the folder itself, then its subfolders unless they are watched on their own. */
  function Walk(folder: Folder, path: string, watched: set<string>, recursive: bool): seq<Visit>
    decreases folder, 1, 0
  {
    [Visit(path, folder)] + if recursive then WalkSubfolders(folder, 0, path, watched) else []
  }

  function WalkSubfolders(folder: Folder, i: nat, path: string, watched: set<string>): seq<Visit>
    requires i <= |folder.subfolders|
    decreases folder, 0, |folder.subfolders| - i
  {
    if i == |folder.subfolders| then []
    else
      var child := Append(path, folder.subfolders[i].name);
      (if child in watched then [] else Walk(folder.subfolders[i].folder, child, watched, true))
      + WalkSubfolders(folder, i + 1, path, watched)
  }

  ghost predicate Visits(visits: seq<Visit>, path: string) {
    exists k :: 0 <= k < |visits| && visits[k].path == path
  }

  /** No directory on the way, other than the start, is watched. */
  predicate Unwatched(path: string, names: seq<string>, watched: set<string>) {
    forall j :: 0 < j <= |names| ==> Descend(path, names[..j]) !in watched
  }

  lemma VisitsConcat(a: seq<Visit>, b: seq<Visit>, path: string)
    ensures Visits(a + b, path) <==> Visits(a, path) || Visits(b, path)
  {
    if Visits(a, path) {
      var k :| 0 <= k < |a| && a[k].path == path;
      assert (a + b)[k].path == path;
    }
    if Visits(b, path) {
      var k :| 0 <= k < |b| && b[k].path == path;
      assert (a + b)[|a| + k].path == path;
    }
  }

  lemma ChildLocates(path: string, name: string)
    requires path != "" && IsName(name)
    ensures Append(path, name) != "" && IsAbsolute(Append(path, name)) == IsAbsolute(path)
    ensures Locate(Append(path, name)) == Below(Locate(path), [name])
    ensures IsClean(Append(path, name))
  {
    AppendName(path, name);
    LocateValid(path);
    LocateRendered(IsAbsolute(path), Below(Locate(path), [name]));
  }

  lemma {:induction false} DescendLocates(path: string, names: seq<string>)
    requires path != "" && AreNames(names)
    ensures Descend(path, names) != ""
    ensures Locate(Descend(path, names)) == Below(Locate(path), names)
    ensures IsAbsolute(Descend(path, names)) == IsAbsolute(path)
    ensures IsClean(path) ==> IsClean(Descend(path, names))
    decreases |names|
  {
    BelowSteps(Locate(path), names);
    if |names| > 0 {
      ChildLocates(path, names[0]);
      DescendLocates(Append(path, names[0]), names[1..]);
    }
  }

  function Below(l: Location, names: seq<string>): Location {
    Location(l.ups, l.names + names)
  }

  lemma BelowSteps(l: Location, names: seq<string>)
    ensures Below(l, names) == if |names| == 0 then l else Below(Below(l, [names[0]]), names[1..])
  {
  }

  lemma DescendStep(path: string, names: seq<string>, j: nat)
    requires 0 < j <= |names|
    ensures Descend(path, names[..j]) == Descend(Append(path, names[0]), names[1..][..j - 1])
  {
    assert names[..j][1..] == names[1..][..j - 1];
  }

  lemma UnwatchedStep(path: string, names: seq<string>, watched: set<string>)
    requires |names| > 0
    ensures Unwatched(path, names, watched)
            <==> Append(path, names[0]) !in watched && Unwatched(Append(path, names[0]), names[1..], watched)
  {
    var child := Append(path, names[0]);
    DescendStep(path, names, 1);
    forall j | 0 < j <= |names[1..]|
      ensures Descend(path, names[..j + 1]) == Descend(child, names[1..][..j])
    {
      DescendStep(path, names, j + 1);
    }
    if Append(path, names[0]) !in watched && Unwatched(child, names[1..], watched) {
      forall j | 0 < j <= |names|
        ensures Descend(path, names[..j]) !in watched
      {
        DescendStep(path, names, j);
        assert j > 1 ==> Descend(child, names[1..][..j - 1]) !in watched;
      }
    }
  }

  /** Everything visited lies below the start, in the tree, and not behind a watched folder. */
  lemma {:induction false} VisitedIsUnwatched(folder: Folder, path: string, watched: set<string>, recursive: bool, k: nat)
      returns (names: seq<string>)
    requires WellFormed(folder) && k < |Walk(folder, path, watched, recursive)|
    ensures AreNames(names) && HasDirectory(folder, names)
    ensures Walk(folder, path, watched, recursive)[k].path == Descend(path, names)
    ensures names == [] || (recursive && Unwatched(path, names, watched))
    decreases folder, 1, 0
  {
    if k == 0 {
      names := [];
    } else {
      var i, rest := VisitedInSubfolder(folder, 0, path, watched, k - 1);
      names := [folder.subfolders[i].name] + rest;
      assert names[1..] == rest;
      UnwatchedStep(path, names, watched);
    }
  }

  lemma {:induction false} VisitedInSubfolder(folder: Folder, i: nat, path: string, watched: set<string>, k: nat)
      returns (at: nat, names: seq<string>)
    requires i <= |folder.subfolders| && WellFormed(folder) && k < |WalkSubfolders(folder, i, path, watched)|
    ensures i <= at < |folder.subfolders| && AreNames(names) && HasDirectory(folder.subfolders[at].folder, names)
    ensures var child := Append(path, folder.subfolders[at].name);
      && child !in watched && Unwatched(child, names, watched)
      && WalkSubfolders(folder, i, path, watched)[k].path == Descend(child, names)
    decreases folder, 0, |folder.subfolders| - i
  {
    var child := Append(path, folder.subfolders[i].name);
    var first := if child in watched then [] else Walk(folder.subfolders[i].folder, child, watched, true);
    if k < |first| {
      at := i;
      names := VisitedIsUnwatched(folder.subfolders[i].folder, child, watched, true, k);
    } else {
      at, names := VisitedInSubfolder(folder, i + 1, path, watched, k - |first|);
    }
  }

  /** Every directory of the tree that is not behind a watched folder is visited. */
  lemma {:induction false} UnwatchedIsVisited(folder: Folder, path: string, watched: set<string>, recursive: bool, names: seq<string>)
    requires HasDirectory(folder, names)
    requires names == [] || (recursive && Unwatched(path, names, watched))
    ensures Visits(Walk(folder, path, watched, recursive), Descend(path, names))
    decreases folder, 1, 0
  {
    if names == [] {
      assert Walk(folder, path, watched, recursive)[0].path == path;
    } else {
      var i :| 0 <= i < |folder.subfolders| && folder.subfolders[i].name == names[0]
               && HasDirectory(folder.subfolders[i].folder, names[1..]);
      UnwatchedStep(path, names, watched);
      UnwatchedIsVisited(folder.subfolders[i].folder, Append(path, names[0]), watched, true, names[1..]);
      SubfolderVisits(folder, 0, i, path, watched, Descend(path, names));
      VisitsConcat([Visit(path, folder)], WalkSubfolders(folder, 0, path, watched), Descend(path, names));
    }
  }

  lemma {:induction false} SubfolderVisits(folder: Folder, i: nat, at: nat, path: string, watched: set<string>, goal: string)
    requires i <= at < |folder.subfolders| && Append(path, folder.subfolders[at].name) !in watched
    requires Visits(Walk(folder.subfolders[at].folder, Append(path, folder.subfolders[at].name), watched, true), goal)
    ensures Visits(WalkSubfolders(folder, i, path, watched), goal)
    decreases at - i
  {
    var child := Append(path, folder.subfolders[i].name);
    var first := if child in watched then [] else Walk(folder.subfolders[i].folder, child, watched, true);
    if i < at {
      SubfolderVisits(folder, i + 1, at, path, watched, goal);
    }
    VisitsConcat(first, WalkSubfolders(folder, i + 1, path, watched), goal);
  }

  lemma DescendInjective(path: string, a: seq<string>, b: seq<string>)
    requires path != "" && AreNames(a) && AreNames(b) && Descend(path, a) == Descend(path, b)
    ensures a == b
  {
    DescendLocates(path, a);
    DescendLocates(path, b);
    var front := Locate(path).names;
    assert a == (front + a)[|front|..] && b == (front + b)[|front|..];
  }

  lemma {:induction false} DirectoryNames(folder: Folder, names: seq<string>)
    requires WellFormed(folder) && HasDirectory(folder, names)
    ensures AreNames(names)
    decreases |names|
  {
    if |names| > 0 {
      var i :| 0 <= i < |folder.subfolders| && folder.subfolders[i].name == names[0]
               && HasDirectory(folder.subfolders[i].folder, names[1..]);
      DirectoryNames(folder.subfolders[i].folder, names[1..]);
    }
  }

  /**
    The walk from a folder visits a directory of the tree exactly when it is the folder itself, or
    the folder is recursive and no directory on the way down to it, itself included, is watched: the
    folder is then the nearest watched one above the directory.
  */
  lemma WalkVisitsExactly(folder: Folder, path: string, watched: set<string>, recursive: bool, names: seq<string>)
    requires path != "" && WellFormed(folder) && HasDirectory(folder, names)
    ensures Visits(Walk(folder, path, watched, recursive), Descend(path, names))
            <==> names == [] || (recursive && Unwatched(path, names, watched))
  {
    var visits := Walk(folder, path, watched, recursive);
    DirectoryNames(folder, names);
    if names == [] || (recursive && Unwatched(path, names, watched)) {
      UnwatchedIsVisited(folder, path, watched, recursive, names);
    } else if Visits(visits, Descend(path, names)) {
      var k :| 0 <= k < |visits| && visits[k].path == Descend(path, names);
      var found := VisitedIsUnwatched(folder, path, watched, recursive, k);
      DescendInjective(path, found, names);
    }
  }

  /** A walk visits no directory twice. */
  lemma {:induction false} WalkOnce(folder: Folder, path: string, watched: set<string>, recursive: bool, i: nat, j: nat)
    requires path != "" && WellFormed(folder) && i < j < |Walk(folder, path, watched, recursive)|
    ensures Walk(folder, path, watched, recursive)[i].path != Walk(folder, path, watched, recursive)[j].path
    decreases folder, 1, 0
  {
    var below := WalkSubfolders(folder, 0, path, watched);
    AfterFirst(Visit(path, folder), below, j);
    if i == 0 {
      var at, rest := VisitedInSubfolder(folder, 0, path, watched, j - 1);
      BelowIsDifferent(path, folder.subfolders[at].name, rest);
    } else {
      AfterFirst(Visit(path, folder), below, i);
      SubfoldersOnce(folder, 0, path, watched, i - 1, j - 1);
    }
  }

  lemma AfterFirst(first: Visit, rest: seq<Visit>, k: nat)
    requires 0 < k <= |rest|
    ensures ([first] + rest)[k] == rest[k - 1] && ([first] + rest)[0] == first
  {
  }

  lemma DifferentNames(path: string, a: seq<string>, b: seq<string>)
    requires path != "" && AreNames(a) && AreNames(b) && a != b
    ensures Descend(path, a) != Descend(path, b)
  {
    if Descend(path, a) == Descend(path, b) {
      DescendInjective(path, a, b);
    }
  }

  lemma BelowIsDifferent(path: string, name: string, rest: seq<string>)
    requires path != "" && IsName(name) && AreNames(rest)
    ensures path != Descend(Append(path, name), rest)
  {
    DifferentNames(path, [], [name] + rest);
    assert ([name] + rest)[1..] == rest;
  }

  lemma AcrossSubfolders(path: string, nameA: string, a: seq<string>, nameB: string, b: seq<string>)
    requires path != "" && IsName(nameA) && IsName(nameB) && AreNames(a) && AreNames(b) && nameA != nameB
    ensures Descend(Append(path, nameA), a) != Descend(Append(path, nameB), b)
  {
    assert ([nameA] + a)[0] != ([nameB] + b)[0];
    DifferentNames(path, [nameA] + a, [nameB] + b);
    assert ([nameA] + a)[1..] == a && ([nameB] + b)[1..] == b;
  }

  lemma LaterSubfolder(folder: Folder, start: nat, path: string, watched: set<string>, i: nat, j: nat)
    requires path != "" && WellFormed(folder) && start < |folder.subfolders|
    requires i < |Walk(folder.subfolders[start].folder, Append(path, folder.subfolders[start].name), watched, true)|
    requires j < |WalkSubfolders(folder, start + 1, path, watched)|
    ensures Walk(folder.subfolders[start].folder, Append(path, folder.subfolders[start].name), watched, true)[i].path
            != WalkSubfolders(folder, start + 1, path, watched)[j].path
  {
    var sub := folder.subfolders[start];
    var a := VisitedIsUnwatched(sub.folder, Append(path, sub.name), watched, true, i);
    var at, b := VisitedInSubfolder(folder, start + 1, path, watched, j);
    AcrossSubfolders(path, sub.name, a, folder.subfolders[at].name, b);
  }

  lemma {:induction false} SubfoldersOnce(folder: Folder, start: nat, path: string, watched: set<string>, i: nat, j: nat)
    requires path != "" && WellFormed(folder) && start <= |folder.subfolders|
    requires i < j < |WalkSubfolders(folder, start, path, watched)|
    ensures WalkSubfolders(folder, start, path, watched)[i].path != WalkSubfolders(folder, start, path, watched)[j].path
    decreases folder, 0, |folder.subfolders| - start
  {
    var sub := folder.subfolders[start];
    var child := Append(path, sub.name);
    var first := if child in watched then [] else Walk(sub.folder, child, watched, true);
    assert WalkSubfolders(folder, start, path, watched) == first + WalkSubfolders(folder, start + 1, path, watched);
    if j < |first| {
      ChildLocates(path, sub.name);
      WalkOnce(sub.folder, child, watched, true, i, j);
    } else if i < |first| {
      LaterSubfolder(folder, start, path, watched, i, j - |first|);
    } else {
      SubfoldersOnce(folder, start + 1, path, watched, i - |first|, j - |first|);
    }
  }

  /** Of two folders whose walks meet, the deeper one would be on the way of the other. */
  lemma DeeperIsOnTheWay(outer: string, inner: string, a: seq<string>, b: seq<string>)
    requires IsAbsolute(outer) && IsClean(outer) && IsAbsolute(inner) && IsClean(inner)
    requires AreNames(a) && AreNames(b) && |b| <= |a| && Descend(outer, a) == Descend(inner, b)
    ensures inner == Descend(outer, a[..|a| - |b|])
  {
    var way := a[..|a| - |b|];
    MeetingLocations(outer, inner, a, b);
    LongerFront(Locate(outer), a, Locate(inner), b, way);
    OnTheWay(outer, inner, way);
  }

  lemma MeetingLocations(outer: string, inner: string, a: seq<string>, b: seq<string>)
    requires outer != "" && inner != "" && AreNames(a) && AreNames(b) && Descend(outer, a) == Descend(inner, b)
    ensures Below(Locate(outer), a) == Below(Locate(inner), b)
  {
    DescendLocates(outer, a);
    DescendLocates(inner, b);
  }

  lemma OnTheWay(outer: string, inner: string, names: seq<string>)
    requires IsAbsolute(outer) && IsClean(outer) && IsAbsolute(inner) && IsClean(inner) && AreNames(names)
    requires Locate(inner) == Below(Locate(outer), names)
    ensures inner == Descend(outer, names)
  {
    DescendLocates(outer, names);
    SameLocation(inner, Descend(outer, names));
  }

  lemma LongerFront(o: Location, a: seq<string>, n: Location, b: seq<string>, way: seq<string>)
    requires Below(o, a) == Below(n, b) && |b| <= |a|
    requires AreNames(a) && way == a[..|a| - |b|]
    ensures n == Below(o, way) && AreNames(way)
  {
    assert (o.names + a)[..|n.names|] == (n.names + b)[..|n.names|] == n.names;
  }

  lemma SameLocation(a: string, b: string)
    requires IsAbsolute(a) && IsAbsolute(b) && IsClean(a) && IsClean(b) && Locate(a) == Locate(b)
    ensures a == b
  {
  }

  /** No directory is handled under two watched folders. */
  lemma WalksDisjoint(first: string, second: string, watched: set<string>,
                      firstTree: Folder, secondTree: Folder, firstRecursive: bool, secondRecursive: bool, path: string)
    requires first in watched && second in watched && first != second
    requires IsAbsolute(first) && IsClean(first) && IsAbsolute(second) && IsClean(second)
    requires WellFormed(firstTree) && WellFormed(secondTree)
    ensures !Visits(Walk(firstTree, first, watched, firstRecursive), path)
            || !Visits(Walk(secondTree, second, watched, secondRecursive), path)
  {
    var a, b := Walk(firstTree, first, watched, firstRecursive), Walk(secondTree, second, watched, secondRecursive);
    if Visits(a, path) && Visits(b, path) {
      var i :| 0 <= i < |a| && a[i].path == path;
      var j :| 0 <= j < |b| && b[j].path == path;
      var m := VisitedIsUnwatched(firstTree, first, watched, firstRecursive, i);
      var n := VisitedIsUnwatched(secondTree, second, watched, secondRecursive, j);
      if |n| <= |m| {
        DeeperIsOnTheWay(first, second, m, n);
        if |m| == |n| {
          assert false;
        }
      } else {
        DeeperIsOnTheWay(second, first, n, m);
      }
    }
  }
}
