/**
  The content layout of a torrent being added: TorrentContentAdaptor of addnewtorrentdialog.cpp.
  How long the extension of a path is, is asked from a MIME database that is not part of this model;
  `extensionSize` may be any function.
*/
module ContentLayout {
  import opened Strings
  import opened Paths
  import opened RootFolders

  datatype Layout = Original | Subfolder | NoSubfolder

  /** The state of the adaptor; `layout` is never Original. */
  datatype Adaptor = Adaptor(paths: seq<string>, originalRoot: string, layout: Layout)

  /** Path::removedExtension. */
  function RemovedExtension(path: string, extensionSize: string -> nat): string {
    var size := extensionSize(path);
    if size <= |path| then path[..|path| - size] else ""
  }

  function OriginalLayout(root: string): Layout {
    if root == "" then NoSubfolder else Subfolder
  }

  /** The list being edited, which may already have been renamed, of a torrent with this root folder. */
  function Start(paths: seq<string>, root: string): Adaptor {
    Adaptor(paths, root, OriginalLayout(root))
  }

  /** One change of the layout; a list without files is left as it is. */
  function Apply(a: Adaptor, layout: Layout, extensionSize: string -> nat): Adaptor {
    var target := if layout == Original then OriginalLayout(a.originalRoot) else layout;
    if target == a.layout then a
    else if target == NoSubfolder then a.(paths := Stripped(a.paths), layout := target)
    else
      var root := if a.originalRoot != "" then a.originalRoot
                  else if |a.paths| == 0 then "" else RemovedExtension(a.paths[0], extensionSize);
      a.(paths := Added(a.paths, root), layout := target)
  }

  function Run(a: Adaptor, layouts: seq<Layout>, extensionSize: string -> nat): Adaptor
    decreases |layouts|
  {
    if |layouts| == 0 then a else Run(Apply(a, layouts[0], extensionSize), layouts[1..], extensionSize)
  }

  class TorrentContentAdaptor {
    const torrentPaths: seq<string>
    var filePaths: seq<string>          // empty as long as it is the torrent's own list
    const originalRootFolder: string
    var currentContentLayout: Layout
    const extensionSize: string -> nat

    function State(): Adaptor
      reads this
    {
      Adaptor(filePaths, originalRootFolder, currentContentLayout)
    }

    constructor (torrentPaths: seq<string>, filePaths: seq<string>, extensionSize: string -> nat)
      requires filePaths == [] || |filePaths| == |torrentPaths|
      ensures State() == Start(filePaths, RootFolder(torrentPaths))
      ensures this.torrentPaths == torrentPaths && this.extensionSize == extensionSize
    {
      var root := FindRootFolder(torrentPaths);
      this.originalRootFolder := root;
      this.currentContentLayout := OriginalLayout(root);
      this.torrentPaths, this.filePaths := torrentPaths, filePaths;
      this.extensionSize := extensionSize;
    }

    function FilePaths(): seq<string>
      reads this
    {
      if filePaths == [] then torrentPaths else filePaths
    }

    method RenameFile(index: nat, newFilePath: string)
      requires index < |FilePaths()|
      modifies this`filePaths
      ensures FilePaths() == old(FilePaths())[index := newFilePath]
    {
      var currentFilePath := FilePaths()[index];
      if currentFilePath == newFilePath {
        return;
      }
      if filePaths == [] {
        filePaths := torrentPaths;
      }
      filePaths := filePaths[index := newFilePath];
    }

    /** Called only with files present. */
    method ApplyContentLayout(contentLayout: Layout)
      requires filePaths != []
      modifies this
      ensures State() == Apply(old(State()), contentLayout, extensionSize)
    {
      var originalContentLayout := OriginalLayout(originalRootFolder);
      var newContentLayout := if contentLayout == Original then originalContentLayout else contentLayout;
      if newContentLayout != currentContentLayout {
        if newContentLayout == NoSubfolder {
          filePaths := StripRootFolder(filePaths);
        } else {
          var rootFolder := if originalContentLayout == Subfolder then originalRootFolder
                            else RemovedExtension(filePaths[0], extensionSize);
          filePaths := AddRootFolder(filePaths, rootFolder);
        }
        currentContentLayout := newContentLayout;
      }
    }
  }

  // ----- The file list depends on the layout alone -----

  /** The folder that the Subfolder layout puts the files of a rootless torrent into. */
  function NewFolder(paths: seq<string>, extensionSize: string -> nat): string
    requires |paths| > 0
  {
    RemovedExtension(paths[0], extensionSize)
  }

  /** The components of that folder; an empty text names no folder. */
  function FolderParts(folder: string): seq<string> {
    if folder == "" then [] else Locate(folder).Parts()
  }

  /** What the list looks like in a layout. */
  function PathsIn(paths: seq<string>, root: string, layout: Layout, extensionSize: string -> nat): seq<string>
    requires |paths| > 0
  {
    if layout == OriginalLayout(root) || layout == Original then paths
    else if layout == NoSubfolder then Stripped(paths)
    else Added(paths, NewFolder(paths, extensionSize))
  }

  /**
    The list still has the torrent's root folder; or, if the torrent has none, the first path without
    its extension has one component, or none and the list has no root folder either.
  */
  predicate CanRestore(paths: seq<string>, root: string, extensionSize: string -> nat)
    requires |paths| > 0
  {
    if root != "" then RootFolder(paths) == root
    else
      var f := FolderParts(NewFolder(paths, extensionSize));
      |f| == 1 || (|f| == 0 && RootFolder(paths) == "")
  }

  lemma ContentPathFacts(path: string)
    requires IsContentPath(path)
    ensures path != "" && !IsAbsolute(path) && Parts(path)[0] != ""
    ensures Locate(path) == Location(0, Parts(path)) && Join(Parts(path), SEPARATOR) == path
  {
    FollowNames(START, Parts(path));
    assert [] + Parts(path) == Parts(path);
    PartsJoined(Location(0, Parts(path)));
    assert Location(0, Parts(path)).Parts() == Parts(path);
  }

  /** Stripping a shared root and adding it again restores a path. */
  lemma StripThenAdd(path: string, root: string)
    requires IsContentPath(path) && InFolder(path, root)
    ensures Append(root, WithoutRoot(path, root)) == path
  {
    ContentPathFacts(path);
    var parts := Parts(path);
    var rest := parts[1..];
    var inner := Join(rest, SEPARATOR);
    assert IsName(root) && AreNames(rest);
    PartsJoined(Location(0, rest));
    assert Location(0, rest).Parts() == rest;
    SplitWithout(root, SEPARATOR);
    FollowNames(START, [root]);
    AppendFollows(root, inner);
    FollowNames(Location(0, [root]), rest);
    assert [root] + rest == parts;
    assert Location(0, parts).Parts() == parts;
  }

  lemma ContentRoot(paths: seq<string>)
    requires |paths| > 0 && AreContentPaths(paths)
    ensures var root := RootFolder(paths); if root != "" then SharesRoot(paths, root) else forall r: string :: !SharesRoot(paths, r)
  {
    forall k | 0 <= k < |paths|
      ensures Parts(paths[k])[0] != ""
    {
      ContentPathFacts(paths[k]);
    }
    RootFolderIsShared(paths);
  }

  /** The first path after stripping has its components but the shared root. */
  lemma StrippedFirst(paths: seq<string>)
    requires |paths| > 0 && AreContentPaths(paths)
    ensures RootFolder(paths) == "" ==> Stripped(paths) == paths
    ensures RootFolder(paths) != "" ==> Stripped(paths)[0] != paths[0] && IsContentPath(Stripped(paths)[0])
  {
    ContentRoot(paths);
    ContentPathFacts(paths[0]);
    if RootFolder(paths) != "" {
      assert InFolder(paths[0], RootFolder(paths));
      WithoutRootParts(paths[0]);
      var rest := Parts(paths[0])[1..];
      SplitParts(paths[0], SEPARATOR);
      SplitJoin(rest, SEPARATOR);
    }
  }

  /** Stripping the root folder and adding the torrent's own restores a list exactly when they are the same. */
  lemma StripThenAddAll(paths: seq<string>, root: string)
    requires |paths| > 0 && AreContentPaths(paths) && IsName(root)
    ensures Added(Stripped(paths), root) == paths <==> RootFolder(paths) == root
  {
    ContentRoot(paths);
    if RootFolder(paths) == root {
      forall k | 0 <= k < |paths|
        ensures Append(root, WithoutRoot(paths[k], root)) == paths[k]
      {
        assert InFolder(paths[k], root);
        StripThenAdd(paths[k], root);
      }
    } else {
      StrippedFirst(paths);
      var first := Stripped(paths)[0];
      SplitWithout(root, SEPARATOR);
      FollowNames(START, [root]);
      assert Locate(root) == Location(0, [root]) && Location(0, [root]).Parts() == [root];
      NameIsRelative(root);
      AppendParts(root, first);
      assert Parts(Append(root, first)) == [root] + Parts(first);
      if RootFolder(paths) != "" {
        assert InFolder(paths[0], RootFolder(paths));
      }
    }
  }

  lemma NameIsRelative(name: string)
    requires IsName(name)
    ensures name != "" && !IsAbsolute(name)
  {
    assert name[0] in name;
  }

  lemma PathIs(path: string, parts: seq<string>)
    requires Parts(path) == parts
    ensures path == Join(parts, SEPARATOR)
  {
  }

  /** A path put into a folder: unchanged when the folder has no components, else in its first one. */
  lemma AddedPath(path: string, folder: string)
    requires IsContentPath(path) && !IsAbsolute(folder)
    ensures Parts(Append(folder, path)) == FolderParts(folder) + Parts(path)
    ensures Append(folder, path) == Join(FolderParts(folder) + Parts(path), SEPARATOR)
  {
    if folder == "" {
      assert [] + Parts(path) == Parts(path);
    } else {
      AppendParts(folder, path);
      PathIs(Append(folder, path), Parts(Append(folder, path)));
    }
  }

  /** Adding a folder and stripping it again loses all components of the folder but keeps those after the first. */
  lemma AddThenStripPath(path: string, folder: string)
    requires IsContentPath(path) && !IsAbsolute(folder) && |FolderParts(folder)| > 0
    ensures InFolder(Append(folder, path), FolderParts(folder)[0])
    ensures Parts(WithoutRoot(Append(folder, path), FolderParts(folder)[0])) == FolderParts(folder)[1..] + Parts(path)
  {
    var f := FolderParts(folder);
    AddedPath(path, folder);
    WithoutRootParts(Append(folder, path));
    var rest := (f + Parts(path))[1..];
    assert rest == f[1..] + Parts(path);
    SplitParts(Append(folder, path), SEPARATOR);
    assert forall k :: 0 <= k < |rest| ==> rest[k] == Parts(Append(folder, path))[k + 1];
    SplitJoin(rest, SEPARATOR);
  }

  lemma FolderPartsNonempty(folder: string)
    ensures forall k :: 0 <= k < |FolderParts(folder)| ==> FolderParts(folder)[k] != ""
  {
    if folder != "" {
      LocateValid(folder);
      ClimbAt(Locate(folder).ups, Locate(folder).names);
    }
  }

  /** Adding nothing changes nothing. */
  lemma AddNothing(paths: seq<string>, folder: string)
    requires AreContentPaths(paths) && !IsAbsolute(folder) && FolderParts(folder) == []
    ensures Added(paths, folder) == paths
  {
    forall k | 0 <= k < |paths|
      ensures Added(paths, folder)[k] == paths[k]
    {
      AddedPath(paths[k], folder);
      assert FolderParts(folder) + Parts(paths[k]) == Parts(paths[k]);
    }
  }

  /** The list after adding a folder and stripping again: only the first component of the folder is gone. */
  lemma AddThenStripAll(paths: seq<string>, folder: string)
    requires |paths| > 0 && AreContentPaths(paths) && !IsAbsolute(folder) && |FolderParts(folder)| > 0
    ensures forall k :: 0 <= k < |paths| ==>
      Parts(Stripped(Added(paths, folder))[k]) == FolderParts(folder)[1..] + Parts(paths[k])
  {
    var f, added := FolderParts(folder), Added(paths, folder);
    FolderPartsNonempty(folder);
    forall k | 0 <= k < |paths|
      ensures InFolder(added[k], f[0])
      ensures Parts(WithoutRoot(added[k], f[0])) == f[1..] + Parts(paths[k])
    {
      AddThenStripPath(paths[k], folder);
    }
    forall k | 0 <= k < |added|
      ensures Parts(added[k])[0] != ""
    {
      assert InFolder(added[k], f[0]);
    }
    RootFolderIsShared(added);
    assert SharesRoot(added, f[0]);
    assert InFolder(added[0], RootFolder(added));
  }

  lemma NewFolderRelative(paths: seq<string>, extensionSize: string -> nat)
    requires |paths| > 0 && AreContentPaths(paths)
    ensures !IsAbsolute(NewFolder(paths, extensionSize))
  {
  }

  /** Adding the new folder can be undone exactly when it is one component, or none and there is none to strip. */
  lemma AddThenStrip(paths: seq<string>, extensionSize: string -> nat)
    requires |paths| > 0 && AreContentPaths(paths)
    ensures Stripped(Added(paths, NewFolder(paths, extensionSize))) == paths <==> CanRestore(paths, "", extensionSize)
  {
    var folder := NewFolder(paths, extensionSize);
    var back := Stripped(Added(paths, folder));
    NewFolderRelative(paths, extensionSize);
    if FolderParts(folder) == [] {
      AddNothing(paths, folder);
      StrippedFirst(paths);
    } else {
      AddThenStripAll(paths, folder);
      if |FolderParts(folder)| == 1 {
        forall k | 0 <= k < |paths|
          ensures back[k] == paths[k]
        {
          assert Parts(back[k]) == [] + Parts(paths[k]) == Parts(paths[k]);
          assert back[k] == Join(Parts(back[k]), SEPARATOR) == paths[k];
        }
      } else {
        assert |Parts(back[0])| > |Parts(paths[0])|;
      }
    }
  }

  /** The state is what its layout says. */
  predicate Agrees(a: Adaptor, paths: seq<string>, root: string, extensionSize: string -> nat)
    requires |paths| > 0
  {
    a.layout != Original && a == Adaptor(PathsIn(paths, root, a.layout, extensionSize), root, a.layout)
  }

  /** One change keeps the list equal to what its layout says. */
  lemma ApplyKeepsPaths(paths: seq<string>, root: string, a: Adaptor, layout: Layout, extensionSize: string -> nat)
    requires |paths| > 0 && AreContentPaths(paths) && (root == "" || IsName(root))
    requires CanRestore(paths, root, extensionSize) && Agrees(a, paths, root, extensionSize)
    ensures Agrees(Apply(a, layout, extensionSize), paths, root, extensionSize)
  {
    if root != "" {
      StripThenAddAll(paths, root);
    } else {
      AddThenStrip(paths, extensionSize);
    }
  }

  lemma {:induction false} RunKeepsPaths(paths: seq<string>, root: string, a: Adaptor, layouts: seq<Layout>, extensionSize: string -> nat)
    requires |paths| > 0 && AreContentPaths(paths) && (root == "" || IsName(root))
    requires CanRestore(paths, root, extensionSize) && Agrees(a, paths, root, extensionSize)
    ensures Agrees(Run(a, layouts, extensionSize), paths, root, extensionSize)
    decreases |layouts|
  {
    if |layouts| > 0 {
      ApplyKeepsPaths(paths, root, a, layouts[0], extensionSize);
      RunKeepsPaths(paths, root, Apply(a, layouts[0], extensionSize), layouts[1..], extensionSize);
    }
  }

  /** The layout other than the original one. */
  function OtherLayout(root: string): Layout {
    if root == "" then Subfolder else NoSubfolder
  }

  /** Choosing the other layout and then the original one again restores the list exactly when it can be restored. */
  lemma ThereAndBack(paths: seq<string>, root: string, extensionSize: string -> nat)
    requires |paths| > 0 && AreContentPaths(paths) && (root == "" || IsName(root))
    ensures
      var end := Run(Start(paths, root), [OtherLayout(root), Original], extensionSize);
      end.layout == OriginalLayout(root) && (end.paths == paths <==> CanRestore(paths, root, extensionSize))
  {
    if root == "" {
      AddThenStrip(paths, extensionSize);
    } else {
      StripThenAddAll(paths, root);
    }
    var there := Apply(Start(paths, root), OtherLayout(root), extensionSize);
    var back := Apply(there, Original, extensionSize);
    assert Run(back, [], extensionSize) == back;
    assert Run(there, [Original], extensionSize) == back;
    assert Run(Start(paths, root), [OtherLayout(root), Original], extensionSize) == back;
  }

  /** The last choice decides the layout. */
  lemma {:induction false} LastChoice(a: Adaptor, layouts: seq<Layout>, extensionSize: string -> nat)
    requires a.layout != Original
    ensures
      var end := Run(a, layouts, extensionSize);
      && end.originalRoot == a.originalRoot
      && end.layout == if |layouts| == 0 then a.layout
                       else if layouts[|layouts| - 1] == Original then OriginalLayout(a.originalRoot)
                       else layouts[|layouts| - 1]
    decreases |layouts|
  {
    if |layouts| > 0 {
      LastChoice(Apply(a, layouts[0], extensionSize), layouts[1..], extensionSize);
    }
  }

  ghost predicate LayoutDecidesPaths(paths: seq<string>, root: string, extensionSize: string -> nat)
    requires |paths| > 0
  {
    forall layouts: seq<Layout> ::
      var end := Run(Start(paths, root), layouts, extensionSize);
      end.paths == PathsIn(paths, root, end.layout, extensionSize)
  }

  /**
    From any list of files, renamed or not, of a torrent with or without a root folder: after every run
    of layout changes the list is the one its layout stands for, in particular the first list whenever
    the layout is the original one. This holds exactly when the list can be restored.
  */
  lemma LayoutRuns(paths: seq<string>, root: string, extensionSize: string -> nat)
    requires |paths| > 0 && AreContentPaths(paths) && (root == "" || IsName(root))
    ensures LayoutDecidesPaths(paths, root, extensionSize) <==> CanRestore(paths, root, extensionSize)
  {
    if CanRestore(paths, root, extensionSize) {
      forall layouts: seq<Layout>
        ensures var end := Run(Start(paths, root), layouts, extensionSize);
          end.paths == PathsIn(paths, root, end.layout, extensionSize)
      {
        RunKeepsPaths(paths, root, Start(paths, root), layouts, extensionSize);
      }
    } else {
      ThereAndBack(paths, root, extensionSize);
      var end := Run(Start(paths, root), [OtherLayout(root), Original], extensionSize);
      assert end.paths != PathsIn(paths, root, end.layout, extensionSize);
    }
  }

  /** For a list that has not been renamed, only a torrent without a root folder can fail. */
  lemma UnrenamedRuns(paths: seq<string>, extensionSize: string -> nat)
    requires |paths| > 0 && AreContentPaths(paths)
    ensures LayoutDecidesPaths(paths, RootFolder(paths), extensionSize)
            <==> RootFolder(paths) != "" || |FolderParts(NewFolder(paths, extensionSize))| <= 1
  {
    ContentRoot(paths);
    if RootFolder(paths) != "" {
      assert InFolder(paths[0], RootFolder(paths));
    }
    LayoutRuns(paths, RootFolder(paths), extensionSize);
  }

  /** Into the new folder and out again, for a torrent without a root folder. */
  lemma SubfolderAndBack(paths: seq<string>, extensionSize: string -> nat)
    requires |paths| > 0
    ensures Run(Start(paths, ""), [Subfolder, Original], extensionSize)
            == Adaptor(Stripped(Added(paths, NewFolder(paths, extensionSize))), "", NoSubfolder)
  {
    var there := Apply(Start(paths, ""), Subfolder, extensionSize);
    var back := Apply(there, Original, extensionSize);
    assert Run(back, [], extensionSize) == back;
    assert Run(there, [Original], extensionSize) == back;
  }

  lemma BackText(paths: seq<string>, folder: string, rest: seq<string>, k: nat)
    requires k < |paths| && AreContentPaths(paths) && !IsAbsolute(folder)
    requires |FolderParts(folder)| > 0 && rest == FolderParts(folder)[1..] + Parts(paths[k])
    ensures Stripped(Added(paths, folder))[k] == Join(rest, SEPARATOR)
  {
    AddThenStripAll(paths, folder);
    PathIs(Stripped(Added(paths, folder))[k], rest);
  }

  /** The list after there and back, for two files of which the first gives the new folder. */
  lemma TwoFilesBack(paths: seq<string>, extensionSize: string -> nat, first: seq<string>, second: seq<string>)
    requires |paths| == 2 && AreContentPaths(paths) && !IsAbsolute(paths[0]) && NewFolder(paths, extensionSize) == paths[0]
    requires |FolderParts(paths[0])| > 0
    requires first == FolderParts(paths[0])[1..] + Parts(paths[0]) && second == FolderParts(paths[0])[1..] + Parts(paths[1])
    ensures Run(Start(paths, ""), [Subfolder, Original], extensionSize)
            == Adaptor([Join(first, SEPARATOR), Join(second, SEPARATOR)], "", NoSubfolder)
  {
    SubfolderAndBack(paths, extensionSize);
    BackText(paths, paths[0], first, 0);
    BackText(paths, paths[0], second, 1);
  }

  /** Two files, the first one in a folder: a folder is left around both. */
  lemma FolderIsLeft(paths: seq<string>, extensionSize: string -> nat)
    requires paths == ["a/f", "g"] && extensionSize(paths[0]) == 0
    ensures Run(Start(paths, ""), [Subfolder, Original], extensionSize) == Adaptor(["f/a/f", "f/g"], "", NoSubfolder)
  {
    LiteralParts(paths, extensionSize);
    TwoFilesBack(paths, extensionSize, ["f"] + ["a", "f"], ["f"] + ["g"]);
  }

  lemma LiteralParts(paths: seq<string>, extensionSize: string -> nat)
    requires paths == ["a/f", "g"] && extensionSize(paths[0]) == 0
    ensures Parts(paths[0]) == ["a", "f"] && Parts(paths[1]) == ["g"]
    ensures Join(["f"] + ["a", "f"], SEPARATOR) == "f/a/f" && Join(["f"] + ["g"], SEPARATOR) == "f/g"
    ensures FolderParts(paths[0]) == ["a", "f"] && NewFolder(paths, extensionSize) == paths[0]
    ensures AreContentPaths(paths) && !IsAbsolute(paths[0])
  {
    assert Join(["a", "f"], SEPARATOR) == "a/f";
    SplitJoin(["a", "f"], SEPARATOR);
    SplitWithout("g", SEPARATOR);
    assert (["f"] + ["a", "f"])[1..] == ["a", "f"] && (["f"] + ["g"])[1..] == ["g"];
    ContentPathFacts(paths[0]);
  }

  /** The new folder is the first path up to its extension. */
  lemma ExtensionIsRemoved(stem: string, extension: string, extensionSize: string -> nat)
    requires extensionSize(stem + extension) == |extension|
    ensures RemovedExtension(stem + extension, extensionSize) == stem
  {
  }
}
