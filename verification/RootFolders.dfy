/** Root folders of file lists: findRootFolder, stripRootFolder and addRootFolder of path.cpp. */
module RootFolders {
  import opened Strings
  import opened Paths

  function Parts(path: string): seq<string> {
    Split(path, SEPARATOR)
  }

  /** Every path lies below the same folder `root`. */
  ghost predicate SharesRoot(paths: seq<string>, root: string) {
    |paths| > 0 && root != "" && forall k :: 0 <= k < |paths| ==> InFolder(paths[k], root)
  }

  predicate InFolder(path: string, root: string) {
    |Parts(path)| > 1 && Parts(path)[0] == root
  }

  /** The folder found so far is `root`; a path that begins with the separator has an empty first part. */
  function RootFolderFrom(paths: seq<string>, root: string): string {
    if |paths| == 0 then root
    else
      var parts := Parts(paths[0]);
      if |parts| <= 1 then ""
      else if root == "" then RootFolderFrom(paths[1..], parts[0])
      else if root != parts[0] then ""
      else RootFolderFrom(paths[1..], root)
  }

  function RootFolder(paths: seq<string>): string {
    RootFolderFrom(paths, "")
  }

  lemma {:induction false} RootFolderFromShared(paths: seq<string>, root: string)
    requires root != ""
    ensures RootFolderFrom(paths, root) == root || RootFolderFrom(paths, root) == ""
    ensures RootFolderFrom(paths, root) == root <==> forall k :: 0 <= k < |paths| ==> InFolder(paths[k], root)
  {
    if |paths| > 0 && InFolder(paths[0], root) {
      RootFolderFromShared(paths[1..], root);
    }
  }

  /** For relative paths the result is the shared folder, and it is empty exactly when there is none. */
  lemma RootFolderIsShared(paths: seq<string>)
    requires forall k :: 0 <= k < |paths| ==> Parts(paths[k])[0] != ""
    ensures var root := RootFolder(paths);
      && (root != "" ==> SharesRoot(paths, root))
      && (root == "" ==> forall r: string :: !SharesRoot(paths, r))
  {
    if |paths| > 0 {
      RootFolderFromShared(paths[1..], Parts(paths[0])[0]);
      forall r: string | SharesRoot(paths, r)
        ensures r == RootFolder(paths)
      {
        assert InFolder(paths[0], r);
      }
    }
  }

  method FindRootFolder(filePaths: seq<string>) returns (rootFolder: string)
    ensures rootFolder == RootFolder(filePaths)
  {
    rootFolder := "";
    var i := 0;
    while i < |filePaths|
      invariant 0 <= i <= |filePaths|
      invariant RootFolder(filePaths) == RootFolderFrom(filePaths[i..], rootFolder)
    {
      var parts := Split(filePaths[i], SEPARATOR);
      if |parts| <= 1 {
        return "";
      }
      if rootFolder == "" {
        rootFolder := parts[0];
      } else if rootFolder != parts[0] {
        return "";
      }
      i := i + 1;
    }
  }

  /** Removes the folder and the separator after it (QString::remove clamps at the end). */
  function WithoutRoot(path: string, root: string): string {
    if |root| + 1 <= |path| then path[|root| + 1..] else ""
  }

  function Stripped(paths: seq<string>): (stripped: seq<string>)
    ensures |stripped| == |paths|
  {
    var root := RootFolder(paths);
    if root == "" then paths else seq(|paths|, i requires 0 <= i < |paths| => WithoutRoot(paths[i], root))
  }

  function Added(paths: seq<string>, root: string): (added: seq<string>)
    ensures |added| == |paths|
  {
    seq(|paths|, i requires 0 <= i < |paths| => Append(root, paths[i]))
  }

  method StripRootFolder(filePaths: seq<string>) returns (stripped: seq<string>)
    ensures stripped == Stripped(filePaths)
  {
    var root := FindRootFolder(filePaths);
    stripped := filePaths;
    if root == "" {
      return;
    }
    for i := 0 to |filePaths|
      invariant |stripped| == |filePaths|
      invariant forall k :: 0 <= k < i ==> stripped[k] == WithoutRoot(filePaths[k], root)
      invariant forall k :: i <= k < |filePaths| ==> stripped[k] == filePaths[k]
    {
      stripped := stripped[i := WithoutRoot(stripped[i], root)];
    }
  }

  method AddRootFolder(filePaths: seq<string>, rootFolder: string) returns (added: seq<string>)
    ensures added == Added(filePaths, rootFolder)
  {
    added := filePaths;
    for i := 0 to |filePaths|
      invariant |added| == |filePaths|
      invariant forall k :: 0 <= k < i ==> added[k] == Append(rootFolder, filePaths[k])
      invariant forall k :: i <= k < |filePaths| ==> added[k] == filePaths[k]
    {
      added := added[i := Append(rootFolder, added[i])];
    }
  }

  /** Every path, of whatever kind, then leads on from where the folder leads. */
  lemma AddedLeadsOn(paths: seq<string>, root: string, k: nat)
    requires k < |paths|
    ensures root == "" ==> Added(paths, root)[k] == paths[k]
    ensures paths[k] == "" ==> Added(paths, root)[k] == root
    ensures root != "" && paths[k] != "" ==>
      && Locate(Added(paths, root)[k]) == Locate(root).Follow(Parts(paths[k]))
      && Added(paths, root)[k] == Render(IsAbsolute(root), Locate(root).Follow(Parts(paths[k])))
  {
    if root != "" && paths[k] != "" {
      AppendFollows(root, paths[k]);
    }
  }

  // ----- Torrent content paths -----

  /** A clean relative path without steps up, as torrents contain. */
  predicate IsContentPath(path: string) {
    AreNames(Parts(path))
  }

  ghost predicate AreContentPaths(paths: seq<string>) {
    forall k :: 0 <= k < |paths| ==> IsContentPath(paths[k])
  }

  /** The parts of a path that was put into a folder: those of the folder, then its own. */
  lemma AppendParts(folder: string, path: string)
    requires folder != "" && !IsAbsolute(folder) && IsContentPath(path)
    ensures Parts(Append(folder, path)) == Locate(folder).Parts() + Parts(path)
  {
    LocateValid(folder);
    AppendFollows(folder, path);
    FollowNames(Locate(folder), Parts(path));
    BelowParts(Locate(folder), Parts(path));
  }

  lemma BelowParts(l: Location, names: seq<string>)
    requires l.Valid() && AreNames(names) && |names| > 0
    ensures Parts(Render(false, Location(l.ups, l.names + names))) == l.Parts() + names
  {
    var both := Location(l.ups, l.names + names);
    PartsJoined(both);
    ClimbConcat(l.ups, l.names, names);
  }

  /** Taking away the folder leaves the parts after it. */
  lemma WithoutRootParts(path: string)
    requires |Parts(path)| > 1
    ensures WithoutRoot(path, Parts(path)[0]) == Join(Parts(path)[1..], SEPARATOR)
  {
  }
}
