/** When a torrent found by a retry gets the parameters that a scan would have given it. */
module FolderParams {
  import opened Strings
  import opened Paths
  import opened FolderWalk
  import opened FolderWorker

  lemma {:induction false} DescendSnoc(path: string, names: seq<string>, name: string)
    ensures Descend(path, names + [name]) == Append(Descend(path, names), name)
    decreases |names|
  {
    if |names| == 0 {
      assert names + [name] == [name] && [name][1..] == [];
    } else {
      assert (names + [name])[1..] == names[1..] + [name];
      DescendSnoc(Append(path, names[0]), names[1..], name);
    }
  }

  /** Seen from a folder, a path below it is the join of the names in between. */
  lemma RelativeBelow(folder: string, names: seq<string>, places: Places)
    requires IsAbsolute(folder) && AreNames(names) && |names| > 0
    ensures RelativePathOf(folder, Descend(folder, names), places) == Join(names, SEPARATOR)
    ensures Descend(folder, names) != folder
  {
    var from := Locate(folder);
    DescendLocates(folder, names);
    RelativePathIsWay(folder, Descend(folder, names), places);
    WayBelow(from, names);
    assert |Below(from, names).names| > |from.names|;
  }

  lemma WayBelow(from: Location, names: seq<string>)
    requires |names| > 0
    ensures Way(from, Below(from, names)) == Location(0, names)
    ensures Render(false, Location(0, names)) == Join(names, SEPARATOR)
  {
    CommonCountUnique(from.names, from.names + names, |from.names|);
  }

  function UsesAutoTMM(p: AddTorrentParams, setup: Setup): bool {
    if p.useAutoTMM.Some? then p.useAutoTMM.value else setup.autoTMMByDefault
  }

  lemma NothingBelow(p: AddTorrentParams, setup: Setup)
    ensures BelowParams(p, "", setup) == p <==> !(UsesAutoTMM(p, setup) && p.category != "")
  {
  }

  /** A retry takes the directories between the watched folder and the file. */
  lemma RetryParamsAre(folder: string, names: seq<string>, file: string, p: AddTorrentParams, setup: Setup)
    requires IsAbsolute(folder) && AreNames(names) && IsName(file)
    ensures RetryParams(folder, Append(Descend(folder, names), file), p, setup) == BelowParams(p, Join(names, SEPARATOR), setup)
  {
    DescendSnoc(folder, names, file);
    RelativeBelow(folder, names + [file], setup.places);
    ParentDropsLast(false, names, file);
    var joined, all := Join(names, SEPARATOR), Join(names + [file], SEPARATOR);
    assert "" + joined == joined && "" + all == all;
  }

  /**
    For every file below a watched folder, scan and retry agree on the parameters, except exactly for
    files directly in the folder under automatic management with a category: there the retry appends
    a separator to the category.
  */
  lemma RetryLikeScan(folder: string, names: seq<string>, file: string, p: AddTorrentParams, setup: Setup)
    requires IsAbsolute(folder) && AreNames(names) && IsName(file)
    ensures
      var directory := Descend(folder, names);
      RetryParams(folder, Append(directory, file), p, setup) == ScanParams(folder, directory, p, setup)
      <==> !(names == [] && UsesAutoTMM(p, setup) && p.category != "")
  {
    RetryParamsAre(folder, names, file, p, setup);
    if |names| == 0 {
      NothingBelow(p, setup);
    } else {
      RelativeBelow(folder, names, setup.places);
    }
  }

  /**
    What a scan does for a file in a subdirectory: its way below the watched folder extends the
    category under automatic management, and leads on from the save path otherwise.
  */
  lemma SubdirectoryParams(folder: string, names: seq<string>, p: AddTorrentParams, setup: Setup)
    requires IsAbsolute(folder) && AreNames(names) && |names| > 0
    ensures
      var q := ScanParams(folder, Descend(folder, names), p, setup);
      if UsesAutoTMM(p, setup)
      then q == p.(category := Join((if p.category == "" then [] else [p.category]) + names, SEPARATOR))
      else q.category == p.category && q.useAutoTMM == p.useAutoTMM
           && Locate(q.savePath) == Location(Locate(p.savePath).ups, Locate(p.savePath).names + names)
  {
    RelativeBelow(folder, names, setup.places);
    if UsesAutoTMM(p, setup) {
      assert [] + names == names;
      JoinAppend([p.category], names, SEPARATOR);
    } else {
      NamesBelow(p.savePath, names);
    }
  }

  lemma NamesBelow(path: string, names: seq<string>)
    requires AreNames(names) && |names| > 0
    ensures Locate(Append(path, Join(names, SEPARATOR))) == Location(Locate(path).ups, Locate(path).names + names)
  {
    PartsJoined(Location(0, names));
    assert Location(0, names).Parts() == names;
    FollowNames(Locate(path), names);
    if path == "" {
      SplitWithout("", SEPARATOR);
      FollowEmpty(START);
      FollowNames(START, names);
    } else {
      AppendFollows(path, Join(names, SEPARATOR));
    }
  }

  /** A file that a retry finds directly in the watched folder gets another category than by a scan. */
  lemma RetryAddsSeparator(setup: Setup)
    ensures
      var p := AddTorrentParams("c", "", Some(true));
      ScanParams("/w", "/w", p, setup) == p && RetryParams("/w", Append("/w", "x.torrent"), p, setup).category == "c/"
  {
    RetryParamsAre("/w", [], "x.torrent", AddTorrentParams("c", "", Some(true)), setup);
    assert "c" + "/" + "" == "c/";
  }
}
