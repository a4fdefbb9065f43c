/** The history of save paths in the add dialog: updatePathHistory of addnewtorrentdialog.cpp. */
module PathHistory {
  import opened Algorithm

  /** QStringList::indexOf. */
  method IndexOf(list: seq<string>, path: string) returns (index: int)
    ensures -1 <= index < |list|
    ensures index == -1 <==> path !in list
    ensures index >= 0 ==> list[index] == path && path !in list[..index]
  {
    for i := 0 to |list|
      invariant path !in list[..i]
    {
      if list[i] == path {
        return i;
      }
    }
    return -1;
  }

  /** The path first, and the first of its old places closed. */
  function InFront(list: seq<string>, path: string): seq<string> {
    [path] + Without(list, path)
  }

  function Without(list: seq<string>, path: string): seq<string> {
    if |list| == 0 then [] else if list[0] == path then list[1..] else [list[0]] + Without(list[1..], path)
  }

  function Truncated(list: seq<string>, n: nat): seq<string> {
    if |list| <= n then list else list[..n]
  }

  lemma {:induction false} WithoutAt(list: seq<string>, i: nat, path: string)
    requires i < |list| && list[i] == path && path !in list[..i]
    ensures Without(list, path) == list[..i] + list[i + 1..]
  {
    if i > 0 {
      assert path !in list[1..][..i - 1] by {
        assert list[1..][..i - 1] == list[..i][1..];
      }
      WithoutAt(list[1..], i - 1, path);
      assert [list[0]] + (list[1..][..i - 1] + list[1..][i..]) == list[..i] + list[i + 1..];
    }
  }

  lemma {:induction false} WithoutAbsent(list: seq<string>, path: string)
    requires path !in list
    ensures Without(list, path) == list
  {
    if |list| > 0 {
      WithoutAbsent(list[1..], path);
      assert [list[0]] + list[1..] == list;
    }
  }

  method UpdatePathHistory(stored: seq<string>, path: string, maxLength: nat) returns (pathList: seq<string>)
    ensures pathList == Truncated(InFront(stored, path), maxLength)
  {
    pathList := stored;
    var selectedSavePathIndex := IndexOf(pathList, path);
    if selectedSavePathIndex > -1 {
      WithoutAt(stored, selectedSavePathIndex, path);
      pathList := [pathList[selectedSavePathIndex]]
        + (pathList[..selectedSavePathIndex] + pathList[selectedSavePathIndex + 1..]);
    } else {
      WithoutAbsent(stored, path);
      pathList := [path] + pathList;
    }
    if |pathList| > maxLength {
      pathList := pathList[..maxLength];
    }
  }

  /** The list after a series of updates. */
  function Run(updates: seq<string>, maxLength: nat): seq<string> {
    if |updates| == 0 then []
    else Truncated(InFront(Run(updates[..|updates| - 1], maxLength), updates[|updates| - 1]), maxLength)
  }

  /** When a path was last used, -1 if never. */
  function LastUse(updates: seq<string>, path: string): (when: int)
    ensures -1 <= when < |updates|
    ensures when >= 0 ==> updates[when] == path
    ensures when == -1 ==> path !in updates
  {
    if |updates| == 0 then -1
    else if updates[|updates| - 1] == path then |updates| - 1
    else LastUse(updates[..|updates| - 1], path)
  }

  lemma {:induction false} NotUsedLater(updates: seq<string>, path: string)
    ensures path !in updates[LastUse(updates, path) + 1..]
  {
    var n := |updates| - 1;
    if n >= 0 && updates[n] != path {
      NotUsedLater(updates[..n], path);
      var when := LastUse(updates, path);
      assert updates[when + 1..] == updates[..n][when + 1..] + [updates[n]];
    }
  }

  /** Most recently used first. */
  predicate MostRecentFirst(updates: seq<string>, list: seq<string>) {
    forall i, j :: 0 <= i < j < |list| ==> LastUse(updates, list[i]) > LastUse(updates, list[j])
  }

  /** All paths ever used, each once, the most recently used first. */
  ghost predicate IsRecent(updates: seq<string>, list: seq<string>) {
    (forall path :: path in list <==> path in updates) && MostRecentFirst(updates, list)
  }

  /** The history that is never truncated. */
  function Full(updates: seq<string>): seq<string> {
    if |updates| == 0 then [] else InFront(Full(updates[..|updates| - 1]), updates[|updates| - 1])
  }

  /** The place of a path in a list, its length if it has none. */
  lemma WhereIs(list: seq<string>, path: string) returns (i: nat)
    requires Distinct(list)
    ensures i <= |list| && path !in list[..i] && (i < |list| ==> list[i] == path && path !in list[i + 1..])
    ensures Without(list, path) == if i < |list| then list[..i] + list[i + 1..] else list
  {
    if path in list {
      i :| 0 <= i < |list| && list[i] == path;
      WithoutAt(list, i, path);
    } else {
      i := |list|;
      WithoutAbsent(list, path);
    }
  }

  lemma FirstIsDistinct(updates: seq<string>, list: seq<string>)
    requires MostRecentFirst(updates, list)
    ensures Distinct(list)
  {
  }

  lemma WithoutHolds(list: seq<string>, path: string, p: string)
    requires Distinct(list)
    ensures p in Without(list, path) <==> p in list && p != path
  {
  }

  lemma WithoutOrder(updates: seq<string>, list: seq<string>, path: string)
    requires MostRecentFirst(updates, list)
    ensures MostRecentFirst(updates, Without(list, path))
  {
    FirstIsDistinct(updates, list);
    var i := WhereIs(list, path);
  }

  /** Using a path leaves the order of the others. */
  lemma OthersKeepOrder(before: seq<string>, path: string, list: seq<string>)
    requires MostRecentFirst(before, list) && path !in list
    ensures MostRecentFirst(before + [path], [path] + list)
  {
  }

  lemma {:induction false} FullIsRecent(updates: seq<string>)
    ensures IsRecent(updates, Full(updates))
    decreases |updates|
  {
    if |updates| > 0 {
      var n := |updates| - 1;
      var before, path := updates[..n], updates[n];
      assert updates == before + [path];
      FullIsRecent(before);
      FirstIsDistinct(before, Full(before));
      forall p ensures p in Without(Full(before), path) <==> p in before && p != path {
        WithoutHolds(Full(before), path, p);
      }
      WithoutOrder(before, Full(before), path);
      OthersKeepOrder(before, path, Without(Full(before), path));
    }
  }

  /** A path among the first ones is moved among them. */
  lemma MovedWithin(list: seq<string>, path: string, n: nat, i: nat)
    requires i < n < |list| && list[i] == path && path !in list[..i]
    ensures Truncated(InFront(list[..n], path), n) == Truncated(InFront(list, path), n)
  {
    WithoutAt(list, i, path);
    assert list[..n][..i] == list[..i];
    WithoutAt(list[..n], i, path);
    assert ([path] + (list[..n][..i] + list[..n][i + 1..])) == ([path] + (list[..i] + list[i + 1..]))[..n];
  }

  /** Any other path pushes the last of them out. */
  lemma MovedFromBehind(list: seq<string>, path: string, n: nat)
    requires n < |list| && path !in list[..n] && |Without(list, path)| >= n && Without(list, path)[..n] == list[..n]
    ensures Truncated(InFront(list[..n], path), n) == Truncated(InFront(list, path), n)
  {
    WithoutAbsent(list[..n], path);
    assert ([path] + list[..n])[..n] == ([path] + Without(list, path))[..n];
  }

  /** Truncating before an update makes no difference to what is left after it. */
  lemma TruncateLater(list: seq<string>, path: string, n: nat)
    requires Distinct(list)
    ensures Truncated(InFront(Truncated(list, n), path), n) == Truncated(InFront(list, path), n)
  {
    if |list| > n {
      var i := WhereIs(list, path);
      if i < n {
        MovedWithin(list, path, n, i);
      } else {
        assert list[..n] == list[..i][..n];
        MovedFromBehind(list, path, n);
      }
    }
  }

  /**
    After any updates with one maximum length, the list is the first so many of the distinct paths in
    most-recently-used order, as many as there are up to the maximum: truncating at every update loses
    nothing against truncating once.
  */
  lemma {:induction false} HistoryIsMostRecent(updates: seq<string>, maxLength: nat)
    ensures IsRecent(updates, Full(updates))
    ensures Run(updates, maxLength) <= Full(updates)
    ensures |Run(updates, maxLength)| == if |Full(updates)| < maxLength then |Full(updates)| else maxLength
  {
    FullIsRecent(updates);
    RunIsTruncated(updates, maxLength);
  }

  lemma {:induction false} RunIsTruncated(updates: seq<string>, maxLength: nat)
    ensures Run(updates, maxLength) == Truncated(Full(updates), maxLength)
    decreases |updates|
  {
    if |updates| > 0 {
      var before := updates[..|updates| - 1];
      RunIsTruncated(before, maxLength);
      FullIsRecent(before);
      FirstIsDistinct(before, Full(before));
      TruncateLater(Full(before), updates[|updates| - 1], maxLength);
    }
  }
}
