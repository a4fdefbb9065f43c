/**
  Paths as the strings that Path::m_pathStr holds, on a platform whose separator is '/'.
  QDir::cleanPath and QDir::relativeFilePath are modelled from their documented behaviour.
*/
module Paths {
  import opened Strings

  const SEPARATOR := '/'

  // ----- Cleaning -----

  /** A part of a path that stands for a directory entry. */
  predicate IsName(part: string) {
    part != "" && part != "." && part != ".." && SEPARATOR !in part
  }

  predicate AreNames(parts: seq<string>) {
    forall k :: 0 <= k < |parts| ==> IsName(parts[k])
  }

  /** A resolved path: some steps up that nothing cancels, then names. */
  datatype Location = Location(ups: nat, names: seq<string>) {
    predicate Valid() {
      AreNames(names)
    }

    function Step(part: string): Location {
      if part == "" || part == "." then this
      else if part == ".." then
        if |names| > 0 then Location(ups, names[..|names| - 1]) else Location(ups + 1, [])
      else Location(ups, names + [part])
    }

    function Follow(parts: seq<string>): Location
      decreases |parts|
    {
      if |parts| == 0 then this else Step(parts[0]).Follow(parts[1..])
    }

    /** n steps up take away names from the end and pile up when there are none left. */
    function Up(n: nat): Location {
      if n <= |names| then Location(ups, names[..|names| - n]) else Location(ups + (n - |names|), [])
    }

    function Parts(): seq<string> {
      Climb(ups, names)
    }
  }

  const START := Location(0, [])

  /** The parts with n steps up before them. */
  function Climb(n: nat, parts: seq<string>): (all: seq<string>)
    ensures |all| == n + |parts|
  {
    if n == 0 then parts else [".."] + Climb(n - 1, parts)
  }

  function Locate(path: string): Location {
    START.Follow(Split(path, SEPARATOR))
  }

  predicate IsAbsolute(path: string) {
    |path| > 0 && path[0] == SEPARATOR
  }

  /** The text of a resolved path. */
  function Render(absolute: bool, l: Location): string {
    if absolute then [SEPARATOR] + Join(l.Parts(), SEPARATOR)
    else if l == START then "."
    else Join(l.Parts(), SEPARATOR)
  }

  /** QDir::cleanPath. */
  function CleanPath(path: string): string {
    if path == "" then "" else Render(IsAbsolute(path), Locate(path))
  }

  /** What every Path built from a string satisfies. */
  predicate IsClean(path: string) {
    CleanPath(path) == path
  }

  lemma {:induction false} FollowConcat(l: Location, a: seq<string>, b: seq<string>)
    ensures l.Follow(a + b) == l.Follow(a).Follow(b)
    decreases |a|
  {
    if |a| == 0 {
      assert a + b == b;
    } else {
      assert (a + b)[1..] == a[1..] + b;
      FollowConcat(l.Step(a[0]), a[1..], b);
    }
  }

  lemma {:induction false} FollowValid(l: Location, parts: seq<string>)
    requires l.Valid() && forall k :: 0 <= k < |parts| ==> SEPARATOR !in parts[k]
    ensures l.Follow(parts).Valid()
    decreases |parts|
  {
    if |parts| > 0 {
      FollowValid(l.Step(parts[0]), parts[1..]);
    }
  }

  lemma {:induction false} FollowNames(l: Location, names: seq<string>)
    requires AreNames(names)
    ensures l.Follow(names) == Location(l.ups, l.names + names)
    decreases |names|
  {
    if |names| == 0 {
      assert l.names + names == l.names;
    } else {
      FollowNames(l.Step(names[0]), names[1..]);
      assert l.names + [names[0]] + names[1..] == l.names + names;
    }
  }

  lemma {:induction false} FollowClimb(l: Location, n: nat, parts: seq<string>)
    ensures l.Follow(Climb(n, parts)) == l.Up(n).Follow(parts)
    decreases n
  {
    if n == 0 {
      assert l.names[..|l.names|] == l.names;
    } else {
      assert Climb(n, parts)[1..] == Climb(n - 1, parts);
      FollowClimb(l.Step(".."), n - 1, parts);
      assert l.Step("..").Up(n - 1) == l.Up(n);
    }
  }

  lemma FollowParts(l: Location)
    requires l.Valid()
    ensures START.Follow(l.Parts()) == l
  {
    FollowClimb(START, l.ups, l.names);
    FollowNames(START.Up(l.ups), l.names);
    assert [] + l.names == l.names;
  }

  lemma LocateValid(path: string)
    ensures Locate(path).Valid()
  {
    SplitParts(path, SEPARATOR);
    FollowValid(START, Split(path, SEPARATOR));
  }

  lemma {:induction false} ClimbAt(n: nat, parts: seq<string>)
    ensures forall k :: 0 <= k < n + |parts| ==> Climb(n, parts)[k] == if k < n then ".." else parts[k - n]
  {
    if n > 0 {
      ClimbAt(n - 1, parts);
    }
  }

  lemma {:induction false} ClimbConcat(n: nat, a: seq<string>, b: seq<string>)
    ensures Climb(n, a + b) == Climb(n, a) + b
  {
    if n > 0 {
      ClimbConcat(n - 1, a, b);
    }
  }

  /** The parts of a rendered path can be read off again. */
  lemma PartsJoined(l: Location)
    requires l.Valid() && l != START
    ensures Split(Join(l.Parts(), SEPARATOR), SEPARATOR) == l.Parts()
    ensures Join(l.Parts(), SEPARATOR) != "" && !IsAbsolute(Join(l.Parts(), SEPARATOR))
  {
    ClimbAt(l.ups, l.names);
    var parts := l.Parts();
    assert parts[0] != "" && SEPARATOR !in parts[0];
    assert parts[0][0] in parts[0];
    SplitJoin(parts, SEPARATOR);
  }

  lemma FollowEmpty(l: Location)
    ensures l.Follow([""]) == l && l.Follow(["."]) == l
  {
  }

  /** From anywhere, following the text of a relative location is following its parts. */
  lemma FollowRendered(from: Location, absolute: bool, l: Location)
    requires l.Valid()
    ensures from.Follow(Split(Render(absolute, l), SEPARATOR)) == from.Follow(l.Parts())
    ensures IsAbsolute(Render(absolute, l)) == absolute && Render(absolute, l) != ""
  {
    var joined := Join(l.Parts(), SEPARATOR);
    FollowEmpty(from);
    if l == START {
      assert l.Parts() == [];
      SplitWithout("", SEPARATOR);
      SplitWithout(".", SEPARATOR);
    } else {
      PartsJoined(l);
    }
    if absolute {
      assert Render(absolute, l)[1..] == joined;
      assert Split(Render(absolute, l), SEPARATOR) == [""] + Split(joined, SEPARATOR);
      FollowConcat(from, [""], Split(joined, SEPARATOR));
    }
  }

  /** Rendering and locating are inverse to each other, so rendered paths are clean. */
  lemma LocateRendered(absolute: bool, l: Location)
    requires l.Valid()
    ensures Locate(Render(absolute, l)) == l
    ensures IsAbsolute(Render(absolute, l)) == absolute
    ensures Render(absolute, l) != "" && IsClean(Render(absolute, l))
  {
    FollowRendered(START, absolute, l);
    FollowParts(l);
  }

  /** Cleaning is idempotent: a Path stays the same when it is built again. */
  lemma CleanIdempotent(path: string)
    ensures IsClean(CleanPath(path))
    ensures path != "" ==> Locate(CleanPath(path)) == Locate(path)
    ensures path != "" ==> CleanPath(path) != "" && IsAbsolute(CleanPath(path)) == IsAbsolute(path)
  {
    if path != "" {
      LocateValid(path);
      LocateRendered(IsAbsolute(path), Locate(path));
    }
  }

  /** path.cpp only calls cleanPath when there is a separator; the result is the same either way. */
  lemma {:induction false} NothingToClean(path: string)
    requires SEPARATOR !in path
    ensures IsClean(path)
  {
    SplitWithout(path, SEPARATOR);
    assert START.Follow([path]) == START.Step(path).Follow([]);
    assert Climb(1, []) == [".."];
  }

  // ----- Parts of a path -----

  function LastIndexOf(s: string, c: char): (i: int)
    ensures -1 <= i < |s|
    ensures i >= 0 ==> s[i] == c
    ensures forall k :: i < k < |s| ==> s[k] != c
  {
    if |s| == 0 then -1
    else if s[|s| - 1] == c then |s| - 1
    else LastIndexOf(s[..|s| - 1], c)
  }

  /** Path::parentPath. */
  function ParentPath(path: string): string {
    var slash := LastIndexOf(path, SEPARATOR);
    if slash == -1 then ""
    else if slash == 0 then (if |path| == 1 then "" else [SEPARATOR])
    else path[..slash]
  }

  lemma LastIndexUnique(s: string, c: char, i: nat)
    requires i < |s| && s[i] == c && forall k :: i < k < |s| ==> s[k] != c
    ensures LastIndexOf(s, c) == i
  {
  }

  predicate ArePlain(parts: seq<string>) {
    forall k :: 0 <= k < |parts| ==> parts[k] != "" && SEPARATOR !in parts[k]
  }

  function Root(absolute: bool): string {
    if absolute then [SEPARATOR] else ""
  }

  lemma ParentOfTop(absolute: bool, name: string)
    requires name != "" && SEPARATOR !in name
    ensures ParentPath(Root(absolute) + name) == Root(absolute)
  {
    var whole := Root(absolute) + name;
    if absolute {
      assert forall k :: 0 < k < |whole| ==> whole[k] == name[k - 1];
      LastIndexUnique(whole, SEPARATOR, 0);
    } else {
      assert whole == name;
      assert LastIndexOf(name, SEPARATOR) == -1;
    }
  }

  lemma JoinNotEmpty(parts: seq<string>)
    requires |parts| > 0 && parts[0] != ""
    ensures Join(parts, SEPARATOR) != ""
  {
  }

  /** The parent of a path, absolute or not, drops exactly its last component. */
  lemma ParentDropsLast(absolute: bool, front: seq<string>, name: string)
    requires ArePlain(front + [name])
    ensures ParentPath(Root(absolute) + Join(front + [name], SEPARATOR)) == Root(absolute) + Join(front, SEPARATOR)
  {
    assert (front + [name])[|front|] == name;
    if |front| == 0 {
      assert front + [name] == [name] && Root(absolute) + "" == Root(absolute);
      ParentOfTop(absolute, name);
    } else {
      assert (front + [name])[0] == front[0];
      JoinNotEmpty(front);
      JoinAppend(front, [name], SEPARATOR);
      var joined := Join(front, SEPARATOR);
      assert Root(absolute) + (joined + [SEPARATOR] + name) == (Root(absolute) + joined) + [SEPARATOR] + name;
      ParentOf(Root(absolute) + joined, name);
    }
  }

  /** The root and the empty path have no parent. */
  lemma NoParent()
    ensures ParentPath([SEPARATOR]) == "" && ParentPath("") == ""
  {
    LastIndexUnique([SEPARATOR], SEPARATOR, 0);
  }

  lemma ParentOf(front: string, name: string)
    requires front != "" && SEPARATOR !in name
    ensures ParentPath(front + [SEPARATOR] + name) == front
  {
    var whole := front + [SEPARATOR] + name;
    assert forall k :: |front| < k < |whole| ==> whole[k] == name[k - |front| - 1];
    LastIndexUnique(whole, SEPARATOR, |front|);
  }

  // ----- Joining (operator/) -----

  function Append(lhs: string, rhs: string): string {
    if rhs == "" then lhs
    else if lhs == "" then rhs
    else CleanPath(lhs + [SEPARATOR] + rhs)
  }

  /** Appending follows the second path from where the first one leads. */
  lemma AppendFollows(lhs: string, rhs: string)
    requires lhs != "" && rhs != ""
    ensures Locate(Append(lhs, rhs)) == Locate(lhs).Follow(Split(rhs, SEPARATOR))
    ensures Append(lhs, rhs) == Render(IsAbsolute(lhs), Locate(lhs).Follow(Split(rhs, SEPARATOR)))
  {
    SplitAtSeparator(lhs, rhs, SEPARATOR);
    FollowConcat(START, Split(lhs, SEPARATOR), Split(rhs, SEPARATOR));
    CleanIdempotent(lhs + [SEPARATOR] + rhs);
  }

  /** Appending one ordinary name adds one component. */
  lemma AppendName(path: string, name: string)
    requires path != "" && IsName(name)
    ensures Locate(Append(path, name)) == Location(Locate(path).ups, Locate(path).names + [name])
    ensures Append(path, name) == Render(IsAbsolute(path), Location(Locate(path).ups, Locate(path).names + [name]))
  {
    AppendFollows(path, name);
    SplitWithout(name, SEPARATOR);
    FollowNames(Locate(path), [name]);
  }

  // ----- Common prefixes -----

  function CommonCount<T(==)>(a: seq<T>, b: seq<T>): (n: nat)
    ensures n <= |a| && n <= |b|
  {
    if |a| > 0 && |b| > 0 && a[0] == b[0] then CommonCount(a[1..], b[1..]) + 1 else 0
  }

  lemma {:induction false} CommonCountFirst<T>(a: seq<T>, b: seq<T>)
    ensures var n := CommonCount(a, b); forall k :: 0 <= k < n ==> a[k] == b[k]
    ensures var n := CommonCount(a, b); n < |a| && n < |b| ==> a[n] != b[n]
  {
    if |a| > 0 && |b| > 0 && a[0] == b[0] {
      CommonCountFirst(a[1..], b[1..]);
      assert forall k :: 1 <= k < CommonCount(a, b) ==> a[k] == a[1..][k - 1] && b[k] == b[1..][k - 1];
    }
  }

  lemma CommonCountUnique<T>(a: seq<T>, b: seq<T>, n: nat)
    requires n <= |a| && n <= |b| && forall k :: 0 <= k < n ==> a[k] == b[k]
    requires n < |a| && n < |b| ==> a[n] != b[n]
    ensures CommonCount(a, b) == n
  {
    CommonCountFirst(a, b);
  }

  /** The size of the first `n` components with the separators between them. */
  lemma {:induction false} PrefixSize(items: seq<string>, n: nat)
    requires n <= |items|
    ensures |Join(items[..n], SEPARATOR)| <= |Join(items, SEPARATOR)|
    ensures Join(items, SEPARATOR)[..|Join(items[..n], SEPARATOR)|] == Join(items[..n], SEPARATOR)
  {
    if n == 0 {
    } else if n == |items| {
      assert items[..n] == items;
    } else {
      assert items == items[..n] + items[n..];
      JoinAppend(items[..n], items[n..], SEPARATOR);
    }
  }

  lemma JoinSnoc(items: seq<string>, n: nat)
    requires n < |items|
    ensures |Join(items[..n + 1], SEPARATOR)| == |Join(items[..n], SEPARATOR)| + (if n > 0 then 1 else 0) + |items[n]|
  {
    assert items[..n + 1] == items[..n] + [items[n]];
    if n > 0 {
      JoinAppend(items[..n], [items[n]], SEPARATOR);
    }
  }

  /**
    Path::commonPath. The running size counts the components only; the separators are added at the
    end. The cut always falls at a component boundary: the result is the join of the longest list
    of components that both paths start with.
  */
  method CommonPath(left: string, right: string) returns (common: string)
    ensures left == "" || right == "" ==> common == ""
    ensures left != "" && right != "" ==>
      var a, b := Split(left, SEPARATOR), Split(right, SEPARATOR);
      common == Join(a[..CommonCount(a, b)], SEPARATOR)
  {
    if left == "" || right == "" {
      return "";
    }
    var leftItems, rightItems := Split(left, SEPARATOR), Split(right, SEPARATOR);
    var count, size := 0, 0;
    while count < |leftItems| && count < |rightItems|
      invariant 0 <= count <= |leftItems| && count <= |rightItems|
      invariant forall k :: 0 <= k < count ==> leftItems[k] == rightItems[k]
      invariant size == |Join(leftItems[..count], SEPARATOR)| - (if count > 0 then count - 1 else 0)
    {
      if leftItems[count] != rightItems[count] {
        break;
      }
      JoinSnoc(leftItems, count);
      size := size + |leftItems[count]|;
      count := count + 1;
    }
    CommonCountUnique(leftItems, rightItems, count);
    if count > 0 {
      size := size + (count - 1);
    }
    PrefixSize(leftItems, count);
    common := left[..size];
  }

  ghost predicate IsLongestCommonPrefix(common: seq<string>, a: seq<string>, b: seq<string>) {
    && common <= a && common <= b
    && forall other: seq<string> :: other <= a && other <= b ==> |other| <= |common|
  }

  /** The specification of CommonPath is the longest common prefix, and it is symmetric. */
  lemma CommonPathIsLongestPrefix(a: seq<string>, b: seq<string>)
    ensures IsLongestCommonPrefix(a[..CommonCount(a, b)], a, b)
    ensures a[..CommonCount(a, b)] == b[..CommonCount(b, a)]
  {
    var n := CommonCount(a, b);
    CommonCountFirst(a, b);
    forall other: seq<string> | other <= a && other <= b
      ensures |other| <= n
    {
      assert forall k :: 0 <= k < |other| ==> a[k] == other[k] == b[k];
    }
    CommonCountUnique(b, a, n);
  }

  // ----- Relative paths -----

  function UpSteps(n: nat): string {
    if n == 0 then "" else ".." + [SEPARATOR] + UpSteps(n - 1)
  }

  /** The user's home and the current directory of the process. */
  datatype Places = Places(home: string, current: string)

  function Absolute(place: string, path: string): string {
    if IsAbsolute(path) then path else place + [SEPARATOR] + path
  }

  /** QDir(dir).relativeFilePath(file); a relative dir is taken from the current directory. */
  function RelativeFilePath(dir: string, file: string, current: string): string {
    if !IsAbsolute(file) then CleanPath(file)
    else
      var (ups, rest) := Between(Locate(Absolute(current, dir)).Parts(), Locate(file).Parts());
      RelativeText(ups, rest)
  }

  /** How many components to leave, and the components to enter then. */
  function Between(d: seq<string>, f: seq<string>): (nat, seq<string>) {
    var n := CommonCount(d, f);
    (|d| - n, f[n..])
  }

  function RelativeText(ups: nat, rest: seq<string>): string {
    var text := UpSteps(ups) + Join(rest, SEPARATOR);
    if text == "" then "." else text
  }

  /** Path::relativePathOf; two relative paths are both taken to be below the home directory. */
  function RelativePathOf(base: string, child: string, places: Places): string {
    CleanPath(
      if !IsAbsolute(base) && !IsAbsolute(child)
      then RelativeFilePath(Absolute(places.home, base), Absolute(places.home, child), places.current)
      else RelativeFilePath(base, child, places.current))
  }

  /** The way from one location to another: steps up, then names. */
  function Way(from: Location, to: Location): Location {
    if from.ups == to.ups then
      var n := CommonCount(from.names, to.names);
      Location(|from.names| - n, to.names[n..])
    else if from.ups < to.ups then Location(|from.names| + (to.ups - from.ups), to.names)
    else Location(|from.names| + (from.ups - to.ups), to.names)
  }

  lemma {:induction false} UpStepsSplit(n: nat, rest: string)
    ensures Split(UpSteps(n) + rest, SEPARATOR) == Climb(n, Split(rest, SEPARATOR))
  {
    if n == 0 {
      assert UpSteps(0) + rest == rest;
    } else {
      UpStepsSplit(n - 1, rest);
      OneMoreStep("..", UpSteps(n - 1), rest);
    }
  }

  lemma OneMoreStep(up: string, steps: string, rest: string)
    requires SEPARATOR !in up
    ensures Split(up + [SEPARATOR] + steps + rest, SEPARATOR) == [up] + Split(steps + rest, SEPARATOR)
  {
    assert up + [SEPARATOR] + steps + rest == up + [SEPARATOR] + (steps + rest);
    SplitFirst(up, steps + rest, SEPARATOR);
  }

  /** The text made of steps up and a further relative location leads where both lead. */
  lemma RelativeTextLocates(ups: nat, rest: Location)
    requires rest.Valid()
    ensures RelativeText(ups, rest.Parts()) != "" && !IsAbsolute(RelativeText(ups, rest.Parts()))
    ensures Locate(RelativeText(ups, rest.Parts())) == Location(ups + rest.ups, rest.names)
  {
    var text := Join(rest.Parts(), SEPARATOR);
    UpThenText(ups, text);
    UpStepsText(ups, text);
    if rest == START {
      assert rest.Parts() == [];
      FollowEmpty(Location(ups, []));
      SplitWithout("", SEPARATOR);
      SplitWithout(".", SEPARATOR);
    } else {
      PartsJoined(rest);
      FollowFromUp(Location(ups, []), rest);
    }
  }

  lemma UpThenText(ups: nat, text: string)
    ensures Locate(UpSteps(ups) + text) == Location(ups, []).Follow(Split(text, SEPARATOR))
  {
    UpStepsSplit(ups, text);
    ClimbFromStart(ups, Split(text, SEPARATOR));
  }

  lemma ClimbFromStart(ups: nat, parts: seq<string>)
    ensures START.Follow(Climb(ups, parts)) == Location(ups, []).Follow(parts)
  {
    FollowClimb(START, ups, parts);
    assert START.Up(ups) == Location(ups, []);
  }

  lemma UpStepsText(ups: nat, text: string)
    ensures ups > 0 ==> |UpSteps(ups) + text| > 0 && !IsAbsolute(UpSteps(ups) + text)
    ensures ups == 0 ==> UpSteps(ups) + text == text
  {
  }

  lemma FollowFromUp(up: Location, rest: Location)
    requires up.names == [] && rest.Valid()
    ensures up.Follow(rest.Parts()) == Location(up.ups + rest.ups, rest.names)
  {
    FollowClimb(up, rest.ups, rest.names);
    FollowNames(Location(up.ups + rest.ups, []), rest.names);
    assert [] + rest.names == rest.names;
  }

  lemma {:induction false} BetweenClimbs(n: nat, a: seq<string>, b: seq<string>)
    ensures Between(Climb(n, a), Climb(n, b)) == Between(a, b)
  {
    if n > 0 {
      BetweenClimbs(n - 1, a, b);
      BetweenSame("..", Climb(n - 1, a), Climb(n - 1, b));
    }
  }

  lemma BetweenSame(part: string, a: seq<string>, b: seq<string>)
    ensures Between([part] + a, [part] + b) == Between(a, b)
  {
  }

  lemma {:induction false} ClimbTwice(m: nat, n: nat, parts: seq<string>)
    ensures Climb(m + n, parts) == Climb(m, Climb(n, parts))
  {
    if m > 0 {
      ClimbTwice(m - 1, n, parts);
    }
  }

  /** What is left of the target after the common components, for each way two locations can differ. */
  function Rest(from: Location, to: Location): Location {
    if from.ups == to.ups then Location(0, to.names[CommonCount(from.names, to.names)..])
    else if from.ups < to.ups then Location(to.ups - from.ups, to.names)
    else Location(0, to.names)
  }

  /** Comparing the written components finds exactly the rest. */
  lemma CommonParts(from: Location, to: Location)
    requires from.Valid() && to.Valid()
    ensures Rest(from, to).Valid() && Rest(from, to).names == Way(from, to).names && Rest(from, to).ups <= Way(from, to).ups
    ensures Between(from.Parts(), to.Parts()) == (Way(from, to).ups - Rest(from, to).ups, Rest(from, to).Parts())
  {
    if from.ups == to.ups {
      BetweenClimbs(from.ups, from.names, to.names);
    } else if from.ups < to.ups {
      BetweenFewerUps(from.ups, from.names, to.ups - from.ups, to.names);
    } else {
      BetweenMoreUps(to.ups, from.ups - to.ups, from.names, to.names);
    }
  }

  lemma BetweenFewerUps(n: nat, names: seq<string>, more: nat, toNames: seq<string>)
    requires AreNames(names) && more > 0
    ensures Between(Climb(n, names), Climb(n + more, toNames)) == (|names|, Climb(more, toNames))
  {
    ClimbTwice(n, more, toNames);
    BetweenClimbs(n, names, Climb(more, toNames));
    BetweenNothingCommon(names, Climb(more, toNames));
  }

  lemma BetweenMoreUps(n: nat, more: nat, names: seq<string>, toNames: seq<string>)
    requires AreNames(toNames) && more > 0
    ensures Between(Climb(n + more, names), Climb(n, toNames)) == (more + |names|, toNames)
  {
    ClimbTwice(n, more, names);
    BetweenClimbs(n, Climb(more, names), toNames);
    BetweenNothingCommon(Climb(more, names), toNames);
  }

  lemma BetweenNothingCommon(a: seq<string>, b: seq<string>)
    requires |a| > 0 && |b| > 0 ==> a[0] != b[0]
    ensures Between(a, b) == (|a|, b)
  {
  }

  /** relativeFilePath leads from the directory to the file by the shortest way. */
  lemma RelativeLocates(dir: string, file: string, current: string)
    requires IsAbsolute(file)
    ensures var relative := RelativeFilePath(dir, file, current);
      relative != "" && !IsAbsolute(relative) && Locate(relative) == Way(Locate(Absolute(current, dir)), Locate(file))
  {
    LocateValid(Absolute(current, dir));
    LocateValid(file);
    RelativeFromLocations(Locate(Absolute(current, dir)), Locate(file));
  }

  lemma RelativeFromLocations(d: Location, f: Location)
    requires d.Valid() && f.Valid()
    ensures var (ups, rest) := Between(d.Parts(), f.Parts());
      var relative := RelativeText(ups, rest);
      relative != "" && !IsAbsolute(relative) && Locate(relative) == Way(d, f)
  {
    CommonParts(d, f);
    RelativeTextLocates(Way(d, f).ups - Rest(d, f).ups, Rest(d, f));
  }

  /** The relative path to an absolute path is the way from the base, which counts from the current directory if it is relative. */
  lemma RelativePathIsWay(base: string, path: string, places: Places)
    requires IsAbsolute(path)
    ensures Way(Locate(Absolute(places.current, base)), Locate(path)).Valid()
    ensures RelativePathOf(base, path, places) == Render(false, Way(Locate(Absolute(places.current, base)), Locate(path)))
  {
    LocateValid(path);
    RelativeLocates(base, path, places.current);
  }

  /** Between two relative paths it is the way between their places below the home directory. */
  lemma RelativePathBelowHome(base: string, path: string, places: Places)
    requires !IsAbsolute(base) && !IsAbsolute(path) && IsAbsolute(places.home)
    ensures
      var from, to := Locate(Absolute(places.home, base)), Locate(Absolute(places.home, path));
      Way(from, to).Valid() && RelativePathOf(base, path, places) == Render(false, Way(from, to))
  {
    LocateValid(Absolute(places.home, path));
    RelativeLocates(Absolute(places.home, base), Absolute(places.home, path), places.current);
  }

  /** A relative path is already the way to itself from an absolute base. */
  lemma RelativeStays(base: string, path: string, places: Places)
    requires IsAbsolute(base) && !IsAbsolute(path)
    ensures RelativePathOf(base, path, places) == CleanPath(path)
  {
    CleanIdempotent(path);
  }
}
