/** The names of the log file and of its backups: filelogger.cpp with the path operators of path.cpp. */
module FileLogNames {
  import opened Algorithm
  import opened Paths
  import opened Strings

  const LOG_NAME := "qbittorrent.log"

  function LogPath(folder: string): string {
    Append(folder, LOG_NAME)
  }

  /** Path's operator+ builds, and so cleans, a new path. */
  function Plus(path: string, suffix: string): string {
    CleanPath(path + suffix)
  }

  /** The name the rotation tries at a given value of its counter. */
  function BackupName(path: string, counter: nat): string {
    var first := Plus(path, ".bak");
    if counter == 0 then first else Plus(first, Decimal(counter))
  }

  /** A clean path whose last component is the log's name. */
  predicate IsLogPath(path: string) {
    path != "" && IsClean(path) && EndsWith(Locate(path), LOG_NAME)
  }

  predicate EndsWith(l: Location, name: string) {
    |l.names| > 0 && l.names[|l.names| - 1] == name
  }

  lemma LogPathIs(folder: string)
    ensures IsLogPath(LogPath(folder))
  {
    if folder == "" {
      FollowNames(START, [LOG_NAME]);
      LocateRendered(false, Location(0, [LOG_NAME]));
      assert Render(false, Location(0, [LOG_NAME])) == LOG_NAME;
    } else {
      LocateValid(folder);
      AppendName(folder, LOG_NAME);
      LocateRendered(IsAbsolute(folder), Location(Locate(folder).ups, Locate(folder).names + [LOG_NAME]));
    }
  }

  lemma {:induction false} DecimalDigits(n: nat)
    ensures forall k :: 0 <= k < |Decimal(n)| ==> Decimal(n)[k] in DIGITS
  {
    if n >= 10 {
      DecimalDigits(n / 10);
    }
  }

  lemma JoinLonger(parts: seq<string>, name: string, suffix: string)
    ensures Join(parts + [name + suffix], SEPARATOR) == Join(parts + [name], SEPARATOR) + suffix
  {
    if |parts| == 0 {
      assert parts + [name] == [name] && parts + [name + suffix] == [name + suffix];
    } else {
      JoinAppend(parts, [name], SEPARATOR);
      JoinAppend(parts, [name + suffix], SEPARATOR);
      Regroup(Join(parts + [name], SEPARATOR), Join(parts, SEPARATOR) + [SEPARATOR], name, suffix);
    }
  }

  lemma RenderJoined(absolute: bool, l: Location)
    requires |l.names| > 0
    ensures Render(absolute, l) == (if absolute then [SEPARATOR] else "") + Join(Climb(l.ups, l.names), SEPARATOR)
  {
  }

  lemma RenderLonger(absolute: bool, ups: nat, front: seq<string>, name: string, suffix: string)
    ensures Render(absolute, Location(ups, front + [name + suffix]))
            == Render(absolute, Location(ups, front + [name])) + suffix
  {
    ClimbConcat(ups, front, [name]);
    ClimbConcat(ups, front, [name + suffix]);
    JoinLonger(Climb(ups, front), name, suffix);
    RenderJoined(absolute, Location(ups, front + [name]));
    RenderJoined(absolute, Location(ups, front + [name + suffix]));
    var root := if absolute then [SEPARATOR] else "";
    Regroup(root + Join(Climb(ups, front + [name]), SEPARATOR), root, Join(Climb(ups, front + [name]), SEPARATOR), suffix);
  }

  /** Where a path leads when its last name gets a suffix. */
  function Suffixed(l: Location, suffix: string): Location
    requires |l.names| > 0
  {
    Location(l.ups, l.names[..|l.names| - 1] + [l.names[|l.names| - 1] + suffix])
  }

  lemma PlusSuffix(path: string, suffix: string)
    requires path != "" && IsClean(path) && |Locate(path).names| > 0 && SEPARATOR !in suffix
    requires IsName(Locate(path).names[|Locate(path).names| - 1] + suffix)
    ensures Plus(path, suffix) == path + suffix && IsClean(path + suffix)
    ensures Locate(path + suffix) == Suffixed(Locate(path), suffix)
  {
    var l := Locate(path);
    var front, name := l.names[..|l.names| - 1], l.names[|l.names| - 1];
    LocateValid(path);
    assert l.names == front + [name];
    RenderLonger(IsAbsolute(path), l.ups, front, name, suffix);
    LocateRendered(IsAbsolute(path), Suffixed(l, suffix));
  }

  function BackupSuffix(counter: nat): string {
    if counter == 0 then ".bak" else ".bak" + Decimal(counter)
  }

  lemma SuffixText(counter: nat)
    ensures SEPARATOR !in Decimal(counter) && SEPARATOR !in BackupSuffix(counter)
    ensures IsName(LOG_NAME + BackupSuffix(counter))
  {
  }

  lemma BackupText(path: string, counter: nat)
    requires IsLogPath(path)
    ensures BackupName(path, counter) == path + BackupSuffix(counter)
    ensures Locate(BackupName(path, counter)) == Suffixed(Locate(path), BackupSuffix(counter))
    ensures !IsLogPath(BackupName(path, counter))
  {
    SuffixText(0);
    PlusSuffix(path, ".bak");
    if counter > 0 {
      SuffixText(counter);
      Regroup(LOG_NAME + ".bak", LOG_NAME, ".bak", Decimal(counter));
      PlusSuffix(path + ".bak", Decimal(counter));
      Regroup(path + ".bak", path, ".bak", Decimal(counter));
    }
  }

  /** No two backups, of one log or of different ones, share a name. */
  lemma BackupInjective(p: string, m: nat, q: string, n: nat)
    requires IsLogPath(p) && IsLogPath(q) && BackupName(p, m) == BackupName(q, n)
    ensures p == q && m == n
  {
    BackupText(p, m);
    BackupText(q, n);
    var l, r := Suffixed(Locate(p), BackupSuffix(m)), Suffixed(Locate(q), BackupSuffix(n));
    assert l == r;
    assert l.names[|l.names| - 1] == LOG_NAME + BackupSuffix(m) && r.names[|r.names| - 1] == LOG_NAME + BackupSuffix(n);
    assert BackupSuffix(m) == (LOG_NAME + BackupSuffix(m))[|LOG_NAME|..];
    assert BackupSuffix(n) == (LOG_NAME + BackupSuffix(n))[|LOG_NAME|..];
    SameSuffix(m, n);
    assert p == BackupName(p, m)[..|BackupName(p, m)| - |BackupSuffix(m)|];
  }

  lemma SameSuffix(m: nat, n: nat)
    requires BackupSuffix(m) == BackupSuffix(n)
    ensures m == n
  {
    if m > 0 && n > 0 {
      assert Decimal(m) == BackupSuffix(m)[4..] && Decimal(n) == BackupSuffix(n)[4..];
      DecimalInjective(m, n);
    }
  }

  // ----- The first unused name -----

  ghost predicate AllUsed(used: set<string>, path: string, count: nat) {
    forall k: nat :: k < count ==> BackupName(path, k) in used
  }

  ghost predicate IsFirstUnused(used: set<string>, path: string, counter: nat) {
    BackupName(path, counter) !in used && AllUsed(used, path, counter)
  }

  lemma {:induction false} DistinctBound(names: seq<string>, used: set<string>)
    requires Distinct(names) && forall k :: 0 <= k < |names| ==> names[k] in used
    ensures |names| <= |used|
  {
    if |names| > 0 {
      var last := names[|names| - 1];
      DistinctBound(names[..|names| - 1], used - {last});
    }
  }

  /** A finite set of files cannot use up all the names. */
  lemma UsedNamesBound(used: set<string>, path: string, count: nat)
    requires IsLogPath(path) && AllUsed(used, path, count)
    ensures count <= |used|
  {
    var names := seq(count, k requires 0 <= k < count => BackupName(path, k));
    forall i, j | 0 <= i < j < count ensures names[i] != names[j] {
      if BackupName(path, i) == BackupName(path, j) {
        BackupInjective(path, i, path, j);
        assert false;
      }
    }
    DistinctBound(names, used);
  }

  /** When a name is used as well, the search goes on, but not forever. */
  lemma NextName(used: set<string>, path: string, counter: nat)
    requires IsLogPath(path) && AllUsed(used, path, counter) && BackupName(path, counter) in used
    ensures AllUsed(used, path, counter + 1) && counter + 1 <= |used|
  {
    UsedNamesBound(used, path, counter + 1);
  }

  lemma {:induction false} FindUnused(used: set<string>, path: string, counter: nat) returns (n: nat)
    requires IsLogPath(path) && AllUsed(used, path, counter)
    ensures IsFirstUnused(used, path, n)
    decreases |used| - counter
  {
    if BackupName(path, counter) !in used {
      n := counter;
    } else {
      NextName(used, path, counter);
      n := FindUnused(used, path, counter + 1);
    }
  }

  lemma SomeUnused(used: set<string>, path: string)
    requires IsLogPath(path)
    ensures exists n: nat :: IsFirstUnused(used, path, n)
  {
    var n := FindUnused(used, path, 0);
  }

  /** The value of the rotation's counter at which it stops. */
  ghost function FirstUnused(used: set<string>, path: string): (counter: nat)
    requires IsLogPath(path)
    ensures IsFirstUnused(used, path, counter)
  {
    SomeUnused(used, path);
    var counter: nat :| IsFirstUnused(used, path, counter);
    counter
  }

  lemma FirstUnusedIs(used: set<string>, path: string, counter: nat)
    requires IsLogPath(path) && IsFirstUnused(used, path, counter)
    ensures FirstUnused(used, path) == counter
  {
  }
}
