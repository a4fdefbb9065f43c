/** Whole runs of a log file: nothing that was logged is lost, and no backup is overwritten. */
module FileLoggerRuns {
  import opened FileLogNames
  import opened FileLogger
  import opened Paths
  import opened Strings

  datatype Event =
    | ChangePath(newPath: string, opens: bool)
    | Message(entry: Entry)
    | FlushTimeout
    | SetBackup(value: bool)
    | FileCreated(name: string, content: string)   // by another program, but not under a log's own name

  function WithFile(s: State, name: string, content: string): State {
    if name in s.files || IsLogPath(name) then s else s.(files := s.files[name := content])
  }

  ghost function Step(s: State, e: Event): State
    requires Inv(s)
  {
    match e
    case ChangePath(newPath, opens) => PathChanged(s, newPath, opens)
    case Message(entry) => Added(s, entry)
    case FlushTimeout => TimedOut(s)
    case SetBackup(value) => s.(backup := value)
    case FileCreated(name, content) => WithFile(s, name, content)
  }

  /** What one event adds to a log: the line of a message that comes while this log is open. */
  function Accepted(s: State, e: Event, p: string): string {
    if e.Message? && s.isOpen && s.path == p then e.entry.Text() else ""
  }

  lemma WithFileKeeps(s: State, name: string, content: string, p: string)
    requires Inv(s)
    ensures Inv(WithFile(s, name, content))
    ensures IsLogPath(p) ==> Whole(WithFile(s, name, content), p) == Whole(s, p)
  {
    BackupsStay(s, WithFile(s, name, content).files, p);
  }

  lemma StepKeeps(s: State, e: Event, p: string)
    requires Inv(s)
    ensures Inv(Step(s, e)) && (IsLogPath(p) ==> Whole(Step(s, e), p) == Whole(s, p) + Accepted(s, e, p))
  {
    assert Whole(s, p) + "" == Whole(s, p);
    match e
    case ChangePath(newPath, opens) => PathChangedKeeps(s, newPath, opens, p);
    case Message(entry) => AddedKeeps(s, entry, p);
    case FlushTimeout => TimedOutKeeps(s, p);
    case SetBackup(value) =>
    case FileCreated(name, content) => WithFileKeeps(s, name, content, p);
  }

  ghost function Run(s: State, events: seq<Event>): State
    requires Inv(s)
    decreases |events|
  {
    if |events| == 0 then s
    else
      StepKeeps(s, events[0], "");
      Run(Step(s, events[0]), events[1..])
  }

  ghost function AllAccepted(s: State, events: seq<Event>, p: string): string
    requires Inv(s)
    decreases |events|
  {
    if |events| == 0 then ""
    else
      StepKeeps(s, events[0], "");
      Accepted(s, events[0], p) + AllAccepted(Step(s, events[0]), events[1..], p)
  }

  lemma {:induction false} RunKeeps(s: State, events: seq<Event>, p: string)
    requires Inv(s)
    ensures Inv(Run(s, events))
    ensures IsLogPath(p) ==> Whole(Run(s, events), p) == Whole(s, p) + AllAccepted(s, events, p)
    decreases |events|
  {
    if |events| == 0 {
      assert Whole(s, p) + "" == Whole(s, p);
    } else {
      StepKeeps(s, events[0], p);
      var t := Step(s, events[0]);
      RunKeeps(t, events[1..], p);
      if IsLogPath(p) {
        Regroup(Whole(t, p), Whole(s, p), Accepted(s, events[0], p), AllAccepted(t, events[1..], p));
      }
    }
  }

  /**
    However renames and openings fail, and whatever files others create: the backups of a log in the
    order of their rotation, followed by the log file and by what waits to be flushed, are its first
    content followed by every line that was logged while it was open, in order. What waits to be
    flushed has the flush timer running.
  */
  lemma NothingIsLost(files: Files, backup: bool, events: seq<Event>, p: string)
    requires IsLogPath(p)
    ensures
      var s := Run(Start(files, backup), events);
      && Contents(s.files, Backups(s, p)) + Content(s.files, p) + Unwritten(s, p)
         == Content(files, p) + AllAccepted(Start(files, backup), events, p)
      && (s.buffer != "" ==> s.isOpen && s.flushing)
  {
    RunKeeps(Start(files, backup), events, p);
    var first := Start(files, backup);
    assert Backups(first, p) == [] && Whole(first, p) == Content(files, p) + "";
    assert Content(files, p) + "" == Content(files, p);
  }

  /** When the flush timer fires, every line logged so far is in the files, in order, and the timer is over. */
  lemma NothingWaitsAfterFlush(files: Files, backup: bool, events: seq<Event>, p: string)
    requires IsLogPath(p)
    ensures
      && Inv(Run(Start(files, backup), events))
      && var s := Step(Run(Start(files, backup), events), FlushTimeout);
      && Contents(s.files, Backups(s, p)) + Content(s.files, p)
         == Content(files, p) + AllAccepted(Start(files, backup), events, p)
      && s.buffer == "" && !s.flushing
  {
    NothingIsLost(files, backup, events, p);
    RunKeeps(Start(files, backup), events, p);
    var s := Run(Start(files, backup), events);
    StepKeeps(s, FlushTimeout, p);
    var t := Step(s, FlushTimeout);
    assert Whole(t, p) == Contents(t.files, Backups(t, p)) + Content(t.files, p) + "";
    assert Whole(t, p) == Contents(t.files, Backups(t, p)) + Content(t.files, p);
    assert Whole(s, p) + "" == Whole(s, p);
  }

  // ----- Files other than the logs -----

  /** Every file that is not a log is still there with its content. */
  ghost predicate KeepsOthers(s: State, t: State) {
    forall name :: name in s.files && !IsLogPath(name) ==> name in t.files && t.files[name] == s.files[name]
  }

  lemma RotatedKeepsOthers(s: State, renames: bool, opens: bool)
    requires s.isOpen && IsLogPath(s.path)
    ensures KeepsOthers(s, Rotated(s, renames, opens))
  {
    var t := Closed(s);
    var name := BackupName(s.path, FirstUnused(t.files.Keys, s.path));
    assert name !in t.files.Keys;
    var u := if renames then Renamed(t, name) else t;
    assert KeepsOthers(s, t) && KeepsOthers(t, u) && KeepsOthers(u, Opened(u, opens));
  }

  lemma PathChangedKeepsOthers(s: State, newPath: string, opens: bool)
    requires Inv(s)
    ensures KeepsOthers(s, PathChanged(s, newPath, opens))
  {
    LogPathIs(newPath);
    var t := Closed(s).(path := LogPath(newPath));
    assert KeepsOthers(s, t) && KeepsOthers(t, Opened(t, opens));
  }

  lemma StepKeepsOthers(s: State, e: Event)
    requires Inv(s)
    ensures KeepsOthers(s, Step(s, e))
  {
    match e
    case ChangePath(newPath, opens) => PathChangedKeepsOthers(s, newPath, opens);
    case Message(entry) =>
      if s.isOpen && s.backup && entry.full {
        var t := s.(buffer := s.buffer + entry.Text());
        assert t.files == s.files;
        RotatedKeepsOthers(t, entry.renames, entry.reopens);
      }
    case _ =>
  }

  /** No rotation ever overwrites or removes a backup, or any other file. */
  lemma {:induction false} NeverOverwritten(s: State, events: seq<Event>)
    requires Inv(s)
    ensures KeepsOthers(s, Run(s, events))
    decreases |events|
  {
    if |events| > 0 {
      StepKeeps(s, events[0], "");
      StepKeepsOthers(s, events[0]);
      NeverOverwritten(Step(s, events[0]), events[1..]);
    }
  }

  // ----- The order of the backups' numbers -----

  /** The backups of a log are the first names of the sequence, and no other name of it is taken. */
  ghost predicate InOrder(s: State, p: string) {
    && (forall k :: 0 <= k < |Backups(s, p)| ==> Backups(s, p)[k] == BackupName(p, k))
    && (forall k: nat :: BackupName(p, k) in s.files <==> k < |Backups(s, p)|)
  }

  /** The other programs leave the names of this log's backups alone. */
  ghost predicate LeavesNames(e: Event, p: string) {
    e.FileCreated? ==> forall k: nat :: e.name != BackupName(p, k)
  }

  /** What happens to the logs themselves and to other names does not matter. */
  ghost predicate SameBackups(s: State, t: State, p: string) {
    Backups(t, p) == Backups(s, p) && forall k: nat :: BackupName(p, k) in t.files <==> BackupName(p, k) in s.files
  }

  lemma OpenedSameBackups(s: State, opens: bool, p: string)
    requires IsLogPath(s.path) && IsLogPath(p)
    ensures SameBackups(s, Opened(s, opens), p)
  {
    forall k: nat ensures BackupName(p, k) in Opened(s, opens).files <==> BackupName(p, k) in s.files {
      BackupText(p, k);
    }
  }

  lemma ClosedSameBackups(s: State, p: string)
    requires s.isOpen ==> IsLogPath(s.path)
    requires IsLogPath(p)
    ensures SameBackups(s, Closed(s), p) && SameBackups(s, TimedOut(s), p)
  {
    forall k: nat ensures BackupName(p, k) in Flushed(s).files <==> BackupName(p, k) in s.files {
      BackupText(p, k);
    }
  }

  lemma RenamedInOrder(s: State, n: nat, p: string)
    requires InOrder(s, p) && IsLogPath(p) && IsLogPath(s.path) && s.path in s.files
    requires IsFirstUnused(s.files.Keys, s.path, n)
    ensures InOrder(Renamed(s, BackupName(s.path, n)), p)
  {
    var t := Renamed(s, BackupName(s.path, n));
    forall k: nat ensures BackupName(p, k) in t.files <==> BackupName(p, k) in s.files || (p == s.path && k == n) {
      BackupText(p, k);
      if BackupName(p, k) == BackupName(s.path, n) {
        BackupInjective(p, k, s.path, n);
      }
    }
    if p == s.path {
      assert |Backups(s, p)| < n ==> BackupName(p, |Backups(s, p)|) in s.files.Keys;
    }
  }

  lemma RotatedInOrder(s: State, renames: bool, opens: bool, p: string)
    requires InOrder(s, p) && IsLogPath(p) && s.isOpen && IsLogPath(s.path)
    ensures InOrder(Rotated(s, renames, opens), p)
  {
    var t := Closed(s);
    ClosedSameBackups(s, p);
    var n := FirstUnused(t.files.Keys, s.path);
    if renames {
      RenamedInOrder(t, n, p);
      OpenedSameBackups(Renamed(t, BackupName(s.path, n)), opens, p);
    } else {
      OpenedSameBackups(t, opens, p);
    }
  }

  lemma PathChangedInOrder(s: State, newPath: string, opens: bool, p: string)
    requires Inv(s) && InOrder(s, p) && IsLogPath(p)
    ensures InOrder(PathChanged(s, newPath, opens), p)
  {
    ClosedSameBackups(s, p);
    LogPathIs(newPath);
    OpenedSameBackups(Closed(s).(path := LogPath(newPath)), opens, p);
  }

  lemma StepInOrder(s: State, e: Event, p: string)
    requires Inv(s) && InOrder(s, p) && IsLogPath(p) && LeavesNames(e, p)
    ensures InOrder(Step(s, e), p)
  {
    match e
    case ChangePath(newPath, opens) => PathChangedInOrder(s, newPath, opens, p);
    case Message(entry) =>
      if s.isOpen {
        var t := s.(buffer := s.buffer + entry.Text());
        assert SameBackups(s, t, p);
        if s.backup && entry.full {
          RotatedInOrder(t, entry.renames, entry.reopens, p);
        }
      }
    case FlushTimeout => ClosedSameBackups(s, p);
    case SetBackup(value) => assert SameBackups(s, Step(s, e), p);
    case FileCreated(name, content) => assert SameBackups(s, Step(s, e), p);
  }

  lemma {:induction false} RunInOrder(s: State, events: seq<Event>, p: string)
    requires Inv(s) && InOrder(s, p) && IsLogPath(p) && forall k :: 0 <= k < |events| ==> LeavesNames(events[k], p)
    ensures InOrder(Run(s, events), p)
    decreases |events|
  {
    if |events| > 0 {
      StepKeeps(s, events[0], "");
      StepInOrder(s, events[0], p);
      RunInOrder(Step(s, events[0]), events[1..], p);
    }
  }

  /**
    When no backup of a log was there at first and nobody else makes files with their names, the
    backups are numbered in the order of their rotation without gaps: .bak, .bak1, .bak2 and so on.
  */
  lemma BackupsAreNumbered(files: Files, backup: bool, events: seq<Event>, p: string)
    requires IsLogPath(p) && forall k: nat :: BackupName(p, k) !in files
    requires forall k :: 0 <= k < |events| ==> LeavesNames(events[k], p)
    ensures InOrder(Run(Start(files, backup), events), p)
  {
    RunInOrder(Start(files, backup), events, p);
  }

  // ----- When the log rotates -----

  predicate RotatesFor(s: State, e: Entry) {
    s.isOpen && s.backup && e.full && e.renames
  }

  /** The log is renamed by exactly those messages that find it full while backups are wanted, and only its own backups grow. */
  lemma RotatesExactly(s: State, e: Entry, p: string)
    requires Inv(s)
    ensures Backups(Added(s, e), p)
            == Backups(s, p) + if p == s.path && RotatesFor(s, e) then [BackupName(p, FirstUnused(s.files.Keys, p))] else []
  {
    if s.isOpen {
      var t := Closed(s.(buffer := s.buffer + e.Text()));
      assert t.files.Keys == s.files.Keys;
    }
    assert Backups(s, p) + [] == Backups(s, p);
  }

  /**
    After a rotation the new backup, under the first name that was unused, holds everything the log
    held, what waited to be flushed and the message; and if it can be opened again, the log is empty
    and open and nothing waits.
  */
  lemma RotationMovesLog(s: State, e: Entry)
    requires Inv(s) && RotatesFor(s, e)
    ensures
      var t, n := Added(s, e), FirstUnused(s.files.Keys, s.path);
      var name := BackupName(s.path, n);
      && IsFirstUnused(s.files.Keys, s.path, n)
      && name in t.files && t.files[name] == s.files[s.path] + (s.buffer + e.Text())
      && t.path == s.path && t.buffer == "" && !t.flushing && t.isOpen == e.reopens
      && (if e.reopens then s.path in t.files && t.files[s.path] == "" else s.path !in t.files)
  {
    var t := Closed(s.(buffer := s.buffer + e.Text()));
    assert t.files.Keys == s.files.Keys;
    BackupText(s.path, FirstUnused(s.files.Keys, s.path));
  }

  /** Any other message to an open log waits in the buffer with the flush timer running, or, if the rename failed, is in the log. */
  lemma OtherMessageStays(s: State, e: Entry)
    requires Inv(s) && s.isOpen && !RotatesFor(s, e)
    ensures
      var t := Added(s, e);
      if s.backup && e.full
      then t.isOpen == e.reopens && t.buffer == "" && t.files == s.files[s.path := s.files[s.path] + (s.buffer + e.Text())]
      else t == s.(buffer := s.buffer + e.Text(), flushing := true)
  {
  }

  // ----- Which log is open -----

  /** Changing to another folder opens the log there; everything that waited is in the old one. */
  lemma PathIsChanged(s: State, newPath: string, opens: bool)
    requires Inv(s) && newPath != ParentPath(s.path)
    ensures
      var t := PathChanged(s, newPath, opens);
      && t.path == LogPath(newPath) && t.isOpen == opens && t.buffer == "" && !t.flushing && t.backup == s.backup
      && (opens ==> t.path in t.files)
      && (s.isOpen && s.path != t.path ==> s.path in t.files && t.files[s.path] == s.files[s.path] + s.buffer)
  {
  }

  /** The folder of a log is found in its path, unless it is the current directory written as a dot. */
  lemma FolderOfLog(folder: string)
    requires IsClean(folder)
    ensures ParentPath(LogPath(folder)) == folder <==> folder != "."
  {
    if folder != "" {
      var l := Locate(folder);
      LogInFolder(folder, l);
      assert folder == Render(IsAbsolute(folder), l);
      assert "" + Join(l.Parts(), SEPARATOR) == Join(l.Parts(), SEPARATOR);
      if l != START {
        PartsJoined(l);
        NotADot(l);
      }
    } else {
      ParentDropsLast(false, [], LOG_NAME);
      assert [] + [LOG_NAME] == [LOG_NAME] && "" + LOG_NAME == LOG_NAME;
    }
  }

  lemma LogInFolder(folder: string, l: Location)
    requires folder != "" && IsClean(folder) && l == Locate(folder)
    ensures l.Valid()
    ensures ParentPath(LogPath(folder)) == Root(IsAbsolute(folder)) + Join(l.Parts(), SEPARATOR)
  {
    LocateValid(folder);
    AppendName(folder, LOG_NAME);
    ClimbConcat(l.ups, l.names, [LOG_NAME]);
    ArePlainParts(l, LOG_NAME);
    ParentDropsLast(IsAbsolute(folder), l.Parts(), LOG_NAME);
    assert LogPath(folder) == Root(IsAbsolute(folder)) + Join(l.Parts() + [LOG_NAME], SEPARATOR) by {
      assert "" + Join(l.Parts() + [LOG_NAME], SEPARATOR) == Join(l.Parts() + [LOG_NAME], SEPARATOR);
    }
  }

  lemma ArePlainParts(l: Location, name: string)
    requires l.Valid() && IsName(name)
    ensures ArePlain(l.Parts() + [name])
  {
    ClimbAt(l.ups, l.names);
  }

  lemma NotADot(l: Location)
    requires l.Valid() && l != START
    ensures Join(l.Parts(), SEPARATOR) != "."
  {
    PartsJoined(l);
    SplitWithout(".", SEPARATOR);
    ClimbAt(l.ups, l.names);
  }

  /** So choosing the folder in use once more changes nothing. */
  lemma SameFolderAgain(s: State, folder: string, opens: bool, again: bool)
    requires Inv(s) && IsClean(folder) && folder != "."
    ensures var t := PathChanged(s, folder, opens); PathChanged(t, folder, again) == t
  {
    FolderOfLog(folder);
  }

  /** The level and the text of a message can be read from its line. */
  lemma LineReads(a: Entry, b: Entry)
    requires a.Text() == b.Text() && a.date == b.date
    ensures a.kind == b.kind && a.message == b.message
  {
    assert a.Text()[1] == b.Text()[1];
    var n := 4 + |a.date| + 3;
    assert a.message == a.Text()[n..|a.Text()| - 1] && b.message == b.Text()[n..|b.Text()| - 1];
  }
}
