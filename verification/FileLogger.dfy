/**
  The log file and its rotation: filelogger.cpp. Whether a file opens or is renamed, and whether the
  log has grown to its maximum size, come from outside; a log line is its text.
*/
module FileLogger {
  import opened Strings
  import opened Paths
  import opened FileLogNames
  import Logger

  type Files = map<string, string>

  datatype State = State(
    files: Files,
    path: string,
    isOpen: bool,
    backup: bool,
    buffer: string,                     // written to the open file but not yet flushed
    flushing: bool,                     // the flush timer runs
    rotated: map<string, seq<string>>)  // the backups made of each log, oldest first

  function Line(kind: Logger.MsgType, date: string, message: string): string {
    (match kind
     case Info => "(I) "
     case Warning => "(W) "
     case Critical => "(C) "
     case Normal => "(N) ") + date + " - " + message + "\n"
  }

  /** A message with the answers that its writing gets. */
  datatype Entry = Entry(kind: Logger.MsgType, date: string, message: string, full: bool, renames: bool, reopens: bool) {
    function Text(): string {
      Line(kind, date, message)
    }
  }

  function Content(files: Files, name: string): string {
    if name in files then files[name] else ""
  }

  function Flushed(s: State): State {
    if s.isOpen then s.(files := s.files[s.path := Content(s.files, s.path) + s.buffer], buffer := "") else s
  }

  function Closed(s: State): State {
    Flushed(s).(isOpen := false, flushing := false)
  }

  /** Opening to append makes a file that is not there. */
  function Opened(s: State, opens: bool): State {
    if opens then s.(files := s.files[s.path := Content(s.files, s.path)], isOpen := true) else s
  }

  function Backups(s: State, path: string): seq<string> {
    if path in s.rotated then s.rotated[path] else []
  }

  function Renamed(s: State, name: string): State
    requires s.path in s.files
  {
    s.(files := (s.files - {s.path})[name := s.files[s.path]],
       rotated := s.rotated[s.path := Backups(s, s.path) + [name]])
  }

  ghost function Rotated(s: State, renames: bool, opens: bool): State
    requires s.isOpen && IsLogPath(s.path)
  {
    var t := Closed(s);
    Opened(if renames then Renamed(t, BackupName(s.path, FirstUnused(t.files.Keys, s.path))) else t, opens)
  }

  /** FileLogger::addLogMessage; `full` is whether the size limit is reached with the message. */
  ghost function Added(s: State, e: Entry): State
    requires s.isOpen ==> IsLogPath(s.path)
  {
    if !s.isOpen then s
    else
      var t := s.(buffer := s.buffer + e.Text());
      if s.backup && e.full then Rotated(t, e.renames, e.reopens) else t.(flushing := true)
  }

  /** The messages of the log so far, which the constructor writes first. */
  ghost function AddedAll(s: State, entries: seq<Entry>): State
    requires Inv(s)
    ensures Inv(AddedAll(s, entries))
    decreases |entries|
  {
    if |entries| == 0 then s
    else
      var t := AddedAll(s, entries[..|entries| - 1]);
      AddedKeeps(t, entries[|entries| - 1], "");
      Added(t, entries[|entries| - 1])
  }

  function PathChanged(s: State, newPath: string, opens: bool): State {
    if newPath == ParentPath(s.path) then s
    else Opened(Closed(s).(path := LogPath(newPath)), opens)
  }

  function TimedOut(s: State): State {
    Flushed(s).(flushing := false)
  }

  /** Between calls. */
  ghost predicate Inv(s: State) {
    && (s.isOpen ==> IsLogPath(s.path) && s.path in s.files)
    && (s.path != "" ==> IsLogPath(s.path))
    && (!s.isOpen ==> s.buffer == "" && !s.flushing)
    && (s.buffer != "" ==> s.flushing)
    && (forall p :: p in s.rotated ==> AreBackups(s.files, s.rotated[p]))
  }

  predicate AreBackups(files: Files, names: seq<string>) {
    forall k :: 0 <= k < |names| ==> names[k] in files && !IsLogPath(names[k])
  }

  class Disk {
    var files: Files

    constructor (files: Files)
      ensures this.files == files
    {
      this.files := files;
    }

    method Append(name: string, text: string)
      modifies this
      ensures files == old(files)[name := Content(old(files), name) + text]
    {
      files := files[name := Content(files, name) + text];
    }

    method Rename(from: string, to: string, succeeds: bool)
      requires from in files && to !in files
      modifies this
      ensures files == if succeeds then (old(files) - {from})[to := old(files)[from]] else old(files)
    {
      if succeeds {
        files := (files - {from})[to := files[from]];
      }
    }
  }

  class FileLogger {
    const disk: Disk
    var path: string
    var isOpen: bool
    var backup: bool
    var buffer: string
    var flusherActive: bool
    ghost var rotated: map<string, seq<string>>

    ghost function Snapshot(): State
      reads this, disk
    {
      State(disk.files, path, isOpen, backup, buffer, flusherActive, rotated)
    }

    constructor (disk: Disk, newPath: string, backup: bool, opens: bool, entries: seq<Entry>)
      modifies disk
      ensures this.disk == disk && Inv(Snapshot())
      ensures Inv(Start(old(disk.files), backup)) && Inv(PathChanged(Start(old(disk.files), backup), newPath, opens))
      ensures Snapshot() == AddedAll(PathChanged(Start(old(disk.files), backup), newPath, opens), entries)
    {
      this.disk, this.backup := disk, backup;
      path, isOpen, buffer, flusherActive, rotated := "", false, "", false, map[];
      new;
      ChangePath(newPath, opens);
      ghost var first := Snapshot();
      for i := 0 to |entries|
        invariant this.disk == disk && Inv(Snapshot()) && Snapshot() == AddedAll(first, entries[..i])
      {
        assert entries[..i + 1][..i] == entries[..i];
        AddLogMessage(entries[i]);
      }
      assert entries[..|entries|] == entries;
    }

    method ChangePath(newPath: string, opens: bool)
      requires Inv(Snapshot())
      modifies this, disk
      ensures Inv(Snapshot()) && Snapshot() == PathChanged(old(Snapshot()), newPath, opens)
    {
      if newPath == ParentPath(path) {
        return;
      }
      PathChangedKeeps(Snapshot(), newPath, opens, "");
      CloseLogFile();
      path := LogPath(newPath);
      OpenLogFile(opens);
    }

    method AddLogMessage(e: Entry)
      requires Inv(Snapshot())
      modifies this, disk
      ensures Inv(Snapshot()) && Snapshot() == Added(old(Snapshot()), e)
    {
      if !isOpen {
        return;
      }
      AddedKeeps(Snapshot(), e, "");
      buffer := buffer + Line(e.kind, e.date, e.message);
      if backup && e.full {
        Rotate(e.renames, e.reopens);
      } else if !flusherActive {
        flusherActive := true;
      }
    }

    method Rotate(renames: bool, opens: bool)
      requires isOpen && IsLogPath(path) && path in disk.files
      modifies this, disk
      ensures Snapshot() == Rotated(old(Snapshot()), renames, opens)
    {
      CloseLogFile();
      var backupLogFilename := FirstUnusedName();
      if renames {
        rotated := rotated[path := Backups(Snapshot(), path) + [backupLogFilename]];
      }
      disk.Rename(path, backupLogFilename, renames);
      OpenLogFile(opens);
    }

    /** Ends because the finitely many files of the disk cannot use up all the names. */
    method FirstUnusedName() returns (backupLogFilename: string)
      requires IsLogPath(path)
      ensures backupLogFilename == BackupName(path, FirstUnused(disk.files.Keys, path))
    {
      var counter: nat := 0;
      ghost var used := disk.files.Keys;
      backupLogFilename := Plus(path, ".bak");
      while backupLogFilename in disk.files
        invariant backupLogFilename == BackupName(path, counter) && AllUsed(used, path, counter)
        decreases |used| - counter
      {
        NextName(used, path, counter);
        counter := counter + 1;
        backupLogFilename := Plus(Plus(path, ".bak"), Decimal(counter));
      }
      FirstUnusedIs(used, path, counter);
    }

    /** The flush timer is a single shot. */
    method FlushLog()
      requires Inv(Snapshot())
      modifies this, disk
      ensures Inv(Snapshot()) && Snapshot() == TimedOut(old(Snapshot()))
    {
      TimedOutKeeps(Snapshot(), "");
      flusherActive := false;
      if isOpen {
        Flush();
      }
    }

    method SetBackup(value: bool)
      requires Inv(Snapshot())
      modifies this`backup
      ensures Inv(Snapshot()) && Snapshot() == old(Snapshot()).(backup := value)
    {
      backup := value;
    }

    method Flush()
      requires isOpen
      modifies this`buffer, disk
      ensures Snapshot() == Flushed(old(Snapshot()))
    {
      disk.Append(path, buffer);
      buffer := "";
    }

    method OpenLogFile(opens: bool)
      modifies this`isOpen, disk
      ensures Snapshot() == Opened(old(Snapshot()), opens)
    {
      if opens {
        assert Content(disk.files, path) + "" == Content(disk.files, path);
        disk.Append(path, "");
        isOpen := true;
      }
    }

    method CloseLogFile()
      modifies this`isOpen, this`buffer, this`flusherActive, disk
      ensures Snapshot() == Closed(old(Snapshot()))
    {
      flusherActive := false;
      if isOpen {
        Flush();
        isOpen := false;
      }
    }
  }

  /** Before the constructor's changePath. */
  function Start(files: Files, backup: bool): State {
    State(files, "", false, backup, "", false, map[])
  }

  // ----- Everything that was logged to one path -----

  function Contents(files: Files, names: seq<string>): string {
    if |names| == 0 then "" else Contents(files, names[..|names| - 1]) + Content(files, names[|names| - 1])
  }

  /** The backups of a log in the order in which they were made, the log itself, and what waits to be flushed. */
  function Whole(s: State, p: string): string {
    Contents(s.files, Backups(s, p)) + Content(s.files, p) + Unwritten(s, p)
  }

  function Unwritten(s: State, p: string): string {
    if p == s.path then s.buffer else ""
  }

  lemma {:induction false} ContentsFrame(files: Files, after: Files, names: seq<string>)
    requires forall k :: 0 <= k < |names| ==> Content(files, names[k]) == Content(after, names[k])
    ensures Contents(files, names) == Contents(after, names)
    decreases |names|
  {
    if |names| > 0 {
      ContentsFrame(files, after, names[..|names| - 1]);
    }
  }

  lemma BackupsStay(s: State, after: Files, p: string)
    requires Inv(s) && forall name :: name in s.files && !IsLogPath(name) ==> name in after && after[name] == s.files[name]
    ensures Contents(after, Backups(s, p)) == Contents(s.files, Backups(s, p)) && AreBackups(after, Backups(s, p))
    ensures forall q :: q in s.rotated ==> AreBackups(after, s.rotated[q])
  {
    assert AreBackups(s.files, Backups(s, p));
    ContentsFrame(s.files, after, Backups(s, p));
  }

  lemma FlushedKeeps(s: State, p: string)
    requires Inv(s)
    ensures Inv(Flushed(s)) && Whole(Flushed(s), p) == Whole(s, p) && Flushed(s).buffer == ""
  {
    BackupsStay(s, Flushed(s).files, p);
    if s.isOpen && p == s.path {
      Regroup(Contents(s.files, Backups(s, p)) + Content(s.files, p), Contents(s.files, Backups(s, p)), Content(s.files, p), s.buffer);
    }
  }

  lemma TimedOutKeeps(s: State, p: string)
    requires Inv(s)
    ensures Inv(TimedOut(s)) && Whole(TimedOut(s), p) == Whole(s, p)
  {
    FlushedKeeps(s, p);
  }

  lemma ClosedKeeps(s: State, p: string)
    requires Inv(s)
    ensures Inv(Closed(s)) && Whole(Closed(s), p) == Whole(s, p)
  {
    FlushedKeeps(s, p);
  }

  lemma OpenedKeeps(s: State, opens: bool, p: string)
    requires Inv(s) && !s.isOpen && s.path != ""
    ensures Inv(Opened(s, opens)) && Whole(Opened(s, opens), p) == Whole(s, p)
  {
    BackupsStay(s, Opened(s, opens).files, p);
  }

  lemma PathChangedKeeps(s: State, newPath: string, opens: bool, p: string)
    requires Inv(s)
    ensures Inv(PathChanged(s, newPath, opens)) && Whole(PathChanged(s, newPath, opens), p) == Whole(s, p)
  {
    if newPath != ParentPath(s.path) {
      ClosedKeeps(s, p);
      LogPathIs(newPath);
      var t := Closed(s).(path := LogPath(newPath));
      assert Whole(t, p) == Whole(Closed(s), p);
      OpenedKeeps(t, opens, p);
    }
  }

  /** What a rename needs and gives; every file but the log keeps its content. */
  ghost predicate CanRename(s: State, name: string) {
    Inv(s) && !s.isOpen && IsLogPath(s.path) && s.path in s.files && name !in s.files && !IsLogPath(name)
  }

  lemma RenamedInv(s: State, name: string)
    requires CanRename(s, name)
    ensures Inv(Renamed(s, name))
  {
  }

  lemma RenamedMovesText(s: State, name: string)
    requires CanRename(s, name)
    ensures Whole(Renamed(s, name), s.path) == Whole(s, s.path)
  {
    var t, b := Renamed(s, name), Backups(s, s.path);
    BackupsStay(s, t.files, s.path);
    assert (b + [name])[..|b|] == b;
    assert Contents(t.files, b + [name]) == Contents(t.files, b) + s.files[s.path];
    assert Contents(t.files, b + [name]) + "" == Contents(t.files, b + [name]);
  }

  /** Renaming to an unused name moves the text of the log to the end of its backups. */
  lemma RenamedKeeps(s: State, name: string, p: string)
    requires CanRename(s, name)
    ensures Inv(Renamed(s, name)) && (IsLogPath(p) ==> Whole(Renamed(s, name), p) == Whole(s, p))
  {
    RenamedInv(s, name);
    if p == s.path {
      RenamedMovesText(s, name);
    } else {
      BackupsStay(s, Renamed(s, name).files, p);
    }
  }

  lemma RotatedKeeps(s: State, renames: bool, opens: bool, p: string)
    requires Inv(s) && s.isOpen
    ensures Inv(Rotated(s, renames, opens)) && (IsLogPath(p) ==> Whole(Rotated(s, renames, opens), p) == Whole(s, p))
  {
    var t := Closed(s);
    ClosedKeeps(s, p);
    var name := BackupName(s.path, FirstUnused(t.files.Keys, s.path));
    BackupText(s.path, FirstUnused(t.files.Keys, s.path));
    if renames {
      RenamedKeeps(t, name, p);
      OpenedKeeps(Renamed(t, name), opens, p);
    } else {
      OpenedKeeps(t, opens, p);
    }
  }

  lemma AddedKeeps(s: State, e: Entry, p: string)
    requires Inv(s)
    ensures Inv(Added(s, e))
    ensures IsLogPath(p) ==> Whole(Added(s, e), p) == Whole(s, p) + if s.isOpen && p == s.path then e.Text() else ""
  {
    if s.isOpen {
      var t := s.(buffer := s.buffer + e.Text(), flushing := true);
      var front := Contents(s.files, Backups(s, p)) + Content(s.files, p);
      Regroup(Whole(s, p), front, Unwritten(s, p), e.Text());
      assert Whole(s, p) + "" == Whole(s, p);
      if s.backup && e.full {
        RotatedKeeps(t, e.renames, e.reopens, p);
      }
    }
  }
}
