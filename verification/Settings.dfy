/**
  The crash-safe settings storage of settingsstorage.cpp. Settings are written to a "_new" file,
  which then replaces the final file; a start finishes what an interrupted save left behind.
  QSettings::sync() is an all-or-nothing write that merges the values into the "_new" file, and it
  does not create a file when there is nothing to write.
*/
module Settings {
  import opened Strings

  datatype Variant = Invalid | Value(text: string)

  type Entries = map<string, Variant>

  /** Only valid values are copied into memory. */
  function ValidEntries(m: Entries): Entries {
    map k | k in m && m[k] != Invalid :: m[k]
  }

  // ----- The two files -----

  datatype Disk = Disk(newFile: Option<Entries>, finalFile: Option<Entries>)

  function Contents(file: Option<Entries>): Entries {
    if file.Some? then file.value else map[]
  }

  /** Whether the system calls of a save or a recovery succeed. */
  datatype Faults = Faults(syncOk: bool, removeOk: bool, renameOk: bool)

  function Synced(d: Disk, data: Entries, ok: bool): Disk {
    if ok && data != map[] then d.(newFile := Some(Contents(d.newFile) + data)) else d
  }

  function NewRemoved(d: Disk, ok: bool): Disk {
    if ok then d.(newFile := None) else d
  }

  function FinalRemoved(d: Disk, ok: bool): Disk {
    if ok then d.(finalFile := None) else d
  }

  /** A rename needs its source and must not find its target. */
  predicate CanRename(d: Disk, ok: bool) {
    ok && d.newFile.Some? && d.finalFile.None?
  }

  function Renamed(d: Disk, ok: bool): Disk {
    if CanRename(d, ok) then Disk(None, d.newFile) else d
  }

  /** The states of the disk after each step of writeNativeSettings. */
  function WriteTrace(d: Disk, data: Entries, f: Faults): (trace: seq<Disk>)
    ensures |trace| >= 2
  {
    var synced := Synced(d, data, f.syncOk);
    if !f.syncOk then [synced, NewRemoved(synced, f.removeOk)]
    else
      var removed := FinalRemoved(synced, f.removeOk);
      [synced, removed, Renamed(removed, f.renameOk)]
  }

  predicate WriteSucceeds(d: Disk, data: Entries, f: Faults) {
    f.syncOk && CanRename(FinalRemoved(Synced(d, data, f.syncOk), f.removeOk), f.renameOk)
  }

  predicate NeedsRecovery(d: Disk) {
    Contents(d.newFile) != map[]
  }

  /** The states of the disk after each step of readNativeSettings. */
  function RecoveryTrace(d: Disk, f: Faults): seq<Disk> {
    if NeedsRecovery(d) then [FinalRemoved(d, f.removeOk), Renamed(FinalRemoved(d, f.removeOk), f.renameOk)] else []
  }

  /** What a start would load. */
  function Loaded(d: Disk): Entries {
    if NeedsRecovery(d) then ValidEntries(Contents(d.newFile)) else ValidEntries(Contents(d.finalFile))
  }

  // ----- The storage object -----

  /** The files; every step leaves its state in the trace, since the power may fail after any step. */
  class Drive {
    var newFile: Option<Entries>
    var finalFile: Option<Entries>
    ghost var trace: seq<Disk>

    function State(): Disk
      reads this
    {
      Disk(newFile, finalFile)
    }

    constructor (disk: Disk)
      ensures State() == disk && trace == []
    {
      newFile, finalFile, trace := disk.newFile, disk.finalFile, [];
    }

    method Sync(values: Entries, ok: bool)
      modifies this
      ensures State() == Synced(old(State()), values, ok) && trace == old(trace) + [State()]
    {
      if ok && values != map[] {
        newFile := Some(Contents(newFile) + values);
      }
      trace := trace + [Disk(newFile, finalFile)];
    }

    method RemoveNew(ok: bool)
      modifies this
      ensures State() == NewRemoved(old(State()), ok) && trace == old(trace) + [State()]
    {
      if ok {
        newFile := None;
      }
      trace := trace + [Disk(newFile, finalFile)];
    }

    method RemoveFinal(ok: bool)
      modifies this
      ensures State() == FinalRemoved(old(State()), ok) && trace == old(trace) + [State()]
    {
      if ok {
        finalFile := None;
      }
      trace := trace + [Disk(newFile, finalFile)];
    }

    method Rename(ok: bool) returns (renamed: bool)
      modifies this
      ensures renamed == CanRename(old(State()), ok)
      ensures State() == Renamed(old(State()), ok) && trace == old(trace) + [State()]
    {
      renamed := ok && newFile.Some? && finalFile.None?;
      if renamed {
        newFile, finalFile := None, newFile;
      }
      trace := trace + [Disk(newFile, finalFile)];
    }
  }

  /** The memory of a running program: the values, the dirty flag and whether the save timer is armed. */
  datatype Memory = Memory(data: Entries, dirty: bool, timer: bool)

  function Stored(m: Memory, key: string, value: Variant): Memory {
    var current := if key in m.data then m.data[key] else Invalid;
    if current != value then Memory(m.data[key := value], true, true)
    else m.(data := m.data[key := current])
  }

  function Dropped(m: Memory, key: string): Memory {
    if key in m.data then Memory(m.data - {key}, true, true) else m
  }

  function Saved(m: Memory, d: Disk, f: Faults): Memory {
    if !m.dirty then m
    else if WriteSucceeds(d, m.data, f) then m.(dirty := false)
    else m.(timer := true)
  }

  /** What a caller reads for a key. */
  function Read(data: Entries, key: string, default: Variant): Variant {
    if key in data then data[key] else default
  }

  class SettingsStorage {
    const drive: Drive
    var data: Entries
    var dirty: bool
    var timerActive: bool

    function State(): Memory
      reads this
    {
      Memory(data, dirty, timerActive)
    }

    constructor (drive: Drive, f: Faults)
      modifies drive
      ensures this.drive == drive && State() == Memory(old(Loaded(drive.State())), false, false)
      ensures drive.trace == old(drive.trace) + old(RecoveryTrace(drive.State(), f))
      ensures drive.State() == if old(NeedsRecovery(drive.State())) then drive.trace[|drive.trace| - 1] else old(drive.State())
    {
      this.drive := drive;
      data, dirty, timerActive := map[], false, false;
      new;
      ReadNativeSettings(f);
    }

    /** Copies the valid values of a file into memory, key by key; false when the file has no keys. */
    method Deserialize(file: Option<Entries>) returns (found: bool)
      modifies this`data
      ensures found == (Contents(file) != map[])
      ensures data == old(data) + ValidEntries(Contents(file))
    {
      var entries := Contents(file);
      if entries == map[] {
        return false;
      }
      var keys := entries.Keys;
      while keys != {}
        invariant keys <= entries.Keys
        invariant data == old(data) + ValidEntries(map k | k in entries && k !in keys :: entries[k])
        decreases keys
      {
        var key :| key in keys;
        if entries[key] != Invalid {
          data := data[key := entries[key]];
        }
        keys := keys - {key};
      }
      assert (map k | k in entries && k !in keys :: entries[k]) == entries;
      return true;
    }

    method ReadNativeSettings(f: Faults)
      requires data == map[]
      modifies this`data, drive
      ensures data == Loaded(old(drive.State()))
      ensures drive.trace == old(drive.trace) + RecoveryTrace(old(drive.State()), f)
      ensures drive.State() == if NeedsRecovery(old(drive.State())) then drive.trace[|drive.trace| - 1] else old(drive.State())
    {
      var unclean := Deserialize(drive.newFile);
      if unclean {
        drive.RemoveFinal(f.removeOk);
        var _ := drive.Rename(f.renameOk);
      } else {
        var _ := Deserialize(drive.finalFile);
      }
    }

    method WriteNativeSettings(f: Faults) returns (written: bool)
      modifies drive
      ensures written == WriteSucceeds(old(drive.State()), data, f)
      ensures drive.trace == old(drive.trace) + WriteTrace(old(drive.State()), data, f)
      ensures drive.State() == drive.trace[|drive.trace| - 1]
    {
      var pending: Entries := map[];
      var keys := data.Keys;
      while keys != {}
        invariant keys <= data.Keys
        invariant pending == map k | k in data && k !in keys :: data[k]
        decreases keys
      {
        var key :| key in keys;
        pending := pending[key := data[key]];
        keys := keys - {key};
      }
      assert pending == data;
      drive.Sync(pending, f.syncOk);
      if !f.syncOk {
        drive.RemoveNew(f.removeOk);
        return false;
      }
      drive.RemoveFinal(f.removeOk);
      written := drive.Rename(f.renameOk);
    }

    method Save(f: Faults) returns (saved: bool)
      modifies this, drive
      ensures saved == (old(dirty) && WriteSucceeds(old(drive.State()), old(data), f))
      ensures State() == Saved(old(State()), old(drive.State()), f)
      ensures drive.trace == old(drive.trace) + if old(dirty) then WriteTrace(old(drive.State()), old(data), f) else []
      ensures drive.State() == if old(dirty) then drive.trace[|drive.trace| - 1] else old(drive.State())
    {
      if !dirty {
        return false;
      }
      var written := WriteNativeSettings(f);
      if !written {
        timerActive := true;
        return false;
      }
      dirty := false;
      return true;
    }

    /** The single-shot timer is over when it calls save. */
    method OnTimeout(f: Faults) returns (saved: bool)
      requires timerActive
      modifies this, drive
      ensures saved == (old(dirty) && WriteSucceeds(old(drive.State()), old(data), f))
      ensures State() == Saved(old(State()).(timer := false), old(drive.State()), f)
      ensures drive.trace == old(drive.trace) + if old(dirty) then WriteTrace(old(drive.State()), old(data), f) else []
      ensures drive.State() == if old(dirty) then drive.trace[|drive.trace| - 1] else old(drive.State())
    {
      timerActive := false;
      saved := Save(f);
    }

    /** QHash::operator[] inserts an invalid value under a new key before the comparison. */
    method StoreValue(key: string, value: Variant)
      modifies this
      ensures State() == Stored(old(State()), key, value)
    {
      if key !in data {
        data := data[key := Invalid];
      }
      if data[key] != value {
        dirty := true;
        data := data[key := value];
        timerActive := true;
      }
    }

    method RemoveValue(key: string)
      modifies this
      ensures State() == Dropped(old(State()), key)
    {
      if key in data {
        data := data - {key};
        dirty := true;
        timerActive := true;
      }
    }

    function LoadValue(key: string, default: Variant): Variant
      reads this
    {
      Read(data, key, default)
    }
  }
}
