/**
  Whole runs of the settings storage: program starts, changes, saves, timer events and crashes after
  any step of a save or of a recovery.
*/
module SettingsRuns {
  import opened Strings
  import opened Settings

  /** A program that is not running has no memory. */
  datatype World = World(disk: Disk, program: Option<Memory>)

  /** `crash == Some(n)`: the power fails when n steps on the disk are done. */
  datatype Event =
    | Start(f: Faults, crash: Option<nat>)
    | Store(key: string, value: Variant)
    | Remove(key: string)
    | Save(f: Faults, crash: Option<nat>)
    | Timeout(f: Faults, crash: Option<nat>)
    | Exit(f: Faults, crash: Option<nat>)
    | Crash

  /** The disk after the first n steps of a trace. */
  function After(d: Disk, trace: seq<Disk>, n: nat): Disk {
    if n == 0 || |trace| == 0 then d else if n <= |trace| then trace[n - 1] else trace[|trace| - 1]
  }

  function StartUp(d: Disk, f: Faults, crash: Option<nat>): World {
    var trace := RecoveryTrace(d, f);
    match crash
    case Some(n) => World(After(d, trace, n), None)
    case None => World(After(d, trace, |trace|), Some(Memory(Loaded(d), false, false)))
  }

  function SaveWorld(d: Disk, m: Memory, f: Faults, crash: Option<nat>): World {
    var trace := if m.dirty then WriteTrace(d, m.data, f) else [];
    match crash
    case Some(n) => World(After(d, trace, n), None)
    case None => World(After(d, trace, |trace|), Some(Saved(m, d, f)))
  }

  /** An event that does not apply (a start of a running program, a timeout without timer) changes nothing. */
  function Step(w: World, e: Event): World {
    match w.program
    case None => if e.Start? then StartUp(w.disk, e.f, e.crash) else w
    case Some(m) =>
      match e
      case Start(_, _) => w
      case Store(key, value) => w.(program := Some(Stored(m, key, value)))
      case Remove(key) => w.(program := Some(Dropped(m, key)))
      case Save(f, crash) => SaveWorld(w.disk, m, f, crash)
      case Timeout(f, crash) => if m.timer then SaveWorld(w.disk, m.(timer := false), f, crash) else w
      case Exit(f, crash) => SaveWorld(w.disk, m, f, crash).(program := None)
      case Crash => w.(program := None)
  }

  function Run(w: World, events: seq<Event>): World
    decreases |events|
  {
    if |events| == 0 then w else Run(Step(w, events[0]), events[1..])
  }

  /** Removing and renaming files works. */
  predicate Healthy(e: Event) {
    match e
    case Start(f, _) => f.removeOk && f.renameOk
    case Save(f, _) => f.removeOk && f.renameOk
    case Timeout(f, _) => f.removeOk && f.renameOk
    case Exit(f, _) => f.removeOk && f.renameOk
    case _ => true
  }

  predicate AllHealthy(events: seq<Event>) {
    forall k :: 0 <= k < |events| ==> Healthy(events[k])
  }

  // ----- The reference: one durable map that a save replaces at once -----

  datatype Simple = Simple(durable: Entries, program: Option<Memory>)

  /** A save takes effect with the sync, or, when there is nothing to write, with the removal of the final file. */
  predicate Commits(data: Entries, f: Faults, crash: Option<nat>) {
    f.syncOk && match crash case None => true case Some(n) => n >= if data == map[] then 2 else 1
  }

  function SimpleSave(s: Simple, m: Memory, f: Faults, crash: Option<nat>, saved: bool): Simple {
    var durable := if m.dirty && Commits(m.data, f, crash) then ValidEntries(m.data) else s.durable;
    Simple(durable, if crash.Some? then None
                    else Some(if !m.dirty then m else if saved then m.(dirty := false) else m.(timer := true)))
  }

  /** `saved` is what the save reports. */
  function SimpleStep(s: Simple, e: Event, saved: bool): Simple {
    match s.program
    case None => if e.Start? && e.crash.None? then Simple(s.durable, Some(Memory(s.durable, false, false))) else s
    case Some(m) =>
      match e
      case Start(_, _) => s
      case Store(key, value) => s.(program := Some(Stored(m, key, value)))
      case Remove(key) => s.(program := Some(Dropped(m, key)))
      case Save(f, crash) => SimpleSave(s, m, f, crash, saved)
      case Timeout(f, crash) => if m.timer then SimpleSave(s, m.(timer := false), f, crash, saved) else s
      case Exit(f, crash) => SimpleSave(s, m, f, crash, saved).(program := None)
      case Crash => s.(program := None)
  }

  function Reports(w: World, e: Event): bool {
    w.program.Some? && (e.Save? || e.Timeout? || e.Exit?) && WriteSucceeds(w.disk, w.program.value.data, e.f)
  }

  function Abstract(w: World): Simple {
    Simple(Loaded(w.disk), w.program)
  }

  /** Between events a running program has no leftover file, a clean memory is durable, a dirty one has its timer armed. */
  predicate Inv(w: World) {
    w.program.Some? ==>
      var m := w.program.value;
      && !NeedsRecovery(w.disk)
      && (!m.dirty ==> Loaded(w.disk) == ValidEntries(m.data))
      && (m.dirty ==> m.timer)
  }

  lemma NothingMerged(data: Entries)
    ensures map[] + data == data
  {
  }

  lemma ValidOfValid(m: Entries)
    ensures ValidEntries(ValidEntries(m)) == ValidEntries(m)
  {
  }

  /** Recovery never changes what a start would load, whichever of its steps fail or are cut off. */
  lemma RecoveryKeepsLoaded(d: Disk, f: Faults, n: nat)
    ensures Loaded(After(d, RecoveryTrace(d, f), n)) == Loaded(d)
  {
  }

  /** The disk after every step of a save that starts without leftovers holds the old map or the new one. */
  lemma SaveStates(d: Disk, data: Entries, f: Faults, crash: Option<nat>)
    requires !NeedsRecovery(d)
    ensures
      var trace := WriteTrace(d, data, f);
      var after := After(d, trace, if crash.None? then |trace| else crash.value);
      f.removeOk || data != map[] ==> Loaded(after) == if Commits(data, f, crash) then ValidEntries(data) else Loaded(d)
  {
  }

  lemma StoredFacts(m: Memory, key: string, value: Variant)
    ensures var s := Stored(m, key, value); !s.dirty ==> !m.dirty && ValidEntries(s.data) == ValidEntries(m.data)
    ensures var s := Stored(m, key, value); (s.dirty && !m.dirty ==> s.timer) && (m.timer ==> s.timer)
  {
  }

  lemma SaveWorldAtomic(d: Disk, m: Memory, f: Faults, crash: Option<nat>)
    requires f.removeOk && f.renameOk && !NeedsRecovery(d)
    requires !m.dirty ==> Loaded(d) == ValidEntries(m.data)
    ensures Inv(SaveWorld(d, m, f, crash))
    ensures Abstract(SaveWorld(d, m, f, crash)) == SimpleSave(Simple(Loaded(d), Some(m)), m, f, crash, WriteSucceeds(d, m.data, f))
  {
  }

  /** One event, crash or not, acts on what a start would load like the atomic reference. */
  lemma StepIsAtomic(w: World, e: Event)
    requires Inv(w) && Healthy(e)
    ensures Inv(Step(w, e))
    ensures Abstract(Step(w, e)) == SimpleStep(Abstract(w), e, Reports(w, e))
  {
    match w.program
    case None =>
      if e.Start? {
        RecoveryKeepsLoaded(w.disk, e.f, if e.crash.None? then |RecoveryTrace(w.disk, e.f)| else e.crash.value);
        ValidOfValid(Contents(w.disk.newFile));
        ValidOfValid(Contents(w.disk.finalFile));
      }
    case Some(m) =>
      match e
      case Store(key, value) => StoredFacts(m, key, value);
      case Save(f, crash) => SaveWorldAtomic(w.disk, m, f, crash);
      case Timeout(f, crash) =>
        if m.timer {
          SaveWorldAtomic(w.disk, m.(timer := false), f, crash);
        }
      case Exit(f, crash) => SaveWorldAtomic(w.disk, m, f, crash);
      case _ =>
  }

  /** The reference run, fed with what the saves of the real run report. */
  function SimpleRun(s: Simple, w: World, events: seq<Event>): Simple
    decreases |events|
  {
    if |events| == 0 then s
    else SimpleRun(SimpleStep(s, events[0], Reports(w, events[0])), Step(w, events[0]), events[1..])
  }

  /**
    From any files, over every run of starts, changes, saves and crashes at any step (also inside
    the recovery), the next start loads exactly the durable map of the atomic reference: the last
    map whose save took effect, never a mix and never less. In every state in between a clean memory
    equals the durable map and a dirty one has its save timer armed.
  */
  lemma {:induction false} RunIsAtomic(w: World, events: seq<Event>)
    requires Inv(w) && AllHealthy(events)
    ensures Inv(Run(w, events))
    ensures Abstract(Run(w, events)) == SimpleRun(Abstract(w), w, events)
    decreases |events|
  {
    if |events| > 0 {
      StepIsAtomic(w, events[0]);
      RunIsAtomic(Step(w, events[0]), events[1..]);
    }
  }

  /**
    A save that reports success leaves a clean program, and what the next start would load equals the
    memory exactly when no key with a valid value is left in the "_new" file that the memory does not
    have: such keys are merged, and come back.
  */
  lemma SaveReport(d: Disk, m: Memory, f: Faults)
    requires m.dirty && WriteSucceeds(d, m.data, f)
    ensures
      var after := SaveWorld(d, m, f, None);
      && after.program == Some(m.(dirty := false))
      && (Loaded(after.disk) == ValidEntries(m.data)
          <==> forall k :: k in Contents(d.newFile) && Contents(d.newFile)[k] != Invalid ==> k in m.data)
  {
    var left, merged := Contents(d.newFile), Contents(d.newFile) + m.data;
    NothingMerged(m.data);
    assert Loaded(SaveWorld(d, m, f, None).disk) == ValidEntries(merged) by {
      if m.data == map[] {
        assert merged == left;
      }
    }
    if k :| k in left && left[k] != Invalid && k !in m.data {
      assert k in ValidEntries(merged) && k !in ValidEntries(m.data);
    } else {
      assert ValidEntries(merged) == ValidEntries(m.data);
    }
  }

  /**
    With working files the write succeeds exactly when the sync works and there is something to write:
    an empty map leaves no file to rename, so the program stays dirty.
  */
  lemma SaveReportExactly(d: Disk, data: Entries, f: Faults)
    requires f.removeOk && f.renameOk
    ensures WriteSucceeds(d, data, f) <==> f.syncOk && (data != map[] || d.newFile.Some?)
  {
  }

  /** The last value is removed, and the save that is due for it fails although every file can be written. */
  lemma EmptyMapIsNotSaved()
    ensures
      var ok := Faults(true, true, true);
      var saved := World(Disk(None, Some(map["a" := Value("1")])), Some(Memory(map["a" := Value("1")], false, false)));
      var w := Run(saved, [Remove("a"), Timeout(ok, None)]);
      w.program == Some(Memory(map[], true, true)) && w.disk == Disk(None, None)
  {
    var ok := Faults(true, true, true);
    var saved := World(Disk(None, Some(map["a" := Value("1")])), Some(Memory(map["a" := Value("1")], false, false)));
    var w := Step(saved, Remove("a"));
    assert w.program == Some(Memory(map[], true, true));
    assert Run(saved, [Remove("a"), Timeout(ok, None)]) == Run(w, [Timeout(ok, None)]);
    assert Run(w, [Timeout(ok, None)]) == Run(Step(w, Timeout(ok, None)), []);
  }

  // ----- What a caller reads -----

  /** The world after a save that is not cut off, the end of the program and a new start. */
  function Restarted(w: World, f: Faults): World {
    Run(w, [Save(f, None), Crash, Start(f, None)])
  }

  /**
    What is read for a key after a change, a successful save and a restart is what was stored, or the
    default if the key was removed or its value is not valid; every other key reads as it did before
    the restart, again up to values that are not valid.
  */
  lemma ReadAfterRestart(w: World, change: Event, f: Faults, key: string, default: Variant)
    requires Inv(w) && w.program.Some? && (change.Store? || change.Remove?) && f.removeOk && f.renameOk
    requires var m := Step(w, change).program.value; m.dirty ==> WriteSucceeds(w.disk, m.data, f)
    ensures
      var m, r := w.program.value.data, Restarted(Step(w, change), f);
      var last := if change.key != key then Read(m, key, Invalid) else if change.Store? then change.value else Invalid;
      && r.program.Some?
      && Read(r.program.value.data, key, default) == if last == Invalid then default else last
  {
    var w1 := Step(w, change);
    var m := w1.program.value;
    StepIsAtomic(w, change);
    var w2 := Step(w1, Save(f, None));
    StepIsAtomic(w1, Save(f, None));
    assert Loaded(w2.disk) == ValidEntries(m.data);
    var w3 := Step(w2, Crash);
    var w4 := Step(w3, Start(f, None));
    assert w4.program.value.data == ValidEntries(m.data);
    assert Run(w1, [Save(f, None), Crash, Start(f, None)]) == Run(w2, [Crash, Start(f, None)]);
    assert Run(w2, [Crash, Start(f, None)]) == Run(w3, [Start(f, None)]);
    assert Run(w3, [Start(f, None)]) == Run(w4, []);
  }

  // ----- Without the hypothesis that renames succeed -----

  /** Every outcome of a save, cut off anywhere, leaves the old map or the new one. */
  ghost predicate SaveIsAtomic(d: Disk, data: Entries) {
    forall f: Faults, n: nat :: LoadsOldOrNew(d, data, f, n)
  }

  predicate LoadsOldOrNew(d: Disk, data: Entries, f: Faults, n: nat) {
    var loaded := Loaded(After(d, WriteTrace(d, data, f), n));
    loaded == Loaded(d) || loaded == ValidEntries(data)
  }

  /** Merging the memory into the leftover file and deleting that file both give the old map or the new one. */
  predicate IsHarmless(d: Disk, data: Entries) {
    && ValidEntries(Contents(d.finalFile)) in {Loaded(d), ValidEntries(data)}
    && ValidEntries(Contents(d.newFile) + data) in {Loaded(d), ValidEntries(data)}
  }

  lemma HarmlessSave(d: Disk, data: Entries, f: Faults, n: nat)
    requires !NeedsRecovery(d) || IsHarmless(d, data)
    ensures LoadsOldOrNew(d, data, f, n)
  {
    NothingMerged(data);
    if NeedsRecovery(d) {
      MergedNeedsRecovery(d, data);
    }
  }

  lemma HarmfulSave(d: Disk, data: Entries)
    requires NeedsRecovery(d) && !IsHarmless(d, data)
    ensures !SaveIsAtomic(d, data)
  {
    MergedNeedsRecovery(d, data);
    var failing, working := Faults(false, true, true), Faults(true, true, true);
    assert Loaded(After(d, WriteTrace(d, data, failing), 2)) == ValidEntries(Contents(d.finalFile));
    assert Loaded(After(d, WriteTrace(d, data, working), 1)) == ValidEntries(Contents(d.newFile) + data);
    assert !LoadsOldOrNew(d, data, failing, 2) || !LoadsOldOrNew(d, data, working, 1);
  }

  /**
    A single save is atomic whatever fails, exactly when there is no leftover "_new" file or merging
    into it and deleting it both do no harm.
  */
  lemma SaveIsAtomicExactly(d: Disk, data: Entries)
    ensures SaveIsAtomic(d, data) <==> !NeedsRecovery(d) || IsHarmless(d, data)
  {
    if !NeedsRecovery(d) || IsHarmless(d, data) {
      forall f: Faults, n: nat ensures LoadsOldOrNew(d, data, f, n) {
        HarmlessSave(d, data, f, n);
      }
    } else {
      HarmfulSave(d, data);
    }
  }

  lemma MergedNeedsRecovery(d: Disk, data: Entries)
    requires NeedsRecovery(d)
    ensures Contents(d.newFile) + data != map[] && (data == map[] ==> Contents(d.newFile) + data == Contents(d.newFile))
  {
  }

  /** After a failed rename a removed key comes back with the next save, although that save reports success. */
  lemma FailedRenameResurrects()
    ensures
      var events := [Start(Faults(true, true, true), None), Store("a", Value("1")), Store("b", Value("2")),
                     Save(Faults(true, true, false), None), Remove("a"), Save(Faults(true, true, true), None)];
      var w := Run(World(Disk(None, None), None), events);
      w.program.Some? && !w.program.value.dirty && "a" !in w.program.value.data && "a" in Loaded(w.disk)
  {
  }

  // ----- What dirties -----

  /**
    Storing a value makes the program dirty, and starts the timer, exactly when it is not the value that
    is read already; afterwards it is what is read, and nothing else changes.
  */
  lemma StoringDirtiesExactly(m: Memory, key: string, value: Variant, other: string, default: Variant)
    ensures
      var s := Stored(m, key, value);
      && (s.dirty <==> m.dirty || Read(m.data, key, Invalid) != value)
      && (s.timer <==> m.timer || Read(m.data, key, Invalid) != value)
      && Read(s.data, key, default) == value
      && (other != key ==> Read(s.data, other, default) == Read(m.data, other, default))
  {
  }

  /** Removing a key makes the program dirty, and starts the timer, exactly when there is one. */
  lemma RemovingDirtiesExactly(m: Memory, key: string, other: string, default: Variant)
    ensures
      var s := Dropped(m, key);
      && (s.dirty <==> m.dirty || key in m.data) && (s.timer <==> m.timer || key in m.data)
      && Read(s.data, key, default) == default
      && (other != key ==> Read(s.data, other, default) == Read(m.data, other, default))
  {
  }
}
