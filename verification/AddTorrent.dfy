/**
  Adding torrents: AddTorrentManager of addtorrentmanager.cpp and GUIAddTorrentManager of
  guiaddtorrentmanager.cpp without its widgets. What a source parses or loads to, whether the session
  knows or accepts a torrent and what the user decides come from outside. A guard is owned by the
  manager's table or by a local variable, so letting it go destroys it.
*/
module AddTorrent {
  import opened Strings
  import opened TorrentFileGuards

  type InfoHash = string

  datatype Params = Params(text: string)

  /** What a source is. `loaded` is the info hash of the torrent the file contains, if it loads. */
  datatype Source =
    | Url
    | Descriptor(hash: InfoHash)
    | BadMagnet
    | TorrentFile(path: string, loaded: Option<InfoHash>)

  /** The session's answers and the deletion mode set in the preferences at that moment. */
  datatype Answers = Answers(known: bool, accepts: bool, mode: AutoDeleteMode)

  datatype State = State(
    guards: map<string, Guard>,             // guarded files by source
    sources: map<InfoHash, string>,         // torrents given to the session
    downloads: map<string, Params>,
    guiDownloads: map<string, Params>,
    dialogs: map<InfoHash, string>,         // open dialogs with their sources
    fates: seq<Fate>,                       // guards that are gone
    reported: seq<string>)                  // sources the session reported as added

  const EMPTY := State(map[], map[], map[], map[], map[], [], [])

  // ----- Guards -----

  function Died(s: State, source: string, g: Guard, cause: Cause): State {
    s.(fates := s.fates + [Fate(source, g, cause, g.RemovesFile())])
  }

  /** QHash::emplace replaces the value of an existing key. */
  function GuardSet(s: State, source: string, g: Guard): State {
    var t := if source in s.guards then Died(s, source, s.guards[source], Replaced) else s;
    t.(guards := s.guards[source := g])
  }

  function NewGuard(path: string, torrent: Option<InfoHash>, mode: AutoDeleteMode): Guard {
    Guard(path, torrent, mode, true, false)
  }

  /** Takes the guard of a source out of the table, changes its flags and lets it go. */
  function GuardReleased(s: State, source: string, change: Guard -> Guard, cause: Cause): State {
    if source in s.guards then Died(s.(guards := s.guards - {source}), source, change(s.guards[source]), cause) else s
  }

  function KeepFile(g: Guard): Guard {
    g.(remove := false)
  }

  function MarkAdded(g: Guard): Guard {
    g.(wasAdded := true)
  }

  function Unchanged(g: Guard): Guard {
    g
  }

  // ----- Adding -----

  function GivenToSession(s: State, source: string, hash: InfoHash, a: Answers): State {
    if a.accepts then s.(sources := s.sources[hash := source]) else s
  }

  function Processed(s: State, source: string, hash: InfoHash, a: Answers): State {
    if a.known then s else GivenToSession(s, source, hash, a)
  }

  function FileAdded(s: State, source: string, path: string, loaded: Option<InfoHash>, a: Answers): State {
    var g := NewGuard(path, loaded, a.mode);
    if loaded.None? then Died(s, source, g, LoadFailed)
    else Processed(GuardSet(s, source, g), source, loaded.value, a)
  }

  /** AddTorrentManager::addTorrent. */
  function Added(s: State, source: string, kind: Source, p: Params, a: Answers): State {
    if source == "" then s
    else match kind
    case Url => if source in s.downloads then s else s.(downloads := s.downloads[source := p])
    case Descriptor(hash) => Processed(s, source, hash, a)
    case BadMagnet => s
    case TorrentFile(path, loaded) => FileAdded(s, source, path, loaded, a)
  }

  /** The source was taken: its download goes on, or the session got its torrent. */
  predicate IsTaken(source: string, kind: Source, a: Answers) {
    && source != ""
    && match kind
       case Url => true
       case Descriptor(_) => !a.known && a.accepts
       case BadMagnet => false
       case TorrentFile(_, loaded) => loaded.Some? && !a.known && a.accepts
  }

  /** GUIAddTorrentManager::processTorrent opens a dialog, or raises the one already open. */
  predicate GuiProcesses(s: State, hash: InfoHash, a: Answers) {
    hash in s.dialogs || !a.known
  }

  function GuiProcessed(s: State, source: string, hash: InfoHash, a: Answers): State {
    if hash in s.dialogs || a.known then s else s.(dialogs := s.dialogs[hash := source])
  }

  function GuiFileAdded(s: State, source: string, path: string, loaded: Option<InfoHash>, a: Answers): State {
    var g := NewGuard(path, loaded, a.mode);
    if loaded.None? then Died(s, source, g, LoadFailed)
    else
      var t := GuiProcessed(s, source, loaded.value, a);
      if GuiProcesses(s, loaded.value, a) then GuardSet(t, source, g) else Died(t, source, g, NotProcessed)
  }

  /** GUIAddTorrentManager::addTorrent. */
  function GuiAdded(s: State, source: string, kind: Source, p: Params, skipDialog: bool, a: Answers): State {
    if source == "" then s
    else if skipDialog then Added(s, source, kind, p, a)
    else match kind
    case Url => if source in s.guiDownloads then s else s.(guiDownloads := s.guiDownloads[source := p])
    case Descriptor(hash) => GuiProcessed(s, source, hash, a)
    case BadMagnet => s
    case TorrentFile(path, loaded) => GuiFileAdded(s, source, path, loaded, a)
  }

  /** The source was taken: its download goes on, or a dialog is open for its torrent, or it was taken without one. */
  predicate IsGuiTaken(s: State, source: string, kind: Source, skipDialog: bool, a: Answers) {
    if skipDialog then IsTaken(source, kind, a)
    else
      && source != ""
      && match kind
         case Url => true
         case Descriptor(hash) => GuiProcesses(s, hash, a)
         case BadMagnet => false
         case TorrentFile(_, loaded) => loaded.Some? && GuiProcesses(s, loaded.value, a)
  }

  function Downloaded(s: State, source: string, hash: Option<InfoHash>, a: Answers): State {
    var t := s.(downloads := s.downloads - {source});
    if hash.Some? then Processed(t, source, hash.value, a) else t
  }

  function GuiDownloaded(s: State, source: string, hash: Option<InfoHash>, a: Answers): State {
    var t := s.(guiDownloads := s.guiDownloads - {source});
    if hash.Some? then GuiProcessed(t, source, hash.value, a) else t
  }

  // ----- Answers of the session and of the user -----

  function SessionAdded(s: State, hash: InfoHash): State {
    if hash in s.sources && s.sources[hash] != "" then
      var source := s.sources[hash];
      GuardReleased(s.(sources := s.sources - {hash}, reported := s.reported + [source]), source, MarkAdded, AddedToSession(hash))
    else s.(sources := s.sources - {hash})
  }

  function SessionRefused(s: State, hash: InfoHash): State {
    var t := s.(sources := s.sources - {hash});
    if hash in s.sources && s.sources[hash] != "" then GuardReleased(t, s.sources[hash], KeepFile, SessionFailed) else t
  }

  /** `hash` is the dialog's key; metadata may have completed the torrent's own hash meanwhile. */
  function DialogAccepted(s: State, hash: InfoHash, torrentHash: InfoHash, doNotDelete: bool, a: Answers): State {
    if hash !in s.dialogs then s
    else
      var source := s.dialogs[hash];
      var t := if doNotDelete then GuardReleased(s, source, KeepFile, KeptByUser) else s;
      GivenToSession(t, source, torrentHash, a).(dialogs := s.dialogs - {hash})
  }

  function DialogRejected(s: State, hash: InfoHash): State {
    if hash !in s.dialogs then s
    else GuardReleased(s, s.dialogs[hash], Unchanged, Rejected).(dialogs := s.dialogs - {hash})
  }

  /** The dialogs are disconnected before they are rejected, so the guards go with the table, in some order. */
  function ShutDown(s: State, order: seq<string>): State {
    GuardsDropped(s, order).(dialogs := map[])
  }

  function GuardsDropped(s: State, order: seq<string>): State
    decreases |order|
  {
    if |order| == 0 then s else GuardsDropped(GuardReleased(s, order[0], Unchanged, Shutdown), order[1..])
  }

  lemma {:induction false} DroppedSnoc(s: State, order: seq<string>, source: string)
    ensures GuardsDropped(s, order + [source]) == GuardReleased(GuardsDropped(s, order), source, Unchanged, Shutdown)
    decreases |order|
  {
    if |order| == 0 {
      assert order + [source] == [source];
      assert GuardsDropped(s, [source]) == GuardsDropped(GuardReleased(s, source, Unchanged, Shutdown), [source][1..]);
    } else {
      assert (order + [source])[1..] == order[1..] + [source];
      DroppedSnoc(GuardReleased(s, order[0], Unchanged, Shutdown), order[1..], source);
    }
  }

  // ----- The managers -----

  /** Base and GUI manager in one object, as the GUI build has it. */
  class GUIAddTorrentManager {
    const files: Files
    var downloadedTorrents: map<string, Params>
    var guiDownloadedTorrents: map<string, Params>
    var sourcesByInfoHash: map<InfoHash, string>
    var guardedTorrentFiles: map<string, TorrentFileGuard>
    var dialogs: map<InfoHash, string>
    ghost var values: map<string, Guard>    // the guards of the table as values
    ghost var fates: seq<Fate>
    ghost var reported: seq<string>

    ghost function Guards(): set<object>
      reads this
    {
      set source | source in guardedTorrentFiles :: guardedTorrentFiles[source]
    }

    /** Every guard is owned once, and the files removed are those of the guards that removed theirs. */
    ghost predicate Valid()
      reads this, files, Guards()
    {
      && values.Keys == guardedTorrentFiles.Keys
      && (forall source :: source in guardedTorrentFiles
            ==> guardedTorrentFiles[source].Valid() && guardedTorrentFiles[source].Value() == values[source])
      && (forall a, b :: a in guardedTorrentFiles && b in guardedTorrentFiles && a != b
            ==> guardedTorrentFiles[a] != guardedTorrentFiles[b])
      && files.removed == RemovedFiles(fates)
    }

    ghost function Snapshot(): State
      reads this
    {
      State(values, sourcesByInfoHash, downloadedTorrents, guiDownloadedTorrents, dialogs, fates, reported)
    }

    constructor (files: Files)
      requires files.removed == []
      ensures this.files == files && Valid() && Snapshot() == EMPTY && Guards() == {}
    {
      this.files := files;
      downloadedTorrents, guiDownloadedTorrents, sourcesByInfoHash := map[], map[], map[];
      guardedTorrentFiles, values, dialogs, fates, reported := map[], map[], map[], [], [];
    }

    /** A guard that is in no table goes out of scope. */
    method LetGo(g: TorrentFileGuard, ghost source: string, ghost cause: Cause)
      requires Valid() && g.Valid() && g !in Guards()
      modifies this`fates, g, files
      ensures Valid() && Guards() == old(Guards())
      ensures Snapshot() == Died(old(Snapshot()), source, old(g.Value()), cause)
    {
      RemovedFilesSnoc(fates, Fate(source, g.Value(), cause, g.Value().RemovesFile()));
      fates := fates + [Fate(source, g.Value(), cause, g.Value().RemovesFile())];
      g.Destroy(files);
    }

    method ReleaseTorrentFileGuard(source: string) returns (g: Option<TorrentFileGuard>)
      requires Valid()
      modifies this`guardedTorrentFiles, this`values
      ensures Valid() && Snapshot() == old(Snapshot()).(guards := old(Snapshot()).guards - {source})
      ensures g == if source in old(guardedTorrentFiles) then Some(old(guardedTorrentFiles[source])) else None
      ensures g.Some? ==> g.value.Valid() && g.value.Value() == old(values[source]) && g.value !in Guards() && g.value in old(Guards())
      ensures Guards() <= old(Guards())
    {
      g := if source in guardedTorrentFiles then Some(guardedTorrentFiles[source]) else None;
      guardedTorrentFiles, values := guardedTorrentFiles - {source}, values - {source};
    }

    /** QHash::emplace: the guard that was there before goes. */
    method SetTorrentFileGuard(source: string, g: TorrentFileGuard)
      requires Valid() && g.Valid() && g !in Guards()
      modifies this`guardedTorrentFiles, this`values, this`fates, Guards(), files
      ensures Valid() && Guards() <= old(Guards()) + {g}
      ensures Snapshot() == GuardSet(old(Snapshot()), source, old(g.Value()))
    {
      TakeThenPut(values, source, g.Value());
      var replaced := ReleaseTorrentFileGuard(source);
      if replaced.Some? {
        LetGo(replaced.value, source, Replaced);
      }
      PutGuard(source, g);
    }

    method PutGuard(source: string, g: TorrentFileGuard)
      requires Valid() && g.Valid() && g !in Guards() && source !in guardedTorrentFiles
      modifies this`guardedTorrentFiles, this`values
      ensures Valid() && Guards() <= old(Guards()) + {g}
      ensures Snapshot() == old(Snapshot()).(guards := old(Snapshot()).guards[source := g.Value()])
    {
      guardedTorrentFiles, values := guardedTorrentFiles[source := g], values[source := g.Value()];
    }

    /** Takes the guard out and lets it go, after the given change of its flags. */
    method KeepReleasedFile(source: string, ghost cause: Cause)
      requires Valid()
      modifies this`guardedTorrentFiles, this`values, this`fates, Guards(), files
      ensures Valid() && Guards() <= old(Guards())
      ensures Snapshot() == GuardReleased(old(Snapshot()), source, KeepFile, cause)
    {
      var g := ReleaseTorrentFileGuard(source);
      if g.Some? {
        g.value.SetAutoRemove(false);
        LetGo(g.value, source, cause);
      }
    }

    // ----- AddTorrentManager -----

    method AddTorrentToSession(source: string, hash: InfoHash, a: Answers) returns (result: bool)
      requires Valid()
      modifies this`sourcesByInfoHash
      ensures Valid() && Guards() == old(Guards()) && result == a.accepts
      ensures Snapshot() == GivenToSession(old(Snapshot()), source, hash, a)
    {
      result := a.accepts;
      if result {
        sourcesByInfoHash := sourcesByInfoHash[hash := source];
      }
    }

    method ProcessTorrent(source: string, hash: InfoHash, a: Answers) returns (result: bool)
      requires Valid()
      modifies this`sourcesByInfoHash
      ensures Valid() && Guards() == old(Guards()) && result == (!a.known && a.accepts)
      ensures Snapshot() == Processed(old(Snapshot()), source, hash, a)
    {
      if a.known {
        return false;
      }
      result := AddTorrentToSession(source, hash, a);
    }

    method AddTorrent(source: string, kind: Source, params: Params, a: Answers) returns (result: bool)
      requires Valid()
      modifies this, Guards(), files
      ensures Valid() && fresh(Guards() - old(Guards()))
      ensures Snapshot() == Added(old(Snapshot()), source, kind, params, a) && result == IsTaken(source, kind, a)
    {
      if source == "" {
        return false;
      }
      match kind {
        case Url =>
          if source !in downloadedTorrents {
            downloadedTorrents := downloadedTorrents[source := params];
          }
          return true;
        case Descriptor(hash) =>
          result := ProcessTorrent(source, hash, a);
        case BadMagnet =>
          return false;
        case TorrentFile(path, loaded) =>
          result := AddTorrentFile(source, path, loaded, a);
      }
    }

    /** The last part of addTorrent: the source is a file. */
    method AddTorrentFile(source: string, path: string, loaded: Option<InfoHash>, a: Answers) returns (result: bool)
      requires Valid()
      modifies this, Guards(), files
      ensures Valid() && fresh(Guards() - old(Guards()))
      ensures Snapshot() == FileAdded(old(Snapshot()), source, path, loaded, a)
      ensures result == (loaded.Some? && !a.known && a.accepts)
    {
      var g := new TorrentFileGuard(path, a.mode, loaded);
      if loaded.Some? {
        SetTorrentFileGuard(source, g);
        result := ProcessTorrent(source, loaded.value, a);
      } else {
        LetGo(g, source, LoadFailed);
        return false;
      }
    }

    method OnDownloadFinished(source: string, hash: Option<InfoHash>, a: Answers)
      requires Valid()
      modifies this
      ensures Valid() && Guards() == old(Guards())
      ensures Snapshot() == Downloaded(old(Snapshot()), source, hash, a)
    {
      downloadedTorrents := downloadedTorrents - {source};
      if hash.Some? {
        var _ := ProcessTorrent(source, hash.value, a);
      }
    }

    method OnSessionTorrentAdded(hash: InfoHash)
      requires Valid()
      modifies this, Guards(), files
      ensures Valid() && Guards() <= old(Guards())
      ensures Snapshot() == SessionAdded(old(Snapshot()), hash)
    {
      var source := TakeSource(hash);
      if source != "" {
        reported := reported + [source];
        MarkReleasedGuard(source, hash);
      }
    }

    /** QHash::take: an empty text if there is none. */
    method TakeSource(hash: InfoHash) returns (source: string)
      requires Valid()
      modifies this`sourcesByInfoHash
      ensures Valid() && Guards() == old(Guards())
      ensures source == if hash in old(sourcesByInfoHash) then old(sourcesByInfoHash[hash]) else ""
      ensures Snapshot() == old(Snapshot()).(sources := old(sourcesByInfoHash) - {hash})
    {
      source := if hash in sourcesByInfoHash then sourcesByInfoHash[hash] else "";
      sourcesByInfoHash := sourcesByInfoHash - {hash};
    }

    method MarkReleasedGuard(source: string, ghost hash: InfoHash)
      requires Valid()
      modifies this`guardedTorrentFiles, this`values, this`fates, Guards(), files
      ensures Valid() && Guards() <= old(Guards())
      ensures Snapshot() == GuardReleased(old(Snapshot()), source, MarkAdded, AddedToSession(hash))
    {
      var g := ReleaseTorrentFileGuard(source);
      if g.Some? {
        g.value.MarkAsAddedToSession();
        LetGo(g.value, source, AddedToSession(hash));
      }
    }

    method OnSessionAddTorrentFailed(hash: InfoHash)
      requires Valid()
      modifies this, Guards(), files
      ensures Valid() && Guards() <= old(Guards())
      ensures Snapshot() == SessionRefused(old(Snapshot()), hash)
    {
      var source := TakeSource(hash);
      if source != "" {
        KeepReleasedFile(source, SessionFailed);
      }
    }

    // ----- GUIAddTorrentManager -----

    method GuiProcessTorrent(source: string, hash: InfoHash, a: Answers) returns (isProcessing: bool)
      requires Valid()
      modifies this`dialogs
      ensures Valid() && Guards() == old(Guards()) && isProcessing == GuiProcesses(old(Snapshot()), hash, a)
      ensures Snapshot() == GuiProcessed(old(Snapshot()), source, hash, a)
    {
      if hash in dialogs {
        return true;
      }
      if a.known {
        return false;
      }
      dialogs := dialogs[hash := source];
      return true;
    }

    method GuiAddTorrent(source: string, kind: Source, params: Params, skipDialog: bool, a: Answers) returns (result: bool)
      requires Valid()
      modifies this, Guards(), files
      ensures Valid() && fresh(Guards() - old(Guards()))
      ensures Snapshot() == GuiAdded(old(Snapshot()), source, kind, params, skipDialog, a)
      ensures result == IsGuiTaken(old(Snapshot()), source, kind, skipDialog, a)
    {
      if source == "" {
        return false;
      }
      if skipDialog {
        result := AddTorrent(source, kind, params, a);
        return;
      }
      match kind {
        case Url =>
          if source !in guiDownloadedTorrents {
            guiDownloadedTorrents := guiDownloadedTorrents[source := params];
          }
          return true;
        case Descriptor(hash) =>
          result := GuiProcessTorrent(source, hash, a);
        case BadMagnet =>
          return false;
        case TorrentFile(path, loaded) =>
          result := GuiAddTorrentFile(source, path, loaded, a);
      }
    }

    /** The last part of addTorrent: the source is a file. */
    method GuiAddTorrentFile(source: string, path: string, loaded: Option<InfoHash>, a: Answers) returns (result: bool)
      requires Valid()
      modifies this, Guards(), files
      ensures Valid() && fresh(Guards() - old(Guards()))
      ensures Snapshot() == GuiFileAdded(old(Snapshot()), source, path, loaded, a)
      ensures result == (loaded.Some? && GuiProcesses(old(Snapshot()), loaded.value, a))
    {
      var g := new TorrentFileGuard(path, a.mode, loaded);
      if loaded.Some? {
        result := GuiProcessTorrent(source, loaded.value, a);
        if result {
          SetTorrentFileGuard(source, g);
        } else {
          LetGo(g, source, NotProcessed);
        }
      } else {
        LetGo(g, source, LoadFailed);
        return false;
      }
    }

    method GuiOnDownloadFinished(source: string, hash: Option<InfoHash>, a: Answers)
      requires Valid()
      modifies this
      ensures Valid() && Guards() == old(Guards())
      ensures Snapshot() == GuiDownloaded(old(Snapshot()), source, hash, a)
    {
      guiDownloadedTorrents := guiDownloadedTorrents - {source};
      if hash.Some? {
        var _ := GuiProcessTorrent(source, hash.value, a);
      }
    }

    /** The dialog's torrentAccepted signal, followed by its finished signal. */
    method OnDialogAccepted(hash: InfoHash, torrentHash: InfoHash, doNotDelete: bool, a: Answers)
      requires Valid() && hash in dialogs
      modifies this, Guards(), files
      ensures Valid() && Guards() <= old(Guards())
      ensures Snapshot() == DialogAccepted(old(Snapshot()), hash, torrentHash, doNotDelete, a)
    {
      var source := dialogs[hash];
      if doNotDelete {
        KeepReleasedFile(source, KeptByUser);
      }
      var _ := AddTorrentToSession(source, torrentHash, a);
      dialogs := dialogs - {hash};
    }

    /** The dialog's torrentRejected signal, followed by its finished signal. */
    method OnDialogRejected(hash: InfoHash)
      requires Valid() && hash in dialogs
      modifies this, Guards(), files
      ensures Valid() && Guards() <= old(Guards())
      ensures Snapshot() == DialogRejected(old(Snapshot()), hash)
    {
      var g := ReleaseTorrentFileGuard(dialogs[hash]);
      if g.Some? {
        LetGo(g.value, dialogs[hash], Rejected);
      }
      dialogs := dialogs - {hash};
    }

    /** The destructors. */
    method Destroy() returns (ghost order: seq<string>)
      requires Valid()
      modifies this, Guards(), files
      ensures Valid() && guardedTorrentFiles == map[]
      ensures forall source :: source in order <==> source in old(guardedTorrentFiles)
      ensures Snapshot() == ShutDown(old(Snapshot()), order)
    {
      order := [];
      ghost var before := Snapshot();
      while guardedTorrentFiles != map[]
        invariant Valid() && Guards() <= old(Guards())
        invariant forall source :: source in before.guards <==> source in order || source in guardedTorrentFiles
        invariant Snapshot() == GuardsDropped(before, order)
        decreases guardedTorrentFiles.Keys
      {
        var source :| source in guardedTorrentFiles;
        DroppedSnoc(before, order, source);
        DropGuard(source);
        order := order + [source];
      }
      dialogs := map[];
    }

    method DropGuard(source: string)
      requires Valid() && source in guardedTorrentFiles
      modifies this`guardedTorrentFiles, this`values, this`fates, Guards(), files
      ensures Valid() && Guards() <= old(Guards()) && guardedTorrentFiles.Keys == old(guardedTorrentFiles.Keys) - {source}
      ensures Snapshot() == GuardReleased(old(Snapshot()), source, Unchanged, Shutdown)
    {
      var g := ReleaseTorrentFileGuard(source);
      LetGo(g.value, source, Shutdown);
    }
  }

  lemma TakeThenPut<K, V>(m: map<K, V>, k: K, v: V)
    ensures (m - {k})[k := v] == m[k := v]
    ensures k !in m ==> m - {k} == m
  {
  }

  function RemovedFiles(fates: seq<Fate>): seq<string> {
    if |fates| == 0 then [] else (if fates[0].removed then [fates[0].guard.file] else []) + RemovedFiles(fates[1..])
  }

  lemma {:induction false} RemovedFilesSnoc(fates: seq<Fate>, f: Fate)
    ensures RemovedFiles(fates + [f]) == RemovedFiles(fates) + if f.removed then [f.guard.file] else []
  {
    if |fates| == 0 {
      assert fates + [f] == [f];
      assert RemovedFiles([f][1..]) == [];
    } else {
      assert (fates + [f])[1..] == fates[1..] + [f];
      RemovedFilesSnoc(fates[1..], f);
    }
  }
}
