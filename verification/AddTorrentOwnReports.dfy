/**
  Whose report deletes a guarded file: a guard knows its source only, so the report of another torrent
  from the same source releases it too. This cannot happen while the sources keep their contents.
*/
module AddTorrentOwnReports {
  import opened Strings
  import opened TorrentFileGuards
  import opened AddTorrent
  import opened AddTorrentRuns

  /** The info hash of the torrent that a file contains, for the sources that are files. */
  type Contents = string -> Option<InfoHash>

  predicate IsContent(contents: Contents, source: string, hash: InfoHash) {
    contents(source).Some? ==> contents(source).value == hash
  }

  predicate AgreesKind(contents: Contents, source: string, kind: Source) {
    match kind
    case TorrentFile(_, loaded) => loaded.Some? ==> contents(source) == loaded
    case Descriptor(hash) => IsContent(contents, source, hash)
    case _ => true
  }

  /** A source that is a file always loads to the same torrent, and its dialog hands over that torrent. */
  predicate Agrees(s: State, e: Event, contents: Contents) {
    match e
    case Add(source, kind, _, _) => AgreesKind(contents, source, kind)
    case GuiAdd(source, kind, _, _, _) => AgreesKind(contents, source, kind)
    case DownloadFinished(source, loaded, _) => loaded.Some? ==> IsContent(contents, source, loaded.value)
    case GuiDownloadFinished(source, loaded, _) => loaded.Some? ==> IsContent(contents, source, loaded.value)
    case Accept(hash, torrentHash, _, _) => hash in s.dialogs ==> IsContent(contents, s.dialogs[hash], torrentHash)
    case _ => true
  }

  predicate AgreesAll(s: State, events: seq<Event>, contents: Contents)
    decreases |events|
  {
    |events| == 0 || (Agrees(s, events[0], contents) && AgreesAll(Step(s, events[0]), events[1..], contents))
  }

  /** A report that ended a guard was about the torrent in the guarded file. */
  predicate IsOwn(f: Fate) {
    f.cause.AddedToSession? ==> f.guard.torrent == Some(f.cause.hash)
  }

  predicate OwnInv(s: State, contents: Contents) {
    && (forall source :: source in s.guards ==> s.guards[source].torrent.Some? && s.guards[source].torrent == contents(source))
    && (forall hash :: hash in s.sources ==> IsContent(contents, s.sources[hash], hash))
    && (forall k :: 0 <= k < |s.fates| ==> IsOwn(s.fates[k]))
  }

  lemma DiedOwn(s: State, source: string, g: Guard, cause: Cause, contents: Contents)
    requires OwnInv(s, contents) && IsOwn(Fate(source, g, cause, g.RemovesFile()))
    ensures OwnInv(Died(s, source, g, cause), contents)
  {
  }

  lemma GuardSetOwn(s: State, source: string, g: Guard, contents: Contents)
    requires OwnInv(s, contents) && g.torrent.Some? && g.torrent == contents(source)
    ensures OwnInv(GuardSet(s, source, g), contents)
  {
    if source in s.guards {
      DiedOwn(s, source, s.guards[source], Replaced, contents);
    }
  }

  lemma GuardReleasedOwn(s: State, source: string, change: Guard -> Guard, cause: Cause, contents: Contents)
    requires OwnInv(s, contents)
    requires source in s.guards ==> var g := change(s.guards[source]); IsOwn(Fate(source, g, cause, g.RemovesFile()))
    ensures OwnInv(GuardReleased(s, source, change, cause), contents)
  {
    if source in s.guards {
      DiedOwn(s.(guards := s.guards - {source}), source, change(s.guards[source]), cause, contents);
    }
  }

  lemma ProcessedOwn(s: State, source: string, hash: InfoHash, a: Answers, contents: Contents)
    requires OwnInv(s, contents) && IsContent(contents, source, hash)
    ensures OwnInv(Processed(s, source, hash, a), contents) && OwnInv(GivenToSession(s, source, hash, a), contents)
  {
  }

  lemma AddedOwn(s: State, source: string, kind: Source, params: Params, a: Answers, contents: Contents)
    requires OwnInv(s, contents) && AgreesKind(contents, source, kind)
    ensures OwnInv(Added(s, source, kind, params, a), contents)
  {
    if source != "" {
      match kind
      case TorrentFile(path, loaded) =>
        var g := NewGuard(path, loaded, a.mode);
        if loaded.None? {
          DiedOwn(s, source, g, LoadFailed, contents);
        } else {
          GuardSetOwn(s, source, g, contents);
          ProcessedOwn(GuardSet(s, source, g), source, loaded.value, a, contents);
        }
      case Descriptor(hash) => ProcessedOwn(s, source, hash, a, contents);
      case _ =>
    }
  }

  lemma GuiAddedOwn(s: State, source: string, kind: Source, params: Params, skipDialog: bool, a: Answers, contents: Contents)
    requires OwnInv(s, contents) && AgreesKind(contents, source, kind)
    ensures OwnInv(GuiAdded(s, source, kind, params, skipDialog, a), contents)
  {
    if skipDialog {
      AddedOwn(s, source, kind, params, a, contents);
    } else if source != "" && kind.TorrentFile? {
      var g := NewGuard(kind.path, kind.loaded, a.mode);
      if kind.loaded.None? {
        DiedOwn(s, source, g, LoadFailed, contents);
      } else {
        var t := GuiProcessed(s, source, kind.loaded.value, a);
        assert OwnInv(t, contents);
        GuardSetOwn(t, source, g, contents);
        DiedOwn(t, source, g, NotProcessed, contents);
      }
    }
  }

  lemma ReportOwn(s: State, hash: InfoHash, contents: Contents)
    requires OwnInv(s, contents)
    ensures OwnInv(SessionAdded(s, hash), contents)
  {
    if hash in s.sources && s.sources[hash] != "" {
      var source := s.sources[hash];
      var t := s.(sources := s.sources - {hash}, reported := s.reported + [source]);
      assert IsContent(contents, source, hash);
      GuardReleasedOwn(t, source, MarkAdded, AddedToSession(hash), contents);
    }
  }

  lemma AcceptedOwn(s: State, hash: InfoHash, torrentHash: InfoHash, doNotDelete: bool, a: Answers, contents: Contents)
    requires OwnInv(s, contents) && (hash in s.dialogs ==> IsContent(contents, s.dialogs[hash], torrentHash))
    ensures OwnInv(DialogAccepted(s, hash, torrentHash, doNotDelete, a), contents)
  {
    if hash in s.dialogs {
      var source := s.dialogs[hash];
      GuardReleasedOwn(s, source, KeepFile, KeptByUser, contents);
      var t := if doNotDelete then GuardReleased(s, source, KeepFile, KeptByUser) else s;
      ProcessedOwn(t, source, torrentHash, a, contents);
    }
  }

  lemma {:induction false} DroppedOwn(s: State, order: seq<string>, contents: Contents)
    requires OwnInv(s, contents)
    ensures OwnInv(GuardsDropped(s, order), contents)
    decreases |order|
  {
    if |order| > 0 {
      GuardReleasedOwn(s, order[0], Unchanged, Shutdown, contents);
      DroppedOwn(GuardReleased(s, order[0], Unchanged, Shutdown), order[1..], contents);
    }
  }

  lemma LetGoOwn(s: State, e: Event, contents: Contents)
    requires OwnInv(s, contents) && (e.AddTorrentFailed? || e.Reject? || e.Quit?)
    ensures OwnInv(Step(s, e), contents)
  {
    match e
    case AddTorrentFailed(hash) =>
      if hash in s.sources {
        GuardReleasedOwn(s.(sources := s.sources - {hash}), s.sources[hash], KeepFile, SessionFailed, contents);
      }
    case Reject(hash) =>
      if hash in s.dialogs {
        GuardReleasedOwn(s, s.dialogs[hash], Unchanged, Rejected, contents);
      }
    case Quit(order) => DroppedOwn(s, order, contents);
  }

  lemma StepOwn(s: State, e: Event, contents: Contents)
    requires OwnInv(s, contents) && Agrees(s, e, contents)
    ensures OwnInv(Step(s, e), contents)
  {
    match e
    case Add(source, kind, params, a) => AddedOwn(s, source, kind, params, a, contents);
    case GuiAdd(source, kind, params, skipDialog, a) => GuiAddedOwn(s, source, kind, params, skipDialog, a, contents);
    case DownloadFinished(source, loaded, a) =>
      if loaded.Some? {
        ProcessedOwn(s.(downloads := s.downloads - {source}), source, loaded.value, a, contents);
      }
    case GuiDownloadFinished(source, loaded, a) =>
    case TorrentAdded(hash) => ReportOwn(s, hash, contents);
    case Accept(hash, torrentHash, doNotDelete, a) => AcceptedOwn(s, hash, torrentHash, doNotDelete, a, contents);
    case _ => LetGoOwn(s, e, contents);
  }

  lemma {:induction false} RunOwn(s: State, events: seq<Event>, contents: Contents)
    requires OwnInv(s, contents) && AgreesAll(s, events, contents)
    ensures OwnInv(Run(s, events), contents)
    decreases |events|
  {
    if |events| > 0 {
      StepOwn(s, events[0], contents);
      RunOwn(Step(s, events[0]), events[1..], contents);
    }
  }

  /** Over every run in which the files keep their contents, each report ends only the guard of its own torrent. */
  lemma ReportsEndTheirOwn(events: seq<Event>, contents: Contents)
    requires AgreesAll(EMPTY, events, contents)
    ensures forall k :: 0 <= k < |Run(EMPTY, events).fates| ==> IsOwn(Run(EMPTY, events).fates[k])
  {
    RunOwn(EMPTY, events, contents);
  }

  // ----- Which torrent a source was guarded for last -----

  /** What the file contained for which an event puts a guard of this source into the table. */
  function GuardsAs(s: State, e: Event, source: string): Option<InfoHash> {
    match e
    case Add(added, kind, _, _) => if added == source then FileContent(source, kind) else None
    case GuiAdd(added, kind, _, skipDialog, a) =>
      if added != source then None
      else if !skipDialog && kind.TorrentFile? && kind.loaded.Some? && !GuiProcesses(s, kind.loaded.value, a) then None
      else FileContent(source, kind)
    case _ => None
  }

  function FileContent(source: string, kind: Source): Option<InfoHash> {
    if source != "" && kind.TorrentFile? then kind.loaded else None
  }

  function Latest(s: State, e: Event, source: string, before: Option<InfoHash>): Option<InfoHash> {
    if GuardsAs(s, e, source).Some? then GuardsAs(s, e, source) else before
  }

  /** The content of the file when the source was last added in a way that guarded it. */
  function LastGuarded(s: State, events: seq<Event>, source: string, before: Option<InfoHash>): Option<InfoHash>
    decreases |events|
  {
    if |events| == 0 then before else LastGuarded(Step(s, events[0]), events[1..], source, Latest(s, events[0], source, before))
  }

  predicate GuardedFor(s: State, source: string, content: Option<InfoHash>) {
    source in s.guards ==> s.guards[source].torrent == content
  }

  lemma {:induction false} DroppedGuards(s: State, order: seq<string>, source: string, content: Option<InfoHash>)
    requires GuardedFor(s, source, content)
    ensures GuardedFor(GuardsDropped(s, order), source, content)
    decreases |order|
  {
    if |order| > 0 {
      DroppedGuards(GuardReleased(s, order[0], Unchanged, Shutdown), order[1..], source, content);
    }
  }

  function Newest(added: string, source: string, content: Option<InfoHash>, before: Option<InfoHash>): Option<InfoHash> {
    if added == source && content.Some? then content else before
  }

  lemma FileGuards(s: State, added: string, path: string, loaded: Option<InfoHash>, a: Answers, source: string, before: Option<InfoHash>)
    requires GuardedFor(s, source, before)
    ensures GuardedFor(FileAdded(s, added, path, loaded, a), source, Newest(added, source, loaded, before))
  {
    var t := GuardSet(s, added, NewGuard(path, loaded, a.mode));
    assert added == source || source !in t.guards || (source in s.guards && t.guards[source] == s.guards[source]);
  }

  lemma GuiFileGuards(s: State, added: string, path: string, loaded: Option<InfoHash>, a: Answers, source: string, before: Option<InfoHash>)
    requires GuardedFor(s, source, before)
    ensures
      var content := if loaded.Some? && GuiProcesses(s, loaded.value, a) then loaded else None;
      GuardedFor(GuiFileAdded(s, added, path, loaded, a), source, Newest(added, source, content, before))
  {
  }

  lemma AddedGuards(s: State, added: string, kind: Source, params: Params, a: Answers, source: string, before: Option<InfoHash>)
    requires GuardedFor(s, source, before)
    ensures GuardedFor(Added(s, added, kind, params, a), source, Newest(added, source, FileContent(added, kind), before))
  {
    if added != "" && kind.TorrentFile? {
      FileGuards(s, added, kind.path, kind.loaded, a, source, before);
    }
  }

  lemma GuiAddedGuards(s: State, e: Event, source: string, before: Option<InfoHash>)
    requires GuardedFor(s, source, before) && e.GuiAdd?
    ensures GuardedFor(Step(s, e), source, Latest(s, e, source, before))
  {
    if e.skipDialog {
      AddedGuards(s, e.source, e.kind, e.params, e.a, source, before);
    } else if e.source != "" && e.kind.TorrentFile? {
      GuiFileGuards(s, e.source, e.kind.path, e.kind.loaded, e.a, source, before);
    }
  }

  lemma StepGuards(s: State, e: Event, source: string, before: Option<InfoHash>)
    requires GuardedFor(s, source, before)
    ensures GuardedFor(Step(s, e), source, Latest(s, e, source, before))
  {
    if e.Add? {
      AddedGuards(s, e.source, e.kind, e.params, e.a, source, before);
    } else if e.GuiAdd? {
      GuiAddedGuards(s, e, source, before);
    } else if e.Quit? {
      DroppedGuards(s, e.order, source, before);
    }
  }

  lemma {:induction false} RunGuards(s: State, events: seq<Event>, source: string, before: Option<InfoHash>)
    requires GuardedFor(s, source, before)
    ensures GuardedFor(Run(s, events), source, LastGuarded(s, events, source, before))
    decreases |events|
  {
    if |events| > 0 {
      StepGuards(s, events[0], source, before);
      RunGuards(Step(s, events[0]), events[1..], source, Latest(s, events[0], source, before));
    }
  }

  /**
    After any run, the report of a torrent whose source is guarded ends the guard of that torrent
    exactly when the file contained it when its source was last added in a way that guarded it; after
    a later add of another content the report ends the guard of the other torrent.
  */
  lemma OtherTorrentExactly(events: seq<Event>, hash: InfoHash)
    requires var s := Run(EMPTY, events); hash in s.sources && s.sources[hash] != "" && s.sources[hash] in s.guards
    ensures
      var s := Run(EMPTY, events);
      var t := SessionAdded(s, hash);
      && |t.fates| == |s.fates| + 1 && t.fates[|s.fates|].source == s.sources[hash]
      && (IsOwn(t.fates[|s.fates|]) <==> LastGuarded(EMPTY, events, s.sources[hash], None) == Some(hash))
  {
    RunGuards(EMPTY, events, Run(EMPTY, events).sources[hash], None);
  }

  /** The file changes while its first torrent is on the way: the first report deletes the second torrent's file. */
  lemma OtherTorrentsReportDeletes(params: Params)
    ensures
      var a := Answers(false, true, IfAdded);
      var add1, add2 := TorrentFile("/t", Some("1")), TorrentFile("/t", Some("2"));
      var s := Run(EMPTY, [GuiAdd("/t", add1, params, false, a), Accept("1", "1", false, a),
                           GuiAdd("/t", add2, params, false, a), TorrentAdded("1")]);
      && "2" in s.dialogs && |s.fates| == 2
      && s.fates[1].removed && s.fates[1].guard.torrent == Some("2")
  {
    var a := Answers(false, true, IfAdded);
    var add1, add2 := TorrentFile("/t", Some("1")), TorrentFile("/t", Some("2"));
    var g1, g2 := NewGuard("/t", Some("1"), IfAdded), NewGuard("/t", Some("2"), IfAdded);
    var e1, e2 := GuiAdd("/t", add1, params, false, a), Accept("1", "1", false, a);
    var e3, e4 := GuiAdd("/t", add2, params, false, a), TorrentAdded("1");
    var s1 := Step(EMPTY, e1);
    assert s1.guards == map["/t" := g1] && s1.dialogs == map["1" := "/t"] && s1.fates == [];
    var s2 := Step(s1, e2);
    assert s2.guards == map["/t" := g1] && s2.dialogs == map[] && s2.sources == map["1" := "/t"] && s2.fates == [];
    var s3 := Step(s2, e3);
    assert s3.guards == map["/t" := g2] && s3.dialogs == map["2" := "/t"] && s3.sources == map["1" := "/t"];
    assert s3.fates == [Fate("/t", g1, Replaced, false)];
    RunTwo(s2, e3, e4);
    RunFirst(s1, e2, [e3, e4]);
    RunFirst(EMPTY, e1, [e2, e3, e4]);
    assert [e1] + [e2, e3, e4] == [e1, e2, e3, e4] && [e2] + [e3, e4] == [e2, e3, e4];
  }
}
