/** Whole runs of adding torrents: which guarded files are deleted. */
module AddTorrentRuns {
  import opened Strings
  import opened TorrentFileGuards
  import opened AddTorrent

  datatype Event =
    | Add(source: string, kind: Source, params: Params, a: Answers)
    | GuiAdd(source: string, kind: Source, params: Params, skipDialog: bool, a: Answers)
    | DownloadFinished(source: string, loaded: Option<InfoHash>, a: Answers)
    | GuiDownloadFinished(source: string, loaded: Option<InfoHash>, a: Answers)
    | TorrentAdded(hash: InfoHash)
    | AddTorrentFailed(hash: InfoHash)
    | Accept(hash: InfoHash, torrentHash: InfoHash, doNotDelete: bool, a: Answers)
    | Reject(hash: InfoHash)
    | Quit(order: seq<string>)

  function Step(s: State, e: Event): State {
    match e
    case Add(source, kind, params, a) => Added(s, source, kind, params, a)
    case GuiAdd(source, kind, params, skipDialog, a) => GuiAdded(s, source, kind, params, skipDialog, a)
    case DownloadFinished(source, loaded, a) => Downloaded(s, source, loaded, a)
    case GuiDownloadFinished(source, loaded, a) => GuiDownloaded(s, source, loaded, a)
    case TorrentAdded(hash) => SessionAdded(s, hash)
    case AddTorrentFailed(hash) => SessionRefused(s, hash)
    case Accept(hash, torrentHash, doNotDelete, a) => DialogAccepted(s, hash, torrentHash, doNotDelete, a)
    case Reject(hash) => DialogRejected(s, hash)
    case Quit(order) => ShutDown(s, order)
  }

  function Run(s: State, events: seq<Event>): State
    decreases |events|
  {
    if |events| == 0 then s else Run(Step(s, events[0]), events[1..])
  }

  /** The rule by which a guarded file should be deleted. */
  predicate ShouldDelete(mode: AutoDeleteMode, cause: Cause) {
    match mode
    case Never => false
    case IfAdded => cause.AddedToSession?
    case Always => !cause.SessionFailed? && !cause.KeptByUser?
  }

  /** A guard that died followed the rule, and if the session's report was the cause, there was one for its source. */
  predicate IsJust(f: Fate, reported: seq<string>) {
    && (f.removed <==> f.guard.file != "" && ShouldDelete(f.guard.mode, f.cause))
    && (f.cause.AddedToSession? ==> f.source in reported)
  }

  predicate Inv(s: State) {
    && (forall source :: source in s.guards ==> s.guards[source].remove && !s.guards[source].wasAdded)
    && (forall k :: 0 <= k < |s.fates| ==> IsJust(s.fates[k], s.reported))
  }

  // ----- No guard is lost and none is made up -----

  /** What tells guards apart. */
  datatype Tag = Tag(source: string, file: string, torrent: Option<InfoHash>, mode: AutoDeleteMode)

  function TagOf(source: string, g: Guard): Tag {
    Tag(source, g.file, g.torrent, g.mode)
  }

  function TableTags(guards: map<string, Guard>): multiset<Tag> {
    multiset(set source | source in guards :: TagOf(source, guards[source]))
  }

  function FateTags(fates: seq<Fate>): multiset<Tag> {
    if |fates| == 0 then multiset{}
    else
      var last := fates[|fates| - 1];
      FateTags(fates[..|fates| - 1]) + multiset{TagOf(last.source, last.guard)}
  }

  /** The guards in the table and those that are gone. */
  function All(s: State): multiset<Tag> {
    TableTags(s.guards) + FateTags(s.fates)
  }

  lemma TableInsert(guards: map<string, Guard>, source: string, g: Guard)
    requires source !in guards
    ensures TableTags(guards[source := g]) == TableTags(guards) + multiset{TagOf(source, g)}
  {
    var more := guards[source := g];
    var before := set other | other in guards :: TagOf(other, guards[other]);
    assert (set other | other in more :: TagOf(other, more[other])) == before + {TagOf(source, g)} by {
      assert more[source] == g;
      assert forall other :: other in guards ==> other in more && more[other] == guards[other];
    }
    assert TagOf(source, g) !in before;
  }

  lemma TableRemove(guards: map<string, Guard>, source: string)
    requires source in guards
    ensures TableTags(guards) == TableTags(guards - {source}) + multiset{TagOf(source, guards[source])}
  {
    TableInsert(guards - {source}, source, guards[source]);
    assert (guards - {source})[source := guards[source]] == guards;
  }

  lemma FateAdded(fates: seq<Fate>, f: Fate)
    ensures FateTags(fates + [f]) == FateTags(fates) + multiset{TagOf(f.source, f.guard)}
  {
    assert (fates + [f])[..|fates|] == fates;
  }

  /** The tag of the guard that an event makes. */
  function Makes(e: Event): multiset<Tag> {
    if (e.Add? || e.GuiAdd?) then MakesFor(e.source, e.kind, e.a) else multiset{}
  }

  function MakesFor(source: string, kind: Source, a: Answers): multiset<Tag> {
    if source != "" && kind.TorrentFile? then multiset{Tag(source, kind.path, kind.loaded, a.mode)} else multiset{}
  }

  /** The guards are those before and the ones made, and each that is gone was treated as it should be. */
  ghost predicate Keeps(s: State, t: State, made: multiset<Tag>) {
    Inv(t) && All(t) == All(s) + made
  }

  lemma DiedJust(s: State, source: string, g: Guard, cause: Cause)
    requires Inv(s) && IsJust(Fate(source, g, cause, g.RemovesFile()), s.reported)
    ensures Keeps(s, Died(s, source, g, cause), multiset{TagOf(source, g)})
  {
    FateAdded(s.fates, Fate(source, g, cause, g.RemovesFile()));
  }

  lemma GuardPutJust(s: State, source: string, g: Guard)
    requires Inv(s) && g.remove && !g.wasAdded && source !in s.guards
    ensures Keeps(s, s.(guards := s.guards[source := g]), multiset{TagOf(source, g)})
  {
    TableInsert(s.guards, source, g);
  }

  lemma GuardTakenJust(s: State, source: string)
    requires Inv(s) && source in s.guards
    ensures Inv(s.(guards := s.guards - {source}))
    ensures All(s) == All(s.(guards := s.guards - {source})) + multiset{TagOf(source, s.guards[source])}
  {
    TableRemove(s.guards, source);
  }

  lemma GuardReleasedJust(s: State, source: string, change: Guard -> Guard, cause: Cause)
    requires Inv(s)
    requires source in s.guards ==>
      var g := change(s.guards[source]);
      TagOf(source, g) == TagOf(source, s.guards[source]) && IsJust(Fate(source, g, cause, g.RemovesFile()), s.reported)
    ensures Keeps(s, GuardReleased(s, source, change, cause), multiset{})
  {
    if source in s.guards {
      GuardTakenJust(s, source);
      DiedJust(s.(guards := s.guards - {source}), source, change(s.guards[source]), cause);
    }
  }

  lemma GuardSetJust(s: State, source: string, g: Guard)
    requires Inv(s) && g.remove && !g.wasAdded
    ensures Keeps(s, GuardSet(s, source, g), multiset{TagOf(source, g)})
  {
    if source in s.guards {
      var t := GuardReleased(s, source, Unchanged, Replaced);
      GuardReleasedJust(s, source, Unchanged, Replaced);
      GuardPutJust(t, source, g);
      TakeThenPut(s.guards, source, g);
      assert GuardSet(s, source, g) == t.(guards := t.guards[source := g]);
    } else {
      GuardPutJust(s, source, g);
    }
  }

  /** Only the guards, their ends and the reports matter. */
  lemma SameJust(s: State, t: State)
    requires Inv(s) && t.guards == s.guards && t.fates == s.fates && t.reported == s.reported
    ensures Keeps(s, t, multiset{})
  {
  }

  lemma FileAddedJust(s: State, source: string, path: string, loaded: Option<InfoHash>, a: Answers)
    requires Inv(s) && source != ""
    ensures Keeps(s, FileAdded(s, source, path, loaded, a), multiset{Tag(source, path, loaded, a.mode)})
  {
    var g := NewGuard(path, loaded, a.mode);
    if loaded.None? {
      DiedJust(s, source, g, LoadFailed);
    } else {
      var t := GuardSet(s, source, g);
      GuardSetJust(s, source, g);
      SameJust(t, Processed(t, source, loaded.value, a));
    }
  }

  lemma AddedJust(s: State, source: string, kind: Source, params: Params, a: Answers)
    requires Inv(s)
    ensures Keeps(s, Added(s, source, kind, params, a), MakesFor(source, kind, a))
  {
    if source != "" && kind.TorrentFile? {
      FileAddedJust(s, source, kind.path, kind.loaded, a);
    } else {
      SameJust(s, Added(s, source, kind, params, a));
    }
  }

  lemma GuiFileJust(s: State, source: string, path: string, loaded: Option<InfoHash>, a: Answers)
    requires Inv(s) && source != ""
    ensures Keeps(s, GuiFileAdded(s, source, path, loaded, a), multiset{Tag(source, path, loaded, a.mode)})
  {
    var g := NewGuard(path, loaded, a.mode);
    if loaded.None? {
      DiedJust(s, source, g, LoadFailed);
    } else {
      var t := GuiProcessed(s, source, loaded.value, a);
      SameJust(s, t);
      if GuiProcesses(s, loaded.value, a) {
        GuardSetJust(t, source, g);
      } else {
        DiedJust(t, source, g, NotProcessed);
      }
    }
  }

  lemma GuiAddedJust(s: State, source: string, kind: Source, params: Params, skipDialog: bool, a: Answers)
    requires Inv(s)
    ensures Keeps(s, GuiAdded(s, source, kind, params, skipDialog, a), MakesFor(source, kind, a))
  {
    if skipDialog {
      AddedJust(s, source, kind, params, a);
    } else if source != "" && kind.TorrentFile? {
      GuiFileJust(s, source, kind.path, kind.loaded, a);
    } else {
      SameJust(s, GuiAdded(s, source, kind, params, skipDialog, a));
    }
  }

  lemma {:induction false} DroppedJust(s: State, order: seq<string>)
    requires Inv(s)
    ensures Keeps(s, GuardsDropped(s, order), multiset{})
    decreases |order|
  {
    if |order| > 0 {
      GuardReleasedJust(s, order[0], Unchanged, Shutdown);
      DroppedJust(GuardReleased(s, order[0], Unchanged, Shutdown), order[1..]);
    }
  }

  /** The report comes before the guard goes. */
  lemma ReportedJust(s: State, hash: InfoHash, source: string)
    requires Inv(s)
    ensures Keeps(s, s.(sources := s.sources - {hash}, reported := s.reported + [source]), multiset{})
  {
  }

  lemma SessionAddedJust(s: State, hash: InfoHash)
    requires Inv(s)
    ensures Keeps(s, SessionAdded(s, hash), multiset{})
  {
    if hash in s.sources && s.sources[hash] != "" {
      var source := s.sources[hash];
      var t := s.(sources := s.sources - {hash}, reported := s.reported + [source]);
      ReportedJust(s, hash, source);
      GuardReleasedJust(t, source, MarkAdded, AddedToSession(hash));
    } else {
      SameJust(s, SessionAdded(s, hash));
    }
  }

  lemma RefusedJust(s: State, hash: InfoHash)
    requires Inv(s)
    ensures Keeps(s, SessionRefused(s, hash), multiset{})
  {
    var t := s.(sources := s.sources - {hash});
    SameJust(s, t);
    if hash in s.sources && s.sources[hash] != "" {
      GuardReleasedJust(t, s.sources[hash], KeepFile, SessionFailed);
    }
  }

  lemma AcceptedJust(s: State, hash: InfoHash, torrentHash: InfoHash, doNotDelete: bool, a: Answers)
    requires Inv(s)
    ensures Keeps(s, DialogAccepted(s, hash, torrentHash, doNotDelete, a), multiset{})
  {
    if hash in s.dialogs {
      var source := s.dialogs[hash];
      var t := if doNotDelete then GuardReleased(s, source, KeepFile, KeptByUser) else s;
      GuardReleasedJust(s, source, KeepFile, KeptByUser);
      SameJust(t, DialogAccepted(s, hash, torrentHash, doNotDelete, a));
    }
  }

  lemma RejectedJust(s: State, hash: InfoHash)
    requires Inv(s)
    ensures Keeps(s, DialogRejected(s, hash), multiset{})
  {
    if hash in s.dialogs {
      var t := GuardReleased(s, s.dialogs[hash], Unchanged, Rejected);
      GuardReleasedJust(s, s.dialogs[hash], Unchanged, Rejected);
      SameJust(t, DialogRejected(s, hash));
    }
  }

  lemma QuitJust(s: State, order: seq<string>)
    requires Inv(s)
    ensures Keeps(s, ShutDown(s, order), multiset{})
  {
    DroppedJust(s, order);
    SameJust(GuardsDropped(s, order), ShutDown(s, order));
  }

  lemma DownloadJust(s: State, e: Event)
    requires Inv(s) && (e.DownloadFinished? || e.GuiDownloadFinished?)
    ensures Keeps(s, Step(s, e), multiset{})
  {
    SameJust(s, Step(s, e));
  }

  lemma ReportJust(s: State, e: Event)
    requires Inv(s) && e.TorrentAdded?
    ensures Keeps(s, Step(s, e), multiset{})
  {
    SessionAddedJust(s, e.hash);
  }

  lemma RefusalJust(s: State, e: Event)
    requires Inv(s) && e.AddTorrentFailed?
    ensures Keeps(s, Step(s, e), multiset{})
  {
    RefusedJust(s, e.hash);
  }

  lemma DialogJust(s: State, e: Event)
    requires Inv(s) && (e.Accept? || e.Reject? || e.Quit?)
    ensures Keeps(s, Step(s, e), multiset{})
  {
    if e.Accept? {
      AcceptedJust(s, e.hash, e.torrentHash, e.doNotDelete, e.a);
    } else if e.Reject? {
      RejectedJust(s, e.hash);
    } else {
      QuitJust(s, e.order);
    }
  }

  /** An event makes at most its own guard, and loses or doubles none. */
  lemma StepJust(s: State, e: Event)
    requires Inv(s)
    ensures Keeps(s, Step(s, e), Makes(e))
  {
    if e.Add? {
      AddedJust(s, e.source, e.kind, e.params, e.a);
    } else if e.GuiAdd? {
      GuiAddedJust(s, e.source, e.kind, e.params, e.skipDialog, e.a);
    } else if e.DownloadFinished? || e.GuiDownloadFinished? {
      DownloadJust(s, e);
    } else if e.TorrentAdded? {
      ReportJust(s, e);
    } else if e.AddTorrentFailed? {
      RefusalJust(s, e);
    } else {
      DialogJust(s, e);
    }
  }

  function Made(events: seq<Event>): multiset<Tag> {
    if |events| == 0 then multiset{} else Makes(events[0]) + Made(events[1..])
  }

  lemma {:induction false} RunJust(s: State, events: seq<Event>)
    requires Inv(s)
    ensures Keeps(s, Run(s, events), Made(events))
    decreases |events|
  {
    if |events| > 0 {
      StepJust(s, events[0]);
      RunJust(Step(s, events[0]), events[1..]);
    }
  }

  /**
    Over every run of adds, downloads, answers of the session and the user, and the shutdown: each
    guard ever made is either still in the table or has died, exactly once, and no other guard is; and
    the file of a dead guard was deleted exactly when its mode and the cause of its death say so. In
    particular a file in mode Never is never deleted, and one in mode IfAdded only when the session had
    reported a torrent from its source as added.
  */
  lemma EveryDeletionIsJust(events: seq<Event>)
    ensures var s := Run(EMPTY, events);
      && TableTags(s.guards) + FateTags(s.fates) == Made(events)
      && (forall k :: 0 <= k < |s.fates| ==> IsJust(s.fates[k], s.reported))
      && (forall k :: 0 <= k < |s.fates| && s.fates[k].removed ==>
            !s.fates[k].guard.mode.Never? && (s.fates[k].guard.mode.IfAdded? ==> s.fates[k].source in s.reported))
  {
    RunJust(EMPTY, events);
    var s := Run(EMPTY, events);
    forall k | 0 <= k < |s.fates| && s.fates[k].removed
      ensures !s.fates[k].guard.mode.Never? && (s.fates[k].guard.mode.IfAdded? ==> s.fates[k].source in s.reported)
    {
      assert IsJust(s.fates[k], s.reported);
    }
  }

  /**
    A report of a torrent deletes the file guarded for its source at once, unless the mode is Never;
    and only the table entry of that source goes.
  */
  lemma ReportDeletes(events: seq<Event>, hash: InfoHash)
    requires var s := Run(EMPTY, events); hash in s.sources && s.sources[hash] in s.guards && s.sources[hash] != ""
    ensures
      var s := Run(EMPTY, events);
      var source, t := s.sources[hash], SessionAdded(s, hash);
      && t.guards == s.guards - {source} && source in t.reported
      && |t.fates| == |s.fates| + 1
      && (t.fates[|s.fates|].removed <==> s.guards[source].file != "" && !s.guards[source].mode.Never?)
  {
    RunJust(EMPTY, events);
  }

  // ----- What mode Always deletes -----

  lemma RunOne(s: State, e: Event)
    ensures Run(s, [e]) == Step(s, e)
  {
    assert Run(Step(s, e), []) == Step(s, e);
  }

  lemma RunFirst(s: State, e: Event, rest: seq<Event>)
    ensures Run(s, [e] + rest) == Run(Step(s, e), rest)
  {
    assert ([e] + rest)[1..] == rest;
  }

  lemma RunTwo(s: State, e: Event, f: Event)
    ensures Run(s, [e, f]) == Step(Step(s, e), f)
  {
    RunOne(Step(s, e), f);
    assert [e, f][1..] == [f];
  }

  /** A file that does not load is deleted. */
  lemma UnloadableIsDeleted(params: Params, known: bool, accepts: bool)
    ensures Run(EMPTY, [Add("/t", TorrentFile("/t", None), params, Answers(known, accepts, Always))]).fates
            == [Fate("/t", NewGuard("/t", None, Always), LoadFailed, true)]
  {
    RunOne(EMPTY, Add("/t", TorrentFile("/t", None), params, Answers(known, accepts, Always)));
  }

  /** With dialogs, the file of a torrent that the session already has is deleted. */
  lemma DuplicateIsDeleted(params: Params)
    ensures Run(EMPTY, [GuiAdd("/t", TorrentFile("/t", Some("1")), params, false, Answers(true, true, Always))]).fates
            == [Fate("/t", NewGuard("/t", Some("1"), Always), NotProcessed, true)]
  {
    RunOne(EMPTY, GuiAdd("/t", TorrentFile("/t", Some("1")), params, false, Answers(true, true, Always)));
  }

  /** Without a dialog it stays, guarded, until the shutdown deletes it. */
  lemma DuplicateWaits(params: Params)
    ensures
      var add := Add("/t", TorrentFile("/t", Some("1")), params, Answers(true, true, Always));
      && Run(EMPTY, [add]).fates == [] && "/t" in Run(EMPTY, [add]).guards
      && Run(EMPTY, [add, Quit(["/t"])]).fates == [Fate("/t", NewGuard("/t", Some("1"), Always), Shutdown, true)]
  {
    var add := Add("/t", TorrentFile("/t", Some("1")), params, Answers(true, true, Always));
    RunOne(EMPTY, add);
    RunTwo(EMPTY, add, Quit(["/t"]));
    var s := Step(EMPTY, add);
    assert GuardsDropped(s, ["/t"]) == GuardsDropped(GuardReleased(s, "/t", Unchanged, Shutdown), []);
  }

  /** A file whose dialog is rejected is deleted. */
  lemma RejectedIsDeleted(params: Params)
    ensures Run(EMPTY, [GuiAdd("/t", TorrentFile("/t", Some("1")), params, false, Answers(false, true, Always)), Reject("1")]).fates
            == [Fate("/t", NewGuard("/t", Some("1"), Always), Rejected, true)]
  {
    RunTwo(EMPTY, GuiAdd("/t", TorrentFile("/t", Some("1")), params, false, Answers(false, true, Always)), Reject("1"));
  }
}
