/**
  What comes of adding a source, from every state of the managers: how it reaches the session, and what
  the answers of the session and of the user then do to its guarded file.
*/
module AddTorrentLife {
  import opened Strings
  import opened TorrentFileGuards
  import opened AddTorrent
  import opened AddTorrentRuns

  // ----- Without a dialog -----

  /** The torrent that an event hands to the session on behalf of a source. */
  function HandsOver(e: Event): Option<(string, InfoHash)> {
    match e
    case Add(source, Descriptor(hash), _, _) => if source == "" then None else Some((source, hash))
    case Add(source, TorrentFile(_, Some(hash)), _, _) => if source == "" then None else Some((source, hash))
    case DownloadFinished(source, Some(hash), _) => Some((source, hash))
    case _ => None
  }

  predicate IsTakenIn(a: Answers) {
    !a.known && a.accepts
  }

  lemma ProcessedSources(s: State, source: string, hash: InfoHash, a: Answers)
    ensures Processed(s, source, hash, a).sources == if IsTakenIn(a) then s.sources[hash := source] else s.sources
  {
  }

  lemma FileSources(s: State, source: string, path: string, loaded: Option<InfoHash>, a: Answers)
    ensures FileAdded(s, source, path, loaded, a).sources
            == if loaded.Some? && IsTakenIn(a) then s.sources[loaded.value := source] else s.sources
  {
    if loaded.Some? {
      ProcessedSources(GuardSet(s, source, NewGuard(path, loaded, a.mode)), source, loaded.value, a);
    }
  }

  lemma AddedSources(s: State, source: string, kind: Source, params: Params, a: Answers)
    ensures var given := HandsOver(Add(source, kind, params, a));
      Added(s, source, kind, params, a).sources
      == if given.Some? && IsTakenIn(a) then s.sources[given.value.1 := given.value.0] else s.sources
  {
    if source != "" && kind.TorrentFile? {
      FileSources(s, source, kind.path, kind.loaded, a);
    } else if source != "" && kind.Descriptor? {
      ProcessedSources(s, source, kind.hash, a);
    }
  }

  /** The session gets a torrent exactly when it does not know it and accepts it, and then its source is remembered. */
  lemma SourceIsRemembered(s: State, e: Event)
    requires e.Add? || e.DownloadFinished?
    ensures Step(s, e).sources
            == if HandsOver(e).Some? && IsTakenIn(e.a) then s.sources[HandsOver(e).value.1 := HandsOver(e).value.0] else s.sources
  {
    if e.Add? {
      AddedSources(s, e.source, e.kind, e.params, e.a);
    } else if e.loaded.Some? {
      ProcessedSources(s.(downloads := s.downloads - {e.source}), e.source, e.loaded.value, e.a);
    }
  }

  /** The last guard that died is the one that was made for this file, for this cause. */
  predicate EndsWith(s: State, source: string, path: string, hash: InfoHash, mode: AutoDeleteMode, cause: Cause) {
    && |s.fates| > 0
    && var f := s.fates[|s.fates| - 1];
       && f.source == source && f.guard.file == path && f.guard.torrent == Some(hash) && f.guard.mode == mode && f.cause == cause
       && (f.removed <==> path != "" && ShouldDelete(mode, cause))
  }

  lemma FileIsGuarded(s: State, source: string, path: string, hash: InfoHash, a: Answers)
    requires source != "" && !a.known && a.accepts
    ensures
      var t := FileAdded(s, source, path, Some(hash), a);
      && t.guards == s.guards[source := NewGuard(path, Some(hash), a.mode)]
      && t.sources == s.sources[hash := source] && t.reported == s.reported && t.dialogs == s.dialogs
  {
  }

  /** The source is free again: its guard, and no other, ended for this cause, and its torrent is no longer awaited. */
  predicate IsFreed(s: State, t: State, source: string, path: string, hash: InfoHash, mode: AutoDeleteMode, cause: Cause) {
    && t.guards == s.guards - {source} && hash !in t.sources
    && EndsWith(t, source, path, hash, mode, cause)
    && t.reported == if cause.AddedToSession? then s.reported + [source] else s.reported
  }

  lemma GuardedThenReported(s: State, t: State, source: string, path: string, hash: InfoHash, mode: AutoDeleteMode)
    requires source != "" && t.sources == s.sources[hash := source] && t.reported == s.reported
    requires t.guards == s.guards[source := NewGuard(path, Some(hash), mode)]
    ensures IsFreed(s, SessionAdded(t, hash), source, path, hash, mode, AddedToSession(hash))
  {
    RemoveAdded(s.guards, source, NewGuard(path, Some(hash), mode));
  }

  lemma GuardedThenRefused(s: State, t: State, source: string, path: string, hash: InfoHash, mode: AutoDeleteMode)
    requires source != "" && t.sources == s.sources[hash := source] && t.reported == s.reported
    requires t.guards == s.guards[source := NewGuard(path, Some(hash), mode)]
    ensures IsFreed(s, SessionRefused(t, hash), source, path, hash, mode, SessionFailed)
  {
    RemoveAdded(s.guards, source, NewGuard(path, Some(hash), mode));
  }

  lemma RemoveAdded<V>(m: map<string, V>, k: string, v: V)
    ensures m[k := v] - {k} == m - {k}
  {
  }

  lemma StepsOfFile(s: State, source: string, path: string, hash: InfoHash, params: Params, a: Answers, e: Event)
    requires source != ""
    ensures Run(s, [Add(source, TorrentFile(path, Some(hash)), params, a), e]) == Step(FileAdded(s, source, path, Some(hash), a), e)
  {
    RunTwo(s, Add(source, TorrentFile(path, Some(hash)), params, a), e);
  }

  /**
    From every state, a new file that the session accepts is reported when the session says so; its
    guard, and no other, is then gone, and the file is deleted unless the mode is Never.
  */
  lemma AddedFileIsReported(s: State, source: string, path: string, hash: InfoHash, params: Params, a: Answers)
    requires source != "" && IsTakenIn(a)
    ensures IsFreed(s, Run(s, [Add(source, TorrentFile(path, Some(hash)), params, a), TorrentAdded(hash)]),
                    source, path, hash, a.mode, AddedToSession(hash))
  {
    StepsOfFile(s, source, path, hash, params, a, TorrentAdded(hash));
    FileIsGuarded(s, source, path, hash, a);
    GuardedThenReported(s, FileAdded(s, source, path, Some(hash), a), source, path, hash, a.mode);
  }

  /** The same file is kept when the session reports a failure instead. */
  lemma AddedFileIsRefused(s: State, source: string, path: string, hash: InfoHash, params: Params, a: Answers)
    requires source != "" && IsTakenIn(a)
    ensures IsFreed(s, Run(s, [Add(source, TorrentFile(path, Some(hash)), params, a), AddTorrentFailed(hash)]),
                    source, path, hash, a.mode, SessionFailed)
  {
    StepsOfFile(s, source, path, hash, params, a, AddTorrentFailed(hash));
    FileIsGuarded(s, source, path, hash, a);
    GuardedThenRefused(s, FileAdded(s, source, path, Some(hash), a), source, path, hash, a.mode);
  }

  lemma ReportFrees(s: State, t: State, source: string, hash: InfoHash)
    requires source != "" && hash in t.sources && t.sources[hash] == source && t.guards == s.guards && t.reported == s.reported
    ensures var u := SessionAdded(t, hash); u.reported == s.reported + [source] && u.guards == s.guards - {source} && hash !in u.sources
  {
  }

  lemma HandedOverGuards(s: State, e: Event)
    requires (e.Add? && e.kind.Descriptor?) || e.DownloadFinished?
    ensures Step(s, e).guards == s.guards && Step(s, e).reported == s.reported
  {
  }

  /** A magnet link or a finished download that the session accepts is reported as well, and frees what its source guarded. */
  lemma HandedOverIsReported(s: State, e: Event)
    requires (e.Add? && e.kind.Descriptor?) || e.DownloadFinished?
    requires HandsOver(e).Some? && HandsOver(e).value.0 != "" && IsTakenIn(e.a)
    ensures
      var (source, hash) := HandsOver(e).value;
      var t := Run(s, [e, TorrentAdded(hash)]);
      t.reported == s.reported + [source] && t.guards == s.guards - {source} && hash !in t.sources
  {
    var (source, hash) := HandsOver(e).value;
    RunTwo(s, e, TorrentAdded(hash));
    HandedOverGuards(s, e);
    SourceIsRemembered(s, e);
    ReportFrees(s, Step(s, e), source, hash);
  }

  /** A download is started once, with the parameters it was first asked for. */
  lemma DownloadOnce(s: State, source: string, p: Params, q: Params, a: Answers, b: Answers)
    requires source != ""
    ensures
      var once := Added(s, source, Url, p, a);
      && source in once.downloads && (source !in s.downloads ==> once.downloads[source] == p)
      && Added(once, source, Url, q, b) == once
  {
  }

  /** It is forgotten when it is over, and may then be started again. */
  lemma DownloadForgotten(s: State, source: string, loaded: Option<InfoHash>, a: Answers)
    ensures Downloaded(s, source, loaded, a).downloads == s.downloads - {source}
    ensures GuiDownloaded(s, source, loaded, a).guiDownloads == s.guiDownloads - {source}
  {
  }

  // ----- With a dialog -----

  lemma GuiFileIsGuarded(s: State, source: string, path: string, hash: InfoHash, a: Answers)
    requires !a.known && hash !in s.dialogs
    ensures
      var t := GuiFileAdded(s, source, path, Some(hash), a);
      && t.guards == s.guards[source := NewGuard(path, Some(hash), a.mode)]
      && t.dialogs == s.dialogs[hash := source] && t.sources == s.sources && t.reported == s.reported
  {
  }

  /** A source gets a dialog exactly when its torrent has none and the session does not know it; an open one keeps its source. */
  lemma DialogOpens(s: State, source: string, hash: InfoHash, a: Answers)
    ensures GuiProcessed(s, source, hash, a).dialogs == if hash in s.dialogs || a.known then s.dialogs else s.dialogs[hash := source]
    ensures GuiDownloaded(s, source, Some(hash), a).dialogs == GuiProcessed(s, source, hash, a).dialogs
  {
  }

  lemma Accepts(s: State, source: string, hash: InfoHash, b: Answers)
    requires hash in s.dialogs && s.dialogs[hash] == source && b.accepts
    ensures
      var t := DialogAccepted(s, hash, hash, false, b);
      && t.guards == s.guards && t.sources == s.sources[hash := source] && t.reported == s.reported && t.dialogs == s.dialogs - {hash}
  {
  }

  lemma StepsOfDialog(s: State, source: string, path: string, hash: InfoHash, params: Params, a: Answers, e: Event)
    requires source != ""
    ensures Run(s, [GuiAdd(source, TorrentFile(path, Some(hash)), params, false, a), e]) == Step(GuiFileAdded(s, source, path, Some(hash), a), e)
  {
    RunTwo(s, GuiAdd(source, TorrentFile(path, Some(hash)), params, false, a), e);
  }

  lemma {:induction false} RunSnoc(s: State, events: seq<Event>, e: Event)
    ensures Run(s, events + [e]) == Step(Run(s, events), e)
    decreases |events|
  {
    if |events| == 0 {
      assert events + [e] == [e];
      RunOne(s, e);
    } else {
      assert (events + [e])[1..] == events[1..] + [e];
      RunSnoc(Step(s, events[0]), events[1..], e);
    }
  }

  lemma StepsOfAccepted(s: State, source: string, path: string, hash: InfoHash, params: Params, a: Answers, b: Answers)
    requires source != ""
    ensures Run(s, [GuiAdd(source, TorrentFile(path, Some(hash)), params, false, a), Accept(hash, hash, false, b), TorrentAdded(hash)])
            == SessionAdded(DialogAccepted(GuiFileAdded(s, source, path, Some(hash), a), hash, hash, false, b), hash)
  {
    var add, accept := GuiAdd(source, TorrentFile(path, Some(hash)), params, false, a), Accept(hash, hash, false, b);
    RunSnoc(s, [add, accept], TorrentAdded(hash));
    assert [add, accept] + [TorrentAdded(hash)] == [add, accept, TorrentAdded(hash)];
    StepsOfDialog(s, source, path, hash, params, a, accept);
  }

  /** From every state: added with a dialog, accepted, and reported by the session. */
  lemma AcceptedFileIsReported(s: State, source: string, path: string, hash: InfoHash, params: Params, a: Answers, b: Answers)
    requires source != "" && !a.known && hash !in s.dialogs && b.accepts
    ensures IsFreed(s, Run(s, [GuiAdd(source, TorrentFile(path, Some(hash)), params, false, a), Accept(hash, hash, false, b), TorrentAdded(hash)]),
                    source, path, hash, a.mode, AddedToSession(hash))
  {
    StepsOfAccepted(s, source, path, hash, params, a, b);
    var s1 := GuiFileAdded(s, source, path, Some(hash), a);
    GuiFileIsGuarded(s, source, path, hash, a);
    Accepts(s1, source, hash, b);
    GuardedThenReported(s, DialogAccepted(s1, hash, hash, false, b), source, path, hash, a.mode);
  }

  lemma KeepsFile(s: State, t: State, source: string, path: string, hash: InfoHash, mode: AutoDeleteMode, b: Answers)
    requires t.guards == s.guards[source := NewGuard(path, Some(hash), mode)]
    requires t.sources == s.sources && t.dialogs == s.dialogs[hash := source] && hash !in s.dialogs
    ensures
      var u := DialogAccepted(t, hash, hash, true, b);
      && u.guards == s.guards - {source} && EndsWith(u, source, path, hash, mode, KeptByUser) && u.dialogs == s.dialogs
      && u.sources == if b.accepts then s.sources[hash := source] else s.sources
  {
    RemoveAdded(s.guards, source, NewGuard(path, Some(hash), mode));
    assert s.dialogs[hash := source] - {hash} == s.dialogs;
  }

  lemma RejectsFile(s: State, t: State, source: string, path: string, hash: InfoHash, mode: AutoDeleteMode)
    requires t.guards == s.guards[source := NewGuard(path, Some(hash), mode)]
    requires t.sources == s.sources && t.dialogs == s.dialogs[hash := source] && hash !in s.dialogs
    ensures
      var u := DialogRejected(t, hash);
      && u.guards == s.guards - {source} && EndsWith(u, source, path, hash, mode, Rejected) && u.dialogs == s.dialogs
      && u.sources == s.sources
  {
    RemoveAdded(s.guards, source, NewGuard(path, Some(hash), mode));
    assert s.dialogs[hash := source] - {hash} == s.dialogs;
  }

  /** Accepted with "do not delete" the file is free at once and stays, and its torrent still goes to the session. */
  lemma AcceptedFileIsKept(s: State, source: string, path: string, hash: InfoHash, params: Params, a: Answers, b: Answers)
    requires source != "" && !a.known && hash !in s.dialogs
    ensures
      var t := Run(s, [GuiAdd(source, TorrentFile(path, Some(hash)), params, false, a), Accept(hash, hash, true, b)]);
      && t.guards == s.guards - {source} && EndsWith(t, source, path, hash, a.mode, KeptByUser) && t.dialogs == s.dialogs
      && t.sources == if b.accepts then s.sources[hash := source] else s.sources
  {
    StepsOfDialog(s, source, path, hash, params, a, Accept(hash, hash, true, b));
    GuiFileIsGuarded(s, source, path, hash, a);
    KeepsFile(s, GuiFileAdded(s, source, path, Some(hash), a), source, path, hash, a.mode, b);
  }

  /** Rejected it is free as well, and deleted exactly in mode Always; nothing goes to the session. */
  lemma RejectedFileIsFree(s: State, source: string, path: string, hash: InfoHash, params: Params, a: Answers)
    requires source != "" && !a.known && hash !in s.dialogs
    ensures
      var t := Run(s, [GuiAdd(source, TorrentFile(path, Some(hash)), params, false, a), Reject(hash)]);
      && t.guards == s.guards - {source} && EndsWith(t, source, path, hash, a.mode, Rejected) && t.dialogs == s.dialogs
      && t.sources == s.sources
  {
    StepsOfDialog(s, source, path, hash, params, a, Reject(hash));
    GuiFileIsGuarded(s, source, path, hash, a);
    RejectsFile(s, GuiFileAdded(s, source, path, Some(hash), a), source, path, hash, a.mode);
  }

  // ----- What the caller is told -----

  /** A source is taken exactly when its download is under way or its torrent has been given to the session. */
  lemma TakenMeans(s: State, source: string, kind: Source, params: Params, a: Answers)
    ensures IsTaken(source, kind, a)
            <==> (kind.Url? && source != "" && source in Added(s, source, kind, params, a).downloads)
                 || (HandsOver(Add(source, kind, params, a)).Some? && IsTakenIn(a))
  {
  }

  /** With dialogs it is taken exactly when its download is under way or there is a dialog for its torrent. */
  lemma GuiTakenMeans(s: State, source: string, kind: Source, params: Params, a: Answers)
    ensures
      var given, t := HandsOver(Add(source, kind, params, a)), GuiAdded(s, source, kind, params, false, a);
      IsGuiTaken(s, source, kind, false, a)
      <==> (kind.Url? && source != "" && source in t.guiDownloads) || (given.Some? && given.value.1 in t.dialogs)
  {
    if source != "" && kind.TorrentFile? && kind.loaded.Some? {
      GuiFileDialogs(s, source, kind.path, kind.loaded.value, a);
    }
  }

  lemma GuiFileDialogs(s: State, source: string, path: string, hash: InfoHash, a: Answers)
    ensures GuiFileAdded(s, source, path, Some(hash), a).dialogs == GuiProcessed(s, source, hash, a).dialogs
  {
  }

  // ----- The end -----

  lemma {:induction false} DroppedGuards(s: State, order: seq<string>, source: string)
    ensures source in GuardsDropped(s, order).guards <==> source in s.guards && source !in order
    decreases |order|
  {
    if |order| > 0 {
      DroppedGuards(GuardReleased(s, order[0], Unchanged, Shutdown), order[1..], source);
    }
  }

  /** After the shutdown nothing is guarded and no dialog is open. */
  lemma NothingIsLeft(s: State, order: seq<string>)
    requires forall source :: source in s.guards ==> source in order
    ensures ShutDown(s, order).guards == map[] && ShutDown(s, order).dialogs == map[]
  {
    forall source ensures source !in GuardsDropped(s, order).guards {
      DroppedGuards(s, order, source);
    }
  }
}
