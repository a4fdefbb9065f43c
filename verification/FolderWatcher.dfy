/**
  The two sides of the watched folders: TorrentFilesWatcher of torrentfileswatcher.cpp lives on the
  main thread and passes every change of its folder list to the worker thread as a queued call.
*/
module FolderWatcher {
  import opened Strings
  import opened Paths
  import opened Algorithm
  import opened FolderWalk
  import opened FolderWorker
  import opened FolderRuns

  /** A call waiting in the event queue of the worker thread. */
  datatype Message = SetMessage(path: string, options: Options) | RemoveMessage(path: string)

  datatype Error = EmptyPath | RelativePath

  datatype System = System(folders: map<string, Options>, queue: seq<Message>, worker: State)

  // ----- The main thread -----

  function Refusal(path: string): Option<Error> {
    if path == "" then Some(EmptyPath) else if !IsAbsolute(path) then Some(RelativePath) else None
  }

  function FolderSetOnMain(s: System, path: string, options: Options): System {
    if Refusal(path).Some? then s
    else s.(folders := s.folders[path := options], queue := s.queue + [SetMessage(path, options)])
  }

  function FolderRemovedOnMain(s: System, path: string): System {
    if path in s.folders then s.(folders := s.folders - {path}, queue := s.queue + [RemoveMessage(path)]) else s
  }

  function Execute(worker: State, m: Message, setup: Setup): State {
    match m
    case SetMessage(path, options) => FolderSet(worker, path, options, setup)
    case RemoveMessage(path) => FolderRemoved(worker, path)
  }

  /** The worker thread runs the oldest queued call. */
  function Delivered(s: System, setup: Setup): System {
    if |s.queue| == 0 then s else s.(queue := s.queue[1..], worker := Execute(s.worker, s.queue[0], setup))
  }

  class TorrentFilesWatcher {
    var watchedFolders: map<string, Options>
    var queue: seq<Message>
    const worker: Worker

    function Snapshot(): System
      reads this, worker
    {
      System(watchedFolders, queue, worker.Snapshot())
    }

    constructor (worker: Worker)
      ensures this.worker == worker && watchedFolders == map[] && queue == []
    {
      this.worker := worker;
      watchedFolders, queue := map[], [];
    }

    method DoSetWatchedFolder(path: string, options: Options) returns (error: Option<Error>)
      modifies this
      ensures error == Refusal(path)
      ensures Snapshot() == FolderSetOnMain(old(Snapshot()), path, options)
    {
      if path == "" {
        return Some(EmptyPath);
      }
      if !IsAbsolute(path) {
        return Some(RelativePath);
      }
      watchedFolders := watchedFolders[path := options];
      queue := queue + [SetMessage(path, options)];
      return None;
    }

    method RemoveWatchedFolder(path: string)
      modifies this
      ensures Snapshot() == FolderRemovedOnMain(old(Snapshot()), path)
    {
      if path in watchedFolders {
        watchedFolders := watchedFolders - {path};
        queue := queue + [RemoveMessage(path)];
      }
    }

    /** One turn of the worker thread's event loop. */
    method Deliver()
      modifies this`queue, worker
      ensures Snapshot() == Delivered(old(Snapshot()), worker.setup)
    {
      if |queue| == 0 {
        return;
      }
      var message := queue[0];
      queue := queue[1..];
      match message {
        case SetMessage(path, options) => worker.SetWatchedFolder(path, options);
        case RemoveMessage(path) => worker.RemoveWatchedFolder(path);
      }
    }
  }

  // ----- Runs of both threads -----

  /** A call gets a Path that was built from a text, and building it cleans the text. */
  datatype Event =
    | SetCall(text: string, options: Options)
    | RemoveCall(text: string)
    | Deliver
    | WorkerSlot(slot: Slot)

  /** Slots that the worker runs on its own, not on behalf of the main thread. */
  predicate IsOwnSlot(slot: Slot) {
    !slot.SetSlot? && !slot.RemoveSlot?
  }

  ghost function Step(s: System, e: Event, setup: Setup): System {
    match e
    case SetCall(text, options) => FolderSetOnMain(s, CleanPath(text), options)
    case RemoveCall(text) => FolderRemovedOnMain(s, CleanPath(text))
    case Deliver => Delivered(s, setup)
    case WorkerSlot(slot) => if IsOwnSlot(slot) then s.(worker := StepSlot(s.worker, slot, setup)) else s
  }

  ghost function Run(s: System, events: seq<Event>, setup: Setup): System
    decreases |events|
  {
    if |events| == 0 then s else Run(Step(s, events[0], setup), events[1..], setup)
  }

  const INITIAL := System(map[], [], State(map[], {}, {}, multiset{}, false, false, map[]))

  function Applied(folders: map<string, Options>, m: Message): map<string, Options> {
    match m
    case SetMessage(path, options) => folders[path := options]
    case RemoveMessage(path) => folders - {path}
  }

  /** The folders after all queued calls. */
  function AppliedAll(folders: map<string, Options>, queue: seq<Message>): map<string, Options>
    decreases |queue|
  {
    if |queue| == 0 then folders else AppliedAll(Applied(folders, queue[0]), queue[1..])
  }

  lemma {:induction false} AppliedSnoc(folders: map<string, Options>, queue: seq<Message>, m: Message)
    ensures AppliedAll(folders, queue + [m]) == Applied(AppliedAll(folders, queue), m)
    decreases |queue|
  {
    if |queue| == 0 {
      assert queue + [m] == [m];
      assert AppliedAll(folders, [m]) == AppliedAll(Applied(folders, m), [m][1..]);
    } else {
      assert (queue + [m])[1..] == queue[1..] + [m];
      AppliedSnoc(Applied(folders, queue[0]), queue[1..], m);
    }
  }

  ghost predicate AreCleanAbsolute(folders: map<string, Options>) {
    forall path :: path in folders ==> IsAbsolute(path) && IsClean(path)
  }

  /** The queued calls lead from the worker's folders to those of the main thread. */
  ghost predicate Mirrors(s: System) {
    AppliedAll(s.worker.watched, s.queue) == s.folders
  }

  ghost predicate QueueCleanAbsolute(queue: seq<Message>) {
    forall k :: 0 <= k < |queue| && queue[k].SetMessage? ==> IsAbsolute(queue[k].path) && IsClean(queue[k].path)
  }

  ghost predicate SystemInv(s: System, setup: Setup) {
    Mirrors(s) && Inv(s.worker, setup) && AreCleanAbsolute(s.worker.watched) && QueueCleanAbsolute(s.queue)
  }

  lemma OwnSlotKeepsFolders(s: State, slot: Slot, setup: Setup)
    requires IsOwnSlot(slot)
    ensures StepSlot(s, slot, setup).watched == s.watched
  {
    if slot.PollSlot? {
      ScannedAllKeepsFolders(s, Fitting(slot.order, s.polled), slot.trees, setup);
    }
  }

  lemma ExecuteMirrors(worker: State, m: Message, setup: Setup)
    requires Inv(worker, setup)
    ensures Execute(worker, m, setup).watched == Applied(worker.watched, m) && Inv(Execute(worker, m, setup), setup)
  {
    match m
    case SetMessage(path, options) =>
      FolderSetInv(worker, path, options, setup);
      FolderSetParts(worker, path, options, setup);
    case RemoveMessage(path) =>
      FolderRemovedInv(worker, path, setup);
  }

  lemma StepKeepsSystem(s: System, e: Event, setup: Setup)
    requires SystemInv(s, setup)
    ensures SystemInv(Step(s, e, setup), setup)
  {
    match e
    case SetCall(text, options) =>
      CleanIdempotent(text);
      AppliedSnoc(s.worker.watched, s.queue, SetMessage(CleanPath(text), options));
    case RemoveCall(text) => AppliedSnoc(s.worker.watched, s.queue, RemoveMessage(CleanPath(text)));
    case Deliver =>
      if |s.queue| > 0 {
        ExecuteMirrors(s.worker, s.queue[0], setup);
      }
    case WorkerSlot(slot) =>
      if IsOwnSlot(slot) {
        StepKeepsInv(s.worker, slot, setup);
        OwnSlotKeepsFolders(s.worker, slot, setup);
      }
  }

  lemma {:induction false} RunKeepsSystem(s: System, events: seq<Event>, setup: Setup)
    requires SystemInv(s, setup)
    ensures SystemInv(Run(s, events, setup), setup)
    decreases |events|
  {
    if |events| > 0 {
      StepKeepsSystem(s, events[0], setup);
      RunKeepsSystem(Step(s, events[0], setup), events[1..], setup);
    }
  }

  /**
    In every interleaving of calls on the main thread, deliveries and slots of the worker, applying
    the queued calls to the worker's folders gives the folders of the main thread; so both agree
    whenever the queue is empty. The worker's invariant holds all the time.
  */
  lemma ThreadsAgree(events: seq<Event>, setup: Setup)
    ensures var s := Run(INITIAL, events, setup);
      && AppliedAll(s.worker.watched, s.queue) == s.folders
      && (s.queue == [] ==> s.worker.watched == s.folders)
      && Inv(s.worker, setup)
  {
    assert SystemInv(INITIAL, setup);
    RunKeepsSystem(INITIAL, events, setup);
  }

  /** In every reachable state no directory is handled under two different watched folders. */
  lemma NoDirectoryTwice(events: seq<Event>, setup: Setup, first: string, second: string, firstTree: Folder, secondTree: Folder, path: string)
    requires first != second && WellFormed(firstTree) && WellFormed(secondTree)
    requires var s := Run(INITIAL, events, setup).worker; first in s.watched && second in s.watched
    ensures var s := Run(INITIAL, events, setup).worker;
      !Visits(ScanVisits(s, first, firstTree), path) || !Visits(ScanVisits(s, second, secondTree), path)
  {
    assert SystemInv(INITIAL, setup);
    RunKeepsSystem(INITIAL, events, setup);
    var s := Run(INITIAL, events, setup).worker;
    WalksDisjoint(first, second, s.watched.Keys, firstTree, secondTree,
                  OptionsOf(s, first).recursive, OptionsOf(s, second).recursive, path);
  }

  // ----- The folder list of the main thread -----

  /** What a call says about a path: its options, or that it is removed; None if it says nothing. */
  function Says(e: Event, path: string): Option<Option<Options>> {
    match e
    case SetCall(text, options) => if CleanPath(text) == path && IsAbsolute(path) then Some(Some(options)) else None
    case RemoveCall(text) => if CleanPath(text) == path then Some(None) else None
    case _ => None
  }

  /** What the last call about a path said. */
  function LastSaid(events: seq<Event>, path: string): Option<Options> {
    if |events| == 0 then None
    else
      var last := Says(events[|events| - 1], path);
      if last.Some? then last.value else LastSaid(events[..|events| - 1], path)
  }

  lemma {:induction false} RunSnoc(s: System, events: seq<Event>, e: Event, setup: Setup)
    ensures Run(s, events + [e], setup) == Step(Run(s, events, setup), e, setup)
    decreases |events|
  {
    if |events| == 0 {
      assert events + [e] == [e];
      assert Run(Step(s, e, setup), [e][1..], setup) == Step(s, e, setup);
    } else {
      assert (events + [e])[1..] == events[1..] + [e];
      RunSnoc(Step(s, events[0], setup), events[1..], e, setup);
    }
  }

  function Listed(folders: map<string, Options>, path: string): Option<Options> {
    if path in folders then Some(folders[path]) else None
  }

  lemma StepLists(s: System, e: Event, setup: Setup, path: string)
    ensures Listed(Step(s, e, setup).folders, path)
            == if Says(e, path).Some? then Says(e, path).value else Listed(s.folders, path)
  {
  }

  /**
    After every run the list holds a folder, with these options, exactly when the last call about it
    that was not refused set it to them.
  */
  lemma {:induction false} ListIsLastSaid(events: seq<Event>, setup: Setup, path: string)
    ensures Listed(Run(INITIAL, events, setup).folders, path) == LastSaid(events, path)
    decreases |events|
  {
    if |events| > 0 {
      var front, last := events[..|events| - 1], events[|events| - 1];
      assert events == front + [last];
      ListIsLastSaid(front, setup, path);
      RunSnoc(INITIAL, front, last, setup);
      StepLists(Run(INITIAL, front, setup), last, setup, path);
    }
  }

  predicate AreDeliveries(events: seq<Event>) {
    forall k :: 0 <= k < |events| ==> events[k] == Deliver
  }

  /** As many deliveries as calls are waiting bring the worker's list up to date. */
  lemma {:induction false} QueueDrains(s: System, events: seq<Event>, setup: Setup)
    requires SystemInv(s, setup) && AreDeliveries(events) && |events| == |s.queue|
    ensures
      var t := Run(s, events, setup);
      t.queue == [] && t.folders == s.folders && t.worker.watched == s.folders
    decreases |events|
  {
    if |events| > 0 {
      StepKeepsSystem(s, Deliver, setup);
      QueueDrains(Step(s, Deliver, setup), events[1..], setup);
    }
  }

  // ----- What one poll handles -----

  function PollVisits(s: State, order: seq<string>, trees: string -> Folder): seq<Visit> {
    if |order| == 0 then []
    else
      var last := order[|order| - 1];
      PollVisits(s, order[..|order| - 1], trees) + ScanVisits(s, last, trees(last))
  }

  lemma {:induction false} PollVisitOf(s: State, order: seq<string>, trees: string -> Folder, k: nat) returns (folder: string)
    requires k < |PollVisits(s, order, trees)|
    ensures folder in order && Visits(ScanVisits(s, folder, trees(folder)), PollVisits(s, order, trees)[k].path)
    decreases |order|
  {
    var n := |order| - 1;
    var before, after := PollVisits(s, order[..n], trees), ScanVisits(s, order[n], trees(order[n]));
    if k < |before| {
      folder := PollVisitOf(s, order[..n], trees, k);
    } else {
      folder := order[n];
      assert after[k - |before|] == PollVisits(s, order, trees)[k];
    }
  }

  ghost predicate CanPoll(s: State, order: seq<string>, trees: string -> Folder) {
    && Distinct(order) && AreCleanAbsolute(s.watched)
    && forall path :: path in order ==> path in s.watched && WellFormed(trees(path))
  }

  lemma ScansDiffer(s: State, first: string, second: string, trees: string -> Folder, path: string)
    requires AreCleanAbsolute(s.watched) && first in s.watched && second in s.watched && first != second
    requires WellFormed(trees(first)) && WellFormed(trees(second))
    ensures !Visits(ScanVisits(s, first, trees(first)), path) || !Visits(ScanVisits(s, second, trees(second)), path)
  {
    WalksDisjoint(first, second, s.watched.Keys, trees(first), trees(second),
                  OptionsOf(s, first).recursive, OptionsOf(s, second).recursive, path);
  }

  lemma EarlierScanDiffers(s: State, order: seq<string>, last: string, trees: string -> Folder, i: nat, j: nat)
    requires CanPoll(s, order, trees) && last in s.watched && last !in order && WellFormed(trees(last))
    requires i < |PollVisits(s, order, trees)| && j < |ScanVisits(s, last, trees(last))|
    ensures PollVisits(s, order, trees)[i].path != ScanVisits(s, last, trees(last))[j].path
  {
    var path := ScanVisits(s, last, trees(last))[j].path;
    assert Visits(ScanVisits(s, last, trees(last)), path);
    var other := PollVisitOf(s, order, trees, i);
    ScansDiffer(s, other, last, trees, path);
  }

  predicate AllDiffer(visits: seq<Visit>) {
    forall i, j :: 0 <= i < j < |visits| ==> visits[i].path != visits[j].path
  }

  lemma ConcatDiffer(a: seq<Visit>, b: seq<Visit>)
    requires AllDiffer(a) && AllDiffer(b)
    requires forall i, j :: 0 <= i < |a| && 0 <= j < |b| ==> a[i].path != b[j].path
    ensures AllDiffer(a + b)
  {
  }

  lemma ScanDiffers(s: State, folder: string, tree: Folder)
    requires folder != "" && WellFormed(tree)
    ensures AllDiffer(ScanVisits(s, folder, tree))
  {
    var visits := ScanVisits(s, folder, tree);
    forall i, j | 0 <= i < j < |visits| ensures visits[i].path != visits[j].path {
      WalkOnce(tree, folder, s.watched.Keys, OptionsOf(s, folder).recursive, i, j);
    }
  }

  lemma {:induction false} PollVisitsDiffer(s: State, order: seq<string>, trees: string -> Folder)
    requires CanPoll(s, order, trees)
    ensures AllDiffer(PollVisits(s, order, trees))
    decreases |order|
  {
    if |order| > 0 {
      var front, last := order[..|order| - 1], order[|order| - 1];
      var before, after := PollVisits(s, front, trees), ScanVisits(s, last, trees(last));
      assert CanPoll(s, front, trees) && last in s.watched && last !in front;
      PollVisitsDiffer(s, front, trees);
      ScanDiffers(s, last, trees(last));
      forall i, j | 0 <= i < |before| && 0 <= j < |after| ensures before[i].path != after[j].path {
        EarlierScanDiffers(s, front, last, trees, i, j);
      }
      ConcatDiffer(before, after);
    }
  }

  /** In every reachable state, one poll handles no directory twice, whatever the order of its folders. */
  lemma PollHandlesOnce(events: seq<Event>, setup: Setup, order: seq<string>, trees: string -> Folder)
    requires IsOrder(order, Run(INITIAL, events, setup).worker.polled) && forall path :: path in order ==> WellFormed(trees(path))
    ensures AllDiffer(PollVisits(Run(INITIAL, events, setup).worker, order, trees))
  {
    assert SystemInv(INITIAL, setup);
    RunKeepsSystem(INITIAL, events, setup);
    PollVisitsDiffer(Run(INITIAL, events, setup).worker, order, trees);
  }
}
