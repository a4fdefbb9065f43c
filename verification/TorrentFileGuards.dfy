/** The guards that delete .torrent files when they go out of scope: torrentfileguard.cpp. */
module TorrentFileGuards {
  import opened Strings

  datatype AutoDeleteMode = Never | IfAdded | Always

  /** Why a guard's last owner let it go. */
  datatype Cause =
    | LoadFailed        // the file could not be loaded
    | NotProcessed      // no dialog was opened for it
    | Replaced          // a newer guard took its place
    | AddedToSession(hash: string)  // the session reported this torrent as added
    | SessionFailed     // the session reported a failure
    | KeptByUser        // the dialog was accepted with "do not delete"
    | Rejected          // the dialog was rejected
    | Shutdown          // the manager was destroyed

  /** The value of a guard; `file` is the path it was made for, `torrent` the info hash of what the file contained, if it loaded. */
  datatype Guard = Guard(file: string, torrent: Option<string>, mode: AutoDeleteMode, remove: bool, wasAdded: bool) {
    /** In mode Never the guard holds no path. */
    function Path(): string {
      if mode.Never? then "" else file
    }

    /** What the two destructors do: the derived one may switch off the removal, the base one removes. */
    predicate RemovesFile() {
      remove && (wasAdded || mode.Always?) && Path() != ""
    }
  }

  /** The end of a guard. */
  datatype Fate = Fate(source: string, guard: Guard, cause: Cause, removed: bool)

  class Files {
    var removed: seq<string>

    constructor ()
      ensures removed == []
    {
      removed := [];
    }

    method Remove(path: string)
      modifies this
      ensures removed == old(removed) + [path]
    {
      removed := removed + [path];
    }
  }

  class TorrentFileGuard {
    const file: string
    const path: string
    const mode: AutoDeleteMode
    ghost const torrent: Option<string>
    var autoRemove: bool
    var wasAdded: bool

    ghost predicate Valid()
      reads this
    {
      path == Value().Path()
    }

    ghost function Value(): Guard
      reads this
    {
      Guard(file, torrent, mode, autoRemove, wasAdded)
    }

    constructor (file: string, mode: AutoDeleteMode, ghost torrent: Option<string>)
      ensures Valid() && Value() == Guard(file, torrent, mode, true, false)
    {
      this.torrent := torrent;
      this.file, this.path, this.mode := file, if mode != Never then file else "", mode;
      autoRemove, wasAdded := true, false;
    }

    method MarkAsAddedToSession()
      requires Valid()
      modifies this
      ensures Valid() && Value() == old(Value()).(wasAdded := true)
    {
      wasAdded := true;
    }

    method SetAutoRemove(remove: bool)
      requires Valid()
      modifies this
      ensures Valid() && Value() == old(Value()).(remove := remove)
    {
      autoRemove := remove;
    }

    /** ~TorrentFileGuard, then ~FileGuard. */
    method Destroy(files: Files)
      requires Valid()
      modifies this, files
      ensures files.removed == old(files.removed) + if old(Value().RemovesFile()) then [file] else []
    {
      if !wasAdded && mode != Always {
        SetAutoRemove(false);
      }
      if autoRemove && path != "" {
        files.Remove(path);
      }
    }
  }
}
