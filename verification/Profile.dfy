/** The portable-path converter of profile_p.cpp: paths stored relative to the profile directory. */
module Profile {
  import opened Strings
  import opened Paths

  /** The places are only looked at by relativePathOf when the base is relative. */
  datatype Converter = Converter(basePath: string, places: Places) {

    function ToPortablePath(path: string): string {
      if path == "" then path else RelativePathOf(basePath, path, places)
    }

    function FromPortablePath(portablePath: string): string {
      if portablePath == "" || IsAbsolute(portablePath) then portablePath
      else Append(basePath, portablePath)
    }
  }

  predicate IsCleanAbsolute(path: string) {
    IsAbsolute(path) && IsClean(path)
  }

  /** The portable form is the way from the base to the path. */
  lemma PortableIsWay(c: Converter, path: string)
    requires IsCleanAbsolute(c.basePath) && IsCleanAbsolute(path)
    ensures Way(Locate(c.basePath), Locate(path)).Valid()
    ensures c.ToPortablePath(path) == Render(false, Way(Locate(c.basePath), Locate(path)))
  {
    RelativePathIsWay(c.basePath, path, c.places);
  }

  /** Reading a portable form back goes that way from the base. */
  lemma FromPortableFollows(c: Converter, way: Location)
    requires IsCleanAbsolute(c.basePath) && way.Valid()
    ensures c.FromPortablePath(Render(false, way)) == Render(true, Locate(c.basePath).Follow(way.Parts()))
  {
    FollowRendered(Locate(c.basePath), false, way);
    AppendFollows(c.basePath, Render(false, way));
  }

  lemma FollowWay(from: Location, way: Location)
    requires way.Valid()
    ensures from.Follow(way.Parts()) == Location(from.Up(way.ups).ups, from.Up(way.ups).names + way.names)
  {
    FollowClimb(from, way.ups, way.names);
    FollowNames(from.Up(way.ups), way.names);
  }

  lemma SplitAt(a: seq<string>, b: seq<string>, n: nat)
    requires n <= |a| && n <= |b| && forall k :: 0 <= k < n ==> a[k] == b[k]
    ensures a[..n] + b[n..] == b
  {
  }

  /** The way leads to its goal exactly when the start has no more uncancelled ".." than the goal. */
  lemma WayLeads(from: Location, to: Location)
    requires from.Valid() && to.Valid()
    ensures from.Follow(Way(from, to).Parts()).Valid()
    ensures from.Follow(Way(from, to).Parts()) == to <==> from.ups <= to.ups
  {
    FollowWay(from, Way(from, to));
    if from.ups == to.ups {
      CommonCountFirst(from.names, to.names);
      SplitAt(from.names, to.names, CommonCount(from.names, to.names));
    } else {
      assert from.Up(Way(from, to).ups).names == [];
      assert [] + to.names == to.names;
    }
  }

  /**
    A clean absolute path survives being stored and read back exactly when the base does not begin
    with more ".." that nothing cancels than the path does. A base without ".." qualifies for every
    path: equal to the base, above it, below it or on another branch.
  */
  lemma RoundTrip(c: Converter, path: string)
    requires IsCleanAbsolute(c.basePath) && IsCleanAbsolute(path)
    ensures c.FromPortablePath(c.ToPortablePath(path)) == path
            <==> Locate(c.basePath).ups <= Locate(path).ups
  {
    var from, to := Locate(c.basePath), Locate(path);
    LocateValid(c.basePath);
    LocateValid(path);
    PortableIsWay(c, path);
    FromPortableFollows(c, Way(from, to));
    WayLeads(from, to);
    LocateRendered(true, from.Follow(Way(from, to).Parts()));
    LocateRendered(true, to);
  }

  /** What the portable form is for: when the profile moves, everything below it moves along. */
  lemma Relocation(first: Converter, moved: Converter, below: seq<string>)
    requires IsCleanAbsolute(first.basePath) && IsCleanAbsolute(moved.basePath) && AreNames(below)
    ensures
      var o, m := Locate(first.basePath), Locate(moved.basePath);
      moved.FromPortablePath(first.ToPortablePath(Render(true, Location(o.ups, o.names + below))))
      == Render(true, Location(m.ups, m.names + below))
  {
    var o, m := Locate(first.basePath), Locate(moved.basePath);
    LocateValid(first.basePath);
    var path := Location(o.ups, o.names + below);
    LocateRendered(true, path);
    PortableIsWay(first, Render(true, path));
    CommonCountUnique(o.names, o.names + below, |o.names|);
    assert Way(o, path) == Location(0, below);
    assert Location(0, below).Parts() == below;
    FromPortableFollows(moved, Location(0, below));
    FollowNames(m, below);
  }

  /** The hypothesis matters: a base that begins above the root loses its own "..". */
  lemma RoundTripNeedsTheHypothesis()
    ensures var c := Converter("/..", Places("/", "/")); IsCleanAbsolute(c.basePath) && c.FromPortablePath(c.ToPortablePath("/a")) != "/a"
  {
    var c := Converter("/..", Places("/", "/"));
    LocateRendered(true, Location(1, []));
    LocateRendered(true, Location(0, ["a"]));
    assert Location(1, []).Parts() == [".."] && Location(0, ["a"]).Parts() == ["a"];
    assert Render(true, Location(1, [])) == "/.." && Render(true, Location(0, ["a"])) == "/a";
    RoundTrip(c, "/a");
  }

  /** What is stored as an absolute or an empty path is read as it is, wherever the profile lies. */
  lemma AbsoluteStays(c: Converter, path: string)
    requires path == "" || IsAbsolute(path)
    ensures c.FromPortablePath(path) == path && c.ToPortablePath("") == ""
  {
  }
}
