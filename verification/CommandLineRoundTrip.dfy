/** When parsing a serialized command line gives the command line back. */
module CommandLineRoundTrip {
  import opened Strings
  import opened Paths
  import opened CommandLine

  predicate HasNoPipe(s: string) {
    PARAMS_SEPARATOR !in s
  }

  /** A part that is taken for a source and comes through trimming. */
  predicate IsSourceText(s: string) {
    HasNoPipe(s) && Trim(s) == s && KeyOf(ParseParam(s).0) == Source
  }

  predicate AreSourceTexts(sources: seq<string>) {
    forall k :: 0 <= k < |sources| ==> IsSourceText(sources[k])
  }

  // ----- Trimming -----

  lemma {:induction false} TrimRightFacts(s: string)
    ensures TrimRight(s) <= s
    ensures TrimRight(s) == s <==> s == "" || !IsSpace(s[|s| - 1])
    ensures TrimRight(s) == "" || !IsSpace(TrimRight(s)[|TrimRight(s)| - 1])
  {
    if s != "" && IsSpace(s[|s| - 1]) {
      TrimRightFacts(s[..|s| - 1]);
    }
  }

  lemma {:induction false} TrimLeftPart(s: string)
    ensures exists k :: 0 <= k <= |s| && TrimLeft(s) == s[k..]
    ensures TrimLeft(s) == "" || !IsSpace(TrimLeft(s)[0])
  {
    if s != "" && IsSpace(s[0]) {
      TrimLeftPart(s[1..]);
      var k :| 0 <= k <= |s[1..]| && TrimLeft(s[1..]) == s[1..][k..];
      assert s[1..][k..] == s[k + 1..];
    } else {
      assert s == s[0..];
    }
  }

  /** Text that neither begins nor ends with white space is what trimming gives. */
  lemma TrimFacts(s: string)
    ensures Trim(Trim(s)) == Trim(s)
    ensures HasNoPipe(s) ==> HasNoPipe(Trim(s))
    ensures TrimRight(Trim(s)) == Trim(s)
  {
    TrimLeftPart(s);
    var left := TrimLeft(s);
    TrimRightFacts(left);
    var t := TrimRight(left);
    TrimRightFacts(t);
    assert t == left[..|t|];
    if t != "" {
      assert t[0] == left[0];
    }
  }

  /** Behind text that ends with something else, only the white space of the end goes. */
  lemma {:induction false} TrimRightAfter(front: string, s: string)
    requires front != "" && !IsSpace(front[|front| - 1])
    ensures TrimRight(front + s) == front + TrimRight(s)
  {
    if s == "" {
      assert front + s == front;
    } else if IsSpace(s[|s| - 1]) {
      assert (front + s)[..|front + s| - 1] == front + s[..|s| - 1];
      TrimRightAfter(front, s[..|s| - 1]);
    }
  }

  // ----- Options -----

  lemma {:induction false} IndexOfBound(name: string, value: string)
    requires '=' !in name
    ensures IndexOf(name + "=" + value, '=') == |name|
  {
    if name != "" {
      assert (name + "=" + value)[1..] == name[1..] + "=" + value;
      IndexOfBound(name[1..], value);
    }
  }

  lemma {:induction false} IndexOfNone(name: string)
    requires '=' !in name
    ensures IndexOf(name, '=') == -1
  {
    if name != "" {
      IndexOfNone(name[1..]);
    }
  }

  lemma ParseBound(name: string, value: string)
    requires '=' !in name
    ensures ParseParam(BindParamValue(name, value)) == (name, value)
  {
    IndexOfBound(name, value);
    var text := name + "=" + value;
    assert text[..|name|] == name && text[|name| + 1..] == value;
  }

  predicate IsOptionName(name: string) {
    '=' !in name && name != "" && !IsSpace(name[0]) && !IsSpace(name[|name| - 1])
  }

  /** A bound value loses trailing white space only. */
  lemma TrimBound(name: string, value: string)
    requires IsOptionName(name)
    ensures ParseParam(Trim(BindParamValue(name, value))) == (name, TrimRight(value))
  {
    var front := name + "=";
    assert BindParamValue(name, value) == front + value;
    TrimRightAfter(front, value);
    assert Trim(BindParamValue(name, value)) == BindParamValue(name, TrimRight(value));
    ParseBound(name, TrimRight(value));
  }

  lemma TrimName(name: string)
    requires IsOptionName(name)
    ensures ParseParam(Trim(name)) == (name, "")
  {
    TrimRightFacts(name);
    IndexOfNone(name);
  }

  lemma Keys()
    ensures KeyOf(PARAM_SAVEPATH) == SavePath && KeyOf(PARAM_ADDSTOPPED) == AddStopped
    ensures KeyOf(PARAM_SKIPCHECKING) == SkipChecking && KeyOf(PARAM_CATEGORY) == Category
    ensures KeyOf(PARAM_SEQUENTIAL) == Sequential && KeyOf(PARAM_FIRSTLASTPIECEPRIORITY) == FirstLastPiecePriority
    ensures KeyOf(PARAM_SKIPDIALOG) == SkipDialog
  {
  }

  lemma AbsorbOne(p: Params, part: string)
    ensures AbsorbAll(p, [part]) == Absorb(p, part)
  {
  }

  lemma AbsorbSavePath(p: Params, value: string)
    ensures Absorb(p, BindParamValue(PARAM_SAVEPATH, value)) == p.(savePath := CleanPath(TrimRight(value)))
  {
    TrimBound(PARAM_SAVEPATH, value);
    Keys();
  }

  lemma AbsorbCategory(p: Params, value: string)
    ensures Absorb(p, BindParamValue(PARAM_CATEGORY, value)) == p.(category := TrimRight(value))
  {
    TrimBound(PARAM_CATEGORY, value);
    Keys();
  }

  lemma SwitchValue(on: bool)
    ensures ToInt(TrimRight(SwitchText(on))) != 0 <==> on
  {
    var s := SwitchText(on);
    assert DigitsValue("") == 0;
    assert s[..0] == "";
    assert DigitsValue(s) == DigitsValue(s[..0]) * 10 + (s[0] as int - '0' as int);
  }

  lemma AbsorbAddStopped(p: Params, on: bool)
    ensures Absorb(p, BindParamValue(PARAM_ADDSTOPPED, SwitchText(on))) == p.(addStopped := Some(on))
  {
    TrimBound(PARAM_ADDSTOPPED, SwitchText(on));
    SwitchValue(on);
    Keys();
  }

  lemma AbsorbSkipDialog(p: Params, on: bool)
    ensures Absorb(p, BindParamValue(PARAM_SKIPDIALOG, SwitchText(on))) == p.(skipDialog := Some(on))
  {
    TrimBound(PARAM_SKIPDIALOG, SwitchText(on));
    SwitchValue(on);
    Keys();
  }

  lemma AbsorbSwitch(p: Params, name: string, key: Key)
    requires IsOptionName(name) && KeyOf(name) == key
    ensures AbsorbAll(p, [name]) == Set(p, key, "", Trim(name))
  {
    TrimName(name);
    AbsorbOne(p, name);
  }

  lemma {:induction false} AbsorbConcat(p: Params, a: seq<string>, b: seq<string>)
    ensures AbsorbAll(p, a + b) == AbsorbAll(AbsorbAll(p, a), b)
    decreases |a|
  {
    if |a| == 0 {
      assert a + b == b;
    } else {
      assert (a + b)[1..] == a[1..] + b;
      AbsorbConcat(Absorb(p, a[0]), a[1..], b);
    }
  }

  /** The path and the category as they arrive. */
  function ArrivedPath(savePath: string): string {
    if savePath == "" then "" else CleanPath(TrimRight(savePath))
  }

  /** The options written for a command line, read from the defaults, set exactly its fields. */
  lemma AbsorbOptions(p: Params)
    ensures AbsorbAll(DEFAULT, Options(p))
            == p.(savePath := ArrivedPath(p.savePath), category := TrimRight(p.category), torrentSources := [])
  {
    var d1 := DEFAULT.(savePath := ArrivedPath(p.savePath));
    var d2 := d1.(addStopped := p.addStopped);
    var d3 := d2.(skipChecking := p.skipChecking);
    var d4 := d3.(category := TrimRight(p.category));
    var d5 := d4.(sequential := p.sequential);
    var d6 := d5.(firstLastPiecePriority := p.firstLastPiecePriority);
    var o1 := SavePathPart(p);
    var o2 := o1 + Flag(PARAM_ADDSTOPPED, p.addStopped);
    var o3 := o2 + Optional(p.skipChecking, PARAM_SKIPCHECKING);
    var o4 := o3 + CategoryPart(p);
    var o5 := o4 + Optional(p.sequential, PARAM_SEQUENTIAL);
    var o6 := o5 + Optional(p.firstLastPiecePriority, PARAM_FIRSTLASTPIECEPRIORITY);
    SavePathArrives(p);
    AbsorbConcat(DEFAULT, o1, Flag(PARAM_ADDSTOPPED, p.addStopped));
    AddStoppedArrives(d1, p.addStopped);
    AbsorbConcat(DEFAULT, o2, Optional(p.skipChecking, PARAM_SKIPCHECKING));
    SkipCheckingArrives(d2, p.skipChecking);
    AbsorbConcat(DEFAULT, o3, CategoryPart(p));
    CategoryArrives(d3, p);
    AbsorbConcat(DEFAULT, o4, Optional(p.sequential, PARAM_SEQUENTIAL));
    SequentialArrives(d4, p.sequential);
    AbsorbConcat(DEFAULT, o5, Optional(p.firstLastPiecePriority, PARAM_FIRSTLASTPIECEPRIORITY));
    FirstLastArrives(d5, p.firstLastPiecePriority);
    AbsorbConcat(DEFAULT, o6, Flag(PARAM_SKIPDIALOG, p.skipDialog));
    SkipDialogArrives(d6, p.skipDialog);
  }

  lemma SavePathArrives(p: Params)
    ensures AbsorbAll(DEFAULT, SavePathPart(p)) == DEFAULT.(savePath := ArrivedPath(p.savePath))
  {
    if p.savePath != "" {
      AbsorbOne(DEFAULT, BindParamValue(PARAM_SAVEPATH, p.savePath));
      AbsorbSavePath(DEFAULT, p.savePath);
    }
  }

  lemma CategoryArrives(from: Params, p: Params)
    requires from.category == ""
    ensures AbsorbAll(from, CategoryPart(p)) == from.(category := TrimRight(p.category))
  {
    if p.category != "" {
      AbsorbOne(from, BindParamValue(PARAM_CATEGORY, p.category));
      AbsorbCategory(from, p.category);
    }
  }

  lemma AddStoppedArrives(from: Params, value: Option<bool>)
    requires from.addStopped == None
    ensures AbsorbAll(from, Flag(PARAM_ADDSTOPPED, value)) == from.(addStopped := value)
  {
    if value.Some? {
      AbsorbOne(from, BindParamValue(PARAM_ADDSTOPPED, SwitchText(value.value)));
      AbsorbAddStopped(from, value.value);
    }
  }

  lemma SkipDialogArrives(from: Params, value: Option<bool>)
    requires from.skipDialog == None
    ensures AbsorbAll(from, Flag(PARAM_SKIPDIALOG, value)) == from.(skipDialog := value)
  {
    if value.Some? {
      AbsorbOne(from, BindParamValue(PARAM_SKIPDIALOG, SwitchText(value.value)));
      AbsorbSkipDialog(from, value.value);
    }
  }

  lemma SkipCheckingArrives(from: Params, on: bool)
    requires !from.skipChecking
    ensures AbsorbAll(from, Optional(on, PARAM_SKIPCHECKING)) == from.(skipChecking := on)
  {
    Keys();
    AbsorbSwitch(from, PARAM_SKIPCHECKING, SkipChecking);
  }

  lemma SequentialArrives(from: Params, on: bool)
    requires !from.sequential
    ensures AbsorbAll(from, Optional(on, PARAM_SEQUENTIAL)) == from.(sequential := on)
  {
    Keys();
    AbsorbSwitch(from, PARAM_SEQUENTIAL, Sequential);
  }

  lemma FirstLastArrives(from: Params, on: bool)
    requires !from.firstLastPiecePriority
    ensures AbsorbAll(from, Optional(on, PARAM_FIRSTLASTPIECEPRIORITY)) == from.(firstLastPiecePriority := on)
  {
    Keys();
    AbsorbSwitch(from, PARAM_FIRSTLASTPIECEPRIORITY, FirstLastPiecePriority);
  }

  lemma {:induction false} AbsorbSources(p: Params, sources: seq<string>)
    requires AreSourceTexts(sources)
    ensures AbsorbAll(p, sources) == p.(torrentSources := p.torrentSources + sources)
    decreases |sources|
  {
    if |sources| == 0 {
      assert p.torrentSources + sources == p.torrentSources;
    } else {
      assert IsSourceText(sources[0]);
      AbsorbSources(Absorb(p, sources[0]), sources[1..]);
      assert p.torrentSources + [sources[0]] + sources[1..] == p.torrentSources + sources;
    }
  }

  // ----- Splitting the text again -----

  lemma {:induction false} NonEmptyConcat(a: seq<string>, b: seq<string>)
    ensures NonEmpty(a + b) == NonEmpty(a) + NonEmpty(b)
  {
    if |a| == 0 {
      assert a + b == b;
    } else {
      assert (a + b)[1..] == a[1..] + b;
      NonEmptyConcat(a[1..], b);
    }
  }

  lemma {:induction false} NonEmptyFacts(parts: seq<string>)
    ensures |NonEmpty(parts)| <= |parts|
    ensures forall s :: s in NonEmpty(parts) ==> s in parts
    ensures NonEmpty(parts) == parts <==> "" !in parts
  {
    if |parts| > 0 {
      NonEmptyFacts(parts[1..]);
      assert parts == [parts[0]] + parts[1..];
    }
  }

  ghost predicate NoPipes(parts: seq<string>) {
    forall k :: 0 <= k < |parts| ==> HasNoPipe(parts[k])
  }

  lemma BoundHasNoPipe(name: string, value: string)
    requires HasNoPipe(name) && HasNoPipe(value)
    ensures HasNoPipe(BindParamValue(name, value)) && BindParamValue(name, value) != ""
  {
  }

  /** Parts that survive splitting. */
  ghost predicate AreWhole(parts: seq<string>) {
    forall k :: 0 <= k < |parts| ==> HasNoPipe(parts[k]) && parts[k] != ""
  }

  lemma WholeConcat(a: seq<string>, b: seq<string>)
    requires AreWhole(a) && AreWhole(b)
    ensures AreWhole(a + b)
  {
  }

  lemma WholeFlag(name: string, value: Option<bool>)
    requires HasNoPipe(name)
    ensures AreWhole(Flag(name, value))
  {
  }

  lemma OptionsFacts(p: Params)
    requires HasNoPipe(p.savePath) && HasNoPipe(p.category)
    ensures AreWhole(Options(p))
  {
    BoundHasNoPipe(PARAM_SAVEPATH, p.savePath);
    BoundHasNoPipe(PARAM_CATEGORY, p.category);
    WholeFlag(PARAM_ADDSTOPPED, p.addStopped);
    WholeFlag(PARAM_SKIPDIALOG, p.skipDialog);
    var o2 := SavePathPart(p) + Flag(PARAM_ADDSTOPPED, p.addStopped);
    var o3 := o2 + Optional(p.skipChecking, PARAM_SKIPCHECKING);
    var o4 := o3 + CategoryPart(p);
    var o5 := o4 + Optional(p.sequential, PARAM_SEQUENTIAL);
    var o6 := o5 + Optional(p.firstLastPiecePriority, PARAM_FIRSTLASTPIECEPRIORITY);
    WholeConcat(SavePathPart(p), Flag(PARAM_ADDSTOPPED, p.addStopped));
    WholeConcat(o2, Optional(p.skipChecking, PARAM_SKIPCHECKING));
    WholeConcat(o3, CategoryPart(p));
    WholeConcat(o4, Optional(p.sequential, PARAM_SEQUENTIAL));
    WholeConcat(o5, Optional(p.firstLastPiecePriority, PARAM_FIRSTLASTPIECEPRIORITY));
    WholeConcat(o6, Flag(PARAM_SKIPDIALOG, p.skipDialog));
  }

  /** What arrives, for all texts without the separator: trimmed fields, and the sources that are not empty. */
  lemma Arrives(p: Params)
    requires HasNoPipe(p.savePath) && HasNoPipe(p.category) && AreSourceTexts(p.torrentSources)
    ensures Parse(Serialize(p)) == p.(savePath := ArrivedPath(p.savePath), category := TrimRight(p.category),
                                      torrentSources := NonEmpty(p.torrentSources))
  {
    SplitAgain(p);
    AbsorbConcat(DEFAULT, Options(p), NonEmpty(p.torrentSources));
    AbsorbOptions(p);
    var options := p.(savePath := ArrivedPath(p.savePath), category := TrimRight(p.category), torrentSources := []);
    AreSourceTextsNonEmpty(p.torrentSources);
    AbsorbSources(options, NonEmpty(p.torrentSources));
    assert [] + NonEmpty(p.torrentSources) == NonEmpty(p.torrentSources);
  }

  lemma SplitAgain(p: Params)
    requires HasNoPipe(p.savePath) && HasNoPipe(p.category) && NoPipes(p.torrentSources)
    ensures NonEmpty(Split(Serialize(p), PARAMS_SEPARATOR)) == Options(p) + NonEmpty(p.torrentSources)
  {
    var parts := Options(p) + p.torrentSources;
    OptionsFacts(p);
    NonEmptyFacts(Options(p));
    NonEmptyConcat(Options(p), p.torrentSources);
    if |parts| == 0 {
      SplitWithout("", PARAMS_SEPARATOR);
      assert NonEmpty([""]) == NonEmpty([""][1..]);
    } else {
      SplitJoin(parts, PARAMS_SEPARATOR);
    }
  }

  lemma {:induction false} AreSourceTextsNonEmpty(sources: seq<string>)
    requires AreSourceTexts(sources)
    ensures AreSourceTexts(NonEmpty(sources))
  {
    if |sources| > 0 {
      AreSourceTextsNonEmpty(sources[1..]);
    }
  }

  // ----- What any text can be parsed to -----

  predicate IsParsed(p: Params) {
    HasNoPipe(p.savePath) && HasNoPipe(p.category) && TrimRight(p.category) == p.category && AreSourceTexts(p.torrentSources)
  }

  lemma ParseParamParts(param: string)
    ensures ParseParam(param).1 == "" || exists k :: 0 <= k <= |param| && ParseParam(param).1 == param[k..]
    ensures HasNoPipe(param) ==> HasNoPipe(ParseParam(param).1)
    ensures TrimRight(param) == param ==> TrimRight(ParseParam(param).1) == ParseParam(param).1
  {
    var value := ParseParam(param).1;
    TrimRightFacts(param);
    TrimRightFacts(value);
  }

  lemma {:induction false} FollowHasNoPipe(l: Location, parts: seq<string>)
    requires NoPipes(parts) && NoPipes(l.names)
    ensures NoPipes(l.Follow(parts).names)
    decreases |parts|
  {
    if |parts| > 0 {
      FollowHasNoPipe(l.Step(parts[0]), parts[1..]);
    }
  }

  lemma CleanHasNoPipe(path: string)
    requires HasNoPipe(path)
    ensures HasNoPipe(CleanPath(path))
  {
    var l := Locate(path);
    forall k | 0 <= k < |Split(path, SEPARATOR)|
      ensures HasNoPipe(Split(path, SEPARATOR)[k])
    {
      JoinHas(Split(path, SEPARATOR), SEPARATOR, PARAMS_SEPARATOR);
    }
    FollowHasNoPipe(START, Split(path, SEPARATOR));
    ClimbAt(l.ups, l.names);
    JoinHas(l.Parts(), SEPARATOR, PARAMS_SEPARATOR);
  }

  lemma AbsorbParsed(p: Params, part: string)
    requires IsParsed(p) && HasNoPipe(part)
    ensures IsParsed(Absorb(p, part))
  {
    var param := Trim(part);
    TrimFacts(part);
    ParseParamParts(param);
    CleanHasNoPipe(ParseParam(param).1);
    SetParsed(p, KeyOf(ParseParam(param).0), ParseParam(param).1, param);
  }

  lemma SetParsed(p: Params, key: Key, value: string, param: string)
    requires IsParsed(p) && HasNoPipe(value) && HasNoPipe(CleanPath(value)) && TrimRight(value) == value
    requires key == Source ==> IsSourceText(param)
    ensures IsParsed(Set(p, key, value, param))
  {
  }

  lemma {:induction false} AbsorbAllParsed(p: Params, parts: seq<string>)
    requires IsParsed(p) && NoPipes(parts)
    ensures IsParsed(AbsorbAll(p, parts))
    decreases |parts|
  {
    if |parts| > 0 {
      AbsorbParsed(p, parts[0]);
      AbsorbAllParsed(Absorb(p, parts[0]), parts[1..]);
    }
  }

  lemma ParseParsed(text: string)
    ensures IsParsed(Parse(text))
  {
    SplitParts(text, PARAMS_SEPARATOR);
    NonEmptyFacts(Split(text, PARAMS_SEPARATOR));
    assert NoPipes(NonEmpty(Split(text, PARAMS_SEPARATOR))) by {
      forall k | 0 <= k < |NonEmpty(Split(text, PARAMS_SEPARATOR))|
        ensures NonEmpty(Split(text, PARAMS_SEPARATOR))[k] in Split(text, PARAMS_SEPARATOR)
      {
        assert NonEmpty(Split(text, PARAMS_SEPARATOR))[k] in NonEmpty(Split(text, PARAMS_SEPARATOR));
      }
    }
    AbsorbAllParsed(DEFAULT, NonEmpty(Split(text, PARAMS_SEPARATOR)));
  }

  // ----- Cleaning never makes a path longer -----

  lemma {:induction false} FollowLength(l: Location, parts: seq<string>)
    ensures PartsSize(l.Follow(parts)) <= PartsSize(l) + TextSize(parts)
    decreases |parts|
  {
    if |parts| > 0 {
      StepLength(l, parts[0]);
      FollowLength(l.Step(parts[0]), parts[1..]);
    }
  }

  /** The size of the parts, each with one separator. */
  function TextSize(parts: seq<string>): nat {
    if |parts| == 0 then 0 else |parts[0]| + 1 + TextSize(parts[1..])
  }

  function PartsSize(l: Location): nat {
    3 * l.ups + TextSize(l.names)
  }

  lemma {:induction false} TextSizeConcat(a: seq<string>, b: seq<string>)
    ensures TextSize(a + b) == TextSize(a) + TextSize(b)
  {
    if |a| == 0 {
      assert a + b == b;
    } else {
      assert (a + b)[1..] == a[1..] + b;
      TextSizeConcat(a[1..], b);
    }
  }

  lemma StepLength(l: Location, part: string)
    ensures PartsSize(l.Step(part)) <= PartsSize(l) + |part| + 1
  {
    if part == ".." && |l.names| > 0 {
      TextSizeConcat(l.names[..|l.names| - 1], l.names[|l.names| - 1..]);
      assert l.names == l.names[..|l.names| - 1] + l.names[|l.names| - 1..];
    } else {
      TextSizeConcat(l.names, [part]);
      assert TextSize([part]) == |part| + 1 + TextSize([]);
    }
  }

  lemma {:induction false} JoinSize(parts: seq<string>)
    requires |parts| > 0
    ensures |Join(parts, SEPARATOR)| + 1 == TextSize(parts)
  {
    if |parts| > 1 {
      JoinSize(parts[1..]);
    } else {
      assert TextSize(parts) == |parts[0]| + 1 + TextSize(parts[1..]);
    }
  }

  lemma {:induction false} ClimbSize(n: nat, parts: seq<string>)
    ensures TextSize(Climb(n, parts)) == 3 * n + TextSize(parts)
  {
    if n > 0 {
      ClimbSize(n - 1, parts);
      assert Climb(n, parts)[1..] == Climb(n - 1, parts);
    }
  }

  lemma CleanNotLonger(path: string)
    ensures |CleanPath(path)| <= |path|
  {
    if path != "" {
      var parts, l := Split(path, SEPARATOR), Locate(path);
      FollowLength(START, parts);
      JoinSize(parts);
      ClimbSize(l.ups, l.names);
      if |l.Parts()| > 0 {
        JoinSize(l.Parts());
        if IsAbsolute(path) {
          assert parts == [""] + parts[1..];
          assert START.Follow(parts) == START.Step("").Follow(parts[1..]);
          FollowLength(START, parts[1..]);
          TextSizeConcat([""], parts[1..]);
        }
      }
    }
  }

  /** A save path arrives unchanged exactly when it does not end with white space. */
  lemma SavePathKept(savePath: string)
    requires IsClean(savePath)
    ensures ArrivedPath(savePath) == savePath <==> TrimRight(savePath) == savePath
  {
    TrimRightFacts(savePath);
    CleanNotLonger(TrimRight(savePath));
  }

  /**
    The exact round trip. For every command line whose save path is clean, as every Path is, what is
    parsed from the text is what was serialized if and only if no text contains the separator, the
    save path and the category have no white space at the end, and every source is non-empty,
    trimmed and not named like an option. A '=' may occur anywhere.
  */
  lemma RoundTrip(p: Params)
    requires IsClean(p.savePath)
    ensures Parse(Serialize(p)) == p <==>
      && HasNoPipe(p.savePath) && TrimRight(p.savePath) == p.savePath
      && HasNoPipe(p.category) && TrimRight(p.category) == p.category
      && AreSourceTexts(p.torrentSources) && "" !in p.torrentSources
  {
    ParseParsed(Serialize(p));
    if HasNoPipe(p.savePath) && HasNoPipe(p.category) && AreSourceTexts(p.torrentSources) {
      Arrives(p);
      SavePathKept(p.savePath);
      NonEmptyFacts(p.torrentSources);
    }
  }

  // ----- Texts that did not come from serializing -----

  lemma {:induction false} DigitsOfDecimal(n: nat)
    ensures IsDigits(Decimal(n)) && DigitsValue(Decimal(n)) == n
  {
    if n < 10 {
      assert Decimal(n)[..0] == "";
    } else {
      DigitsOfDecimal(n / 10);
      assert Decimal(n)[..|Decimal(n)| - 1] == Decimal(n / 10);
    }
  }

  lemma NoSpaceNoTrim(s: string)
    requires s != "" && !IsSpace(s[0]) && !IsSpace(s[|s| - 1])
    ensures Trim(s) == s
  {
  }

  lemma DecimalReads(n: nat)
    ensures ToInt(Decimal(n)) == if n < 0x8000_0000 then n else 0
  {
    var digits := Decimal(n);
    DigitsOfDecimal(n);
    assert '0' <= digits[|digits| - 1] <= '9' && '0' <= digits[0] <= '9';
    NoSpaceNoTrim(digits);
  }

  lemma NegativeReads(n: nat)
    ensures ToInt("-" + Decimal(n)) == if n <= 0x8000_0000 then 0 - n else 0
  {
    var digits := Decimal(n);
    var text := "-" + digits;
    DigitsOfDecimal(n);
    assert '0' <= digits[|digits| - 1] <= '9' && text[|text| - 1] == digits[|digits| - 1];
    NoSpaceNoTrim(text);
    assert text[1..] == digits;
  }

  /** A switch may be given as any number: it reads as its value, or as 0 when that does not fit 32 bits. */
  lemma NumberReads(n: int)
    ensures ToInt(Number(n)) == if -0x8000_0000 <= n < 0x8000_0000 then n else 0
  {
    if n < 0 {
      NegativeReads(-n);
    } else {
      DecimalReads(n);
    }
  }

  /** One more part at the end of a text. */
  lemma ParseSnoc(text: string, part: string)
    requires HasNoPipe(part) && part != ""
    ensures Parse(text + [PARAMS_SEPARATOR] + part) == Absorb(Parse(text), part)
  {
    var parts := Split(text, PARAMS_SEPARATOR);
    SplitAtSeparator(text, part, PARAMS_SEPARATOR);
    SplitWithout(part, PARAMS_SEPARATOR);
    NonEmptyConcat(parts, [part]);
    assert NonEmpty([part]) == [part] + NonEmpty([part][1..]);
    AbsorbConcat(DEFAULT, NonEmpty(parts), [part]);
    AbsorbOne(Parse(text), part);
  }

  /** Of options that are given more than once the last one counts, and sources add up. */
  lemma LaterPartCounts(text: string, value: string, on: bool, source: string)
    requires HasNoPipe(value) && IsSourceText(source) && source != ""
    ensures
      var p, before := Parse(text), text + [PARAMS_SEPARATOR];
      && Parse(before + BindParamValue(PARAM_CATEGORY, value)) == p.(category := TrimRight(value))
      && Parse(before + BindParamValue(PARAM_SAVEPATH, value)) == p.(savePath := CleanPath(TrimRight(value)))
      && Parse(before + BindParamValue(PARAM_ADDSTOPPED, SwitchText(on))) == p.(addStopped := Some(on))
      && Parse(before + BindParamValue(PARAM_SKIPDIALOG, SwitchText(on))) == p.(skipDialog := Some(on))
      && Parse(before + source) == p.(torrentSources := p.torrentSources + [source])
  {
    LaterTexts(text, value);
    LaterSwitches(text, on);
    ParseSnoc(text, source);
  }

  lemma LaterTexts(text: string, value: string)
    requires HasNoPipe(value)
    ensures
      var p, before := Parse(text), text + [PARAMS_SEPARATOR];
      && Parse(before + BindParamValue(PARAM_CATEGORY, value)) == p.(category := TrimRight(value))
      && Parse(before + BindParamValue(PARAM_SAVEPATH, value)) == p.(savePath := CleanPath(TrimRight(value)))
  {
    BoundHasNoPipe(PARAM_CATEGORY, value);
    BoundHasNoPipe(PARAM_SAVEPATH, value);
    ParseSnoc(text, BindParamValue(PARAM_CATEGORY, value));
    ParseSnoc(text, BindParamValue(PARAM_SAVEPATH, value));
    AbsorbCategory(Parse(text), value);
    AbsorbSavePath(Parse(text), value);
  }

  lemma LaterSwitches(text: string, on: bool)
    ensures
      var p, before := Parse(text), text + [PARAMS_SEPARATOR];
      && Parse(before + BindParamValue(PARAM_ADDSTOPPED, SwitchText(on))) == p.(addStopped := Some(on))
      && Parse(before + BindParamValue(PARAM_SKIPDIALOG, SwitchText(on))) == p.(skipDialog := Some(on))
  {
    BoundHasNoPipe(PARAM_ADDSTOPPED, SwitchText(on));
    BoundHasNoPipe(PARAM_SKIPDIALOG, SwitchText(on));
    ParseSnoc(text, BindParamValue(PARAM_ADDSTOPPED, SwitchText(on)));
    ParseSnoc(text, BindParamValue(PARAM_SKIPDIALOG, SwitchText(on)));
    AbsorbAddStopped(Parse(text), on);
    AbsorbSkipDialog(Parse(text), on);
  }
}
