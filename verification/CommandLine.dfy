/**
  The text by which a second instance passes its command line to the running one:
  serializeParams and parseParams of application.cpp.
*/
module CommandLine {
  import opened Strings
  import opened Paths

  const PARAMS_SEPARATOR := '|'

  const PARAM_ADDSTOPPED := "@addStopped"
  const PARAM_CATEGORY := "@category"
  const PARAM_FIRSTLASTPIECEPRIORITY := "@firstLastPiecePriority"
  const PARAM_SAVEPATH := "@savePath"
  const PARAM_SEQUENTIAL := "@sequential"
  const PARAM_SKIPCHECKING := "@skipChecking"
  const PARAM_SKIPDIALOG := "@skipDialog"

  /** The fields of QBtCommandLineParameters that are passed on. */
  datatype Params = Params(
    savePath: string, addStopped: Option<bool>, skipChecking: bool, category: string,
    sequential: bool, firstLastPiecePriority: bool, skipDialog: Option<bool>, torrentSources: seq<string>)

  const DEFAULT := Params("", None, false, "", false, false, None, [])

  // ----- White space (QChar::isSpace, QStringView::trimmed) -----

  predicate IsSpace(c: char) {
    var n := c as int;
    9 <= n <= 13 || n == 32 || n == 0x85 || n == 0xA0 || n == 0x1680 || 0x2000 <= n <= 0x200A
    || n == 0x2028 || n == 0x2029 || n == 0x202F || n == 0x205F || n == 0x3000
  }

  function TrimLeft(s: string): string {
    if s != "" && IsSpace(s[0]) then TrimLeft(s[1..]) else s
  }

  function TrimRight(s: string): string {
    if s != "" && IsSpace(s[|s| - 1]) then TrimRight(s[..|s| - 1]) else s
  }

  function Trim(s: string): string {
    TrimRight(TrimLeft(s))
  }

  // ----- Numbers (QStringView::toInt) -----

  predicate IsDigits(s: string) {
    forall k :: 0 <= k < |s| ==> '0' <= s[k] <= '9'
  }

  function DigitsValue(s: string): nat
    requires IsDigits(s)
  {
    if s == "" then 0 else DigitsValue(s[..|s| - 1]) * 10 + (s[|s| - 1] as int - '0' as int)
  }

  /** 0 when the text is not a number or does not fit 32 bits. */
  function ToInt(s: string): int {
    var t := Trim(s);
    var negative := t != "" && t[0] == '-';
    var digits := if t != "" && t[0] in "+-" then t[1..] else t;
    if digits == "" || !IsDigits(digits) then 0
    else
      var n: int := if negative then 0 - DigitsValue(digits) else DigitsValue(digits);
      if -0x8000_0000 <= n < 0x8000_0000 then n else 0
  }

  // ----- One parameter -----

  function BindParamValue(name: string, value: string): string {
    name + "=" + value
  }

  function IndexOf(s: string, c: char): int {
    if s == "" then -1
    else if s[0] == c then 0
    else var i := IndexOf(s[1..], c); if i < 0 then -1 else i + 1
  }

  function ParseParam(param: string): (string, string) {
    var i := IndexOf(param, '=');
    if 0 <= i < |param| then (param[..i], param[i + 1..]) else (param, "")
  }

  datatype Key = SavePath | AddStopped | SkipChecking | Category | Sequential | FirstLastPiecePriority | SkipDialog | Source

  /** The option a name stands for; any other name is part of a source. */
  function KeyOf(name: string): Key {
    if name == PARAM_SAVEPATH then SavePath
    else if name == PARAM_ADDSTOPPED then AddStopped
    else if name == PARAM_SKIPCHECKING then SkipChecking
    else if name == PARAM_CATEGORY then Category
    else if name == PARAM_SEQUENTIAL then Sequential
    else if name == PARAM_FIRSTLASTPIECEPRIORITY then FirstLastPiecePriority
    else if name == PARAM_SKIPDIALOG then SkipDialog
    else Source
  }

  /** What an option does to the parameters read so far. */
  function Set(p: Params, key: Key, value: string, param: string): Params {
    match key
    case SavePath => p.(savePath := CleanPath(value))
    case AddStopped => p.(addStopped := Some(ToInt(value) != 0))
    case SkipChecking => p.(skipChecking := true)
    case Category => p.(category := value)
    case Sequential => p.(sequential := true)
    case FirstLastPiecePriority => p.(firstLastPiecePriority := true)
    case SkipDialog => p.(skipDialog := Some(ToInt(value) != 0))
    case Source => p.(torrentSources := p.torrentSources + [param])
  }

  /** What parseParams does with one part of the text. */
  function Absorb(p: Params, part: string): Params {
    var param := Trim(part);
    Set(p, KeyOf(ParseParam(param).0), ParseParam(param).1, param)
  }

  function AbsorbAll(p: Params, parts: seq<string>): Params
    decreases |parts|
  {
    if |parts| == 0 then p else AbsorbAll(Absorb(p, parts[0]), parts[1..])
  }

  function NonEmpty(parts: seq<string>): seq<string> {
    if |parts| == 0 then [] else (if parts[0] == "" then [] else [parts[0]]) + NonEmpty(parts[1..])
  }

  function Parse(text: string): Params {
    AbsorbAll(DEFAULT, NonEmpty(Split(text, PARAMS_SEPARATOR)))
  }

  method ParseParams(text: string) returns (parsed: Params)
    ensures parsed == Parse(text)
  {
    parsed := DEFAULT;
    var parts := NonEmpty(Split(text, PARAMS_SEPARATOR));
    var i := 0;
    while i < |parts|
      invariant 0 <= i <= |parts|
      invariant Parse(text) == AbsorbAll(parsed, parts[i..])
    {
      parsed := ParseOne(parsed, parts[i]);
      i := i + 1;
    }
  }

  /** The body of the loop: the options that a part may set, one after the other. */
  method ParseOne(p: Params, part: string) returns (parsed: Params)
    ensures parsed == Absorb(p, part)
  {
    parsed := p;
    var param := Trim(part);
    var (name, value) := ParseParam(param);
    if name == PARAM_SAVEPATH {
      parsed := parsed.(savePath := CleanPath(value));
    } else if name == PARAM_ADDSTOPPED {
      parsed := parsed.(addStopped := Some(ToInt(value) != 0));
    } else if name == PARAM_SKIPCHECKING {
      parsed := parsed.(skipChecking := true);
    } else if name == PARAM_CATEGORY {
      parsed := parsed.(category := value);
    } else if name == PARAM_SEQUENTIAL {
      parsed := parsed.(sequential := true);
    } else if name == PARAM_FIRSTLASTPIECEPRIORITY {
      parsed := parsed.(firstLastPiecePriority := true);
    } else if name == PARAM_SKIPDIALOG {
      parsed := parsed.(skipDialog := Some(ToInt(value) != 0));
    } else {
      parsed := parsed.(torrentSources := parsed.torrentSources + [param]);
    }
  }

  // ----- Serializing -----

  function Optional(present: bool, part: string): seq<string> {
    if present then [part] else []
  }

  function SwitchText(on: bool): string {
    if on then "1" else "0"
  }

  function Flag(name: string, value: Option<bool>): seq<string> {
    match value
    case None => []
    case Some(on) => [BindParamValue(name, SwitchText(on))]
  }

  function SavePathPart(p: Params): seq<string> {
    Optional(p.savePath != "", BindParamValue(PARAM_SAVEPATH, p.savePath))
  }

  function CategoryPart(p: Params): seq<string> {
    Optional(p.category != "", BindParamValue(PARAM_CATEGORY, p.category))
  }

  /** The options come before the sources. */
  function Options(p: Params): seq<string> {
    SavePathPart(p)
    + Flag(PARAM_ADDSTOPPED, p.addStopped)
    + Optional(p.skipChecking, PARAM_SKIPCHECKING)
    + CategoryPart(p)
    + Optional(p.sequential, PARAM_SEQUENTIAL)
    + Optional(p.firstLastPiecePriority, PARAM_FIRSTLASTPIECEPRIORITY)
    + Flag(PARAM_SKIPDIALOG, p.skipDialog)
  }

  function Serialize(p: Params): string {
    Join(Options(p) + p.torrentSources, PARAMS_SEPARATOR)
  }

  method SerializeParams(params: Params) returns (text: string)
    ensures text == Serialize(params)
  {
    var result: seq<string> := [];
    if params.savePath != "" {
      result := result + [BindParamValue(PARAM_SAVEPATH, params.savePath)];
    }
    ghost var written := SavePathPart(params);
    assert result == written;
    if params.addStopped.Some? {
      result := result + [BindParamValue(PARAM_ADDSTOPPED, SwitchText(params.addStopped.value))];
    }
    written := written + Flag(PARAM_ADDSTOPPED, params.addStopped);
    assert result == written;
    if params.skipChecking {
      result := result + [PARAM_SKIPCHECKING];
    }
    written := written + Optional(params.skipChecking, PARAM_SKIPCHECKING);
    assert result == written;
    if params.category != "" {
      result := result + [BindParamValue(PARAM_CATEGORY, params.category)];
    }
    written := written + CategoryPart(params);
    assert result == written;
    if params.sequential {
      result := result + [PARAM_SEQUENTIAL];
    }
    written := written + Optional(params.sequential, PARAM_SEQUENTIAL);
    assert result == written;
    if params.firstLastPiecePriority {
      result := result + [PARAM_FIRSTLASTPIECEPRIORITY];
    }
    written := written + Optional(params.firstLastPiecePriority, PARAM_FIRSTLASTPIECEPRIORITY);
    assert result == written;
    if params.skipDialog.Some? {
      result := result + [BindParamValue(PARAM_SKIPDIALOG, SwitchText(params.skipDialog.value))];
    }
    written := written + Flag(PARAM_SKIPDIALOG, params.skipDialog);
    assert result == written == Options(params);
    result := result + params.torrentSources;
    text := Join(result, PARAMS_SEPARATOR);
  }
}
