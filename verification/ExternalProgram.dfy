/**
  The command template of an external program: the replaceVariables lambda of
  Application::runExternalProgram. The text is edited in place from right to left.
*/
module ExternalProgram {
  import opened Strings

  /** What the specifiers stand for; a torrent without metadata has -1 files and the size -1. */
  datatype Torrent = Torrent(
    filesCount: int, savePath: string, contentPath: string, tags: seq<string>,
    infoHashV1: Option<string>, infoHashV2: Option<string>, id: string, category: string, comment: string,
    name: string, rootPath: string, currentTracker: string, totalSize: int)

  /** The text for a specifier, if it is one. */
  function Value(t: Torrent, specifier: char): Option<string> {
    match specifier
    case 'C' => Some(Number(t.filesCount))
    case 'D' => Some(t.savePath)
    case 'F' => Some(t.contentPath)
    case 'G' => Some(Join(t.tags, ','))
    case 'I' => Some(if t.infoHashV1.Some? then t.infoHashV1.value else "-")
    case 'J' => Some(if t.infoHashV2.Some? then t.infoHashV2.value else "-")
    case 'K' => Some(t.id)
    case 'L' => Some(t.category)
    case 'M' => Some(t.comment)
    case 'N' => Some(t.name)
    case 'R' => Some(t.rootPath)
    case 'T' => Some(t.currentTracker)
    case 'Z' => Some(Number(t.totalSize))
    case _ => None
  }

  /**
    The meaning of a template, read once from left to right: a '%' before a specifier stands for the
    value, everything else for itself. Values are never looked at again.
  */
  function Expand(t: Torrent, template: string): string {
    if |template| < 2 then template
    else if template[0] == '%' && Value(t, template[1]).Some? then Value(t, template[1]).value + Expand(t, template[2..])
    else [template[0]] + Expand(t, template[1..])
  }

  /** No pair of '%' and specifier lies across the border of the two texts. */
  predicate Separate(t: Torrent, a: string, b: string) {
    |a| > 0 && |b| > 0 && a[|a| - 1] == '%' ==> Value(t, b[0]) == None
  }

  /** Templates can be expanded piece by piece. */
  lemma {:induction false} ExpandConcat(t: Torrent, a: string, b: string)
    requires Separate(t, a, b)
    ensures Expand(t, a + b) == Expand(t, a) + Expand(t, b)
    decreases |a|
  {
    if |a| == 0 {
      assert a + b == b;
    } else if |a| == 1 {
      assert (a + b)[1..] == b;
      if |b| == 0 {
        assert a + b == a;
      }
    } else if a[0] == '%' && Value(t, a[1]).Some? {
      assert (a + b)[2..] == a[2..] + b;
      ExpandConcat(t, a[2..], b);
    } else {
      assert (a + b)[1..] == a[1..] + b;
      ExpandConcat(t, a[1..], b);
    }
  }

  /** What a '%' with the character after it is replaced by. */
  function ValueText(t: Torrent, specifier: char): string {
    if Value(t, specifier).Some? then Value(t, specifier).value else ['%', specifier]
  }

  lemma ExpandPair(t: Torrent, front: string, specifier: char)
    ensures Expand(t, front + ['%', specifier]) == Expand(t, front) + ValueText(t, specifier)
  {
    ExpandConcat(t, front, ['%', specifier]);
    assert ['%', specifier][1..] == [specifier] && ['%', specifier][2..] == [];
  }

  /** The last two characters of the part not yet looked at, when they begin with '%'. */
  lemma PairLeft(t: Torrent, template: string, i: nat)
    requires i + 2 <= |template| && template[i] == '%'
    ensures Expand(t, template[..i + 2]) == Expand(t, template[..i]) + ValueText(t, template[i + 1])
  {
    assert template[..i + 2] == template[..i] + ['%', template[i + 1]];
    ExpandPair(t, template[..i], template[i + 1]);
  }

  /** The last character of the part not yet looked at, when no '%' comes before it. */
  lemma OneLeft(t: Torrent, template: string, i: nat)
    requires i + 2 <= |template| && template[i] != '%'
    ensures Expand(t, template[..i + 2]) == Expand(t, template[..i + 1]) + [template[i + 1]]
  {
    assert template[..i + 2] == template[..i + 1] + [template[i + 1]];
    ExpandConcat(t, template[..i + 1], [template[i + 1]]);
  }

  /** `str.replace(i, 2, value)`. */
  function Replace2(str: string, i: nat, value: string): string
    requires i + 2 <= |str|
  {
    str[..i] + value + str[i + 2..]
  }

  /** The text is what is not yet looked at followed by what is done; reading at i reads the template. */
  lemma ReadsTemplate(str: string, template: string, i: nat, done: string)
    requires i + 2 <= |template| && str == template[..i + 2] + done
    ensures i + 2 <= |str| && str[i] == template[i] && str[i + 1] == template[i + 1]
  {
  }

  lemma ReplacedPair(str: string, template: string, i: nat, done: string, text: string)
    requires i + 2 <= |template| && str == template[..i + 2] + done
    ensures Replace2(str, i, text) == template[..i] + (text + done)
    ensures Replace2(str, i, [template[i], template[i + 1]]) == str
  {
  }

  lemma PairStep(t: Torrent, str: string, template: string, i: nat, done: string)
    requires i + 2 <= |template| && str == template[..i + 2] + done && template[i] == '%'
    ensures
      var text := ValueText(t, template[i + 1]);
      && Expand(t, template[..i + 2]) + done == Expand(t, template[..i]) + (text + done)
      && Replace2(str, i, text) == template[..i] + (text + done)
      && Replace2(str, i, ['%', template[i + 1]]) == str
  {
    PairLeft(t, template, i);
    Regroup(Expand(t, template[..i + 2]), Expand(t, template[..i]), ValueText(t, template[i + 1]), done);
    ReplacedPair(str, template, i, done, ValueText(t, template[i + 1]));
  }

  lemma OneStep(t: Torrent, str: string, template: string, i: nat, done: string)
    requires i + 2 <= |template| && str == template[..i + 2] + done && template[i] != '%'
    ensures Expand(t, template[..i + 2]) + done == Expand(t, template[..i + 1]) + ([template[i + 1]] + done)
    ensures str == template[..i + 1] + ([template[i + 1]] + done)
  {
    OneLeft(t, template, i);
    Regroup(Expand(t, template[..i + 2]), Expand(t, template[..i + 1]), [template[i + 1]], done);
    assert template[..i + 2] == template[..i + 1] + [template[i + 1]];
  }

  /** The switch over the specifiers. */
  method ReplaceSpecifier(t: Torrent, str: string, i: nat) returns (result: string)
    requires i + 2 <= |str|
    ensures result == if Value(t, str[i + 1]).Some? then Replace2(str, i, Value(t, str[i + 1]).value) else str
  {
    var specifier := str[i + 1];
    result := str;
    match specifier {
      case 'C' => result := Replace2(str, i, Number(t.filesCount));
      case 'D' => result := Replace2(str, i, t.savePath);
      case 'F' => result := Replace2(str, i, t.contentPath);
      case 'G' => result := Replace2(str, i, Join(t.tags, ','));
      case 'I' => result := Replace2(str, i, if t.infoHashV1.Some? then t.infoHashV1.value else "-");
      case 'J' => result := Replace2(str, i, if t.infoHashV2.Some? then t.infoHashV2.value else "-");
      case 'K' => result := Replace2(str, i, t.id);
      case 'L' => result := Replace2(str, i, t.category);
      case 'M' => result := Replace2(str, i, t.comment);
      case 'N' => result := Replace2(str, i, t.name);
      case 'R' => result := Replace2(str, i, t.rootPath);
      case 'T' => result := Replace2(str, i, t.currentTracker);
      case 'Z' => result := Replace2(str, i, Number(t.totalSize));
      case _ =>
    }
  }

  /**
    The loop goes on to the left of what it has replaced, and after any '%' it skips one more
    character, so that it never pairs a '%' with the beginning of inserted text.
  */
  method ReplaceVariables(t: Torrent, template: string) returns (str: string)
    ensures str == Expand(t, template)
  {
    str := template;
    var i := |str| - 2;
    ghost var suffix := "";
    assert template[..|template|] == template;
    while i >= 0
      invariant -2 <= i && i + 2 <= |template|
      invariant str == template[..i + 2] + suffix
      invariant Expand(t, template) == Expand(t, template[..i + 2]) + suffix
    {
      ReadsTemplate(str, template, i, suffix);
      if str[i] == '%' {
        PairStep(t, str, template, i, suffix);
        suffix := ValueText(t, template[i + 1]) + suffix;
        str := ReplaceSpecifier(t, str, i);
        i := i - 1;
      } else {
        OneStep(t, str, template, i, suffix);
        suffix := [template[i + 1]] + suffix;
      }
      i := i - 1;
    }
  }

  /** Of two '%' before a specifier the first stays, whatever the value begins with. */
  lemma DoubledPercent(t: Torrent, a: string, specifier: char, b: string)
    requires Value(t, specifier).Some?
    ensures Expand(t, a + ['%', '%', specifier] + b) == Expand(t, a + ['%']) + Value(t, specifier).value + Expand(t, b)
  {
    var front := a + ['%'];
    assert a + ['%', '%', specifier] + b == front + ['%', specifier] + b;
    ExpandConcat(t, front + ['%', specifier], b);
    ExpandPair(t, front, specifier);
  }

  /** The parameters as the options dialog documents them, in its order. */
  function Documented(t: Torrent): map<char, string> {
    map['N' := t.name, 'L' := t.category, 'G' := Join(t.tags, ','), 'F' := t.contentPath, 'R' := t.rootPath,
        'D' := t.savePath, 'C' := Number(t.filesCount), 'Z' := Number(t.totalSize), 'T' := t.currentTracker,
        'I' := if t.infoHashV1.None? then "-" else t.infoHashV1.value,
        'J' := if t.infoHashV2.None? then "-" else t.infoHashV2.value,
        'K' := t.id, 'M' := t.comment]
  }

  /** They, and no others, are replaced, by what is documented. */
  lemma DocumentedParameters(t: Torrent, c: char)
    ensures Expand(t, ['%', c]) == if c in Documented(t) then Documented(t)[c] else ['%', c]
  {
    ExpandAlone(t, c);
    ValueDocumented(t, c);
  }

  lemma ValueDocumented(t: Torrent, c: char)
    ensures Value(t, c) == if c in Documented(t) then Some(Documented(t)[c]) else None
  {
  }

  lemma ExpandAlone(t: Torrent, c: char)
    ensures Expand(t, ['%', c]) == if Value(t, c).Some? then Value(t, c).value else ['%', c]
  {
    var template := ['%', c];
    assert template[2..] == [] && template[1..] == [c];
    if Value(t, c).Some? {
      assert Value(t, c).value + [] == Value(t, c).value;
    }
  }
}
