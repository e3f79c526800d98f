/**
 The launchd property list that makes the Server start by itself
 (crates/condr-server/src/autostart.rs), and the program that is read back from it.
 */
module LaunchdPlists {
  import opened Wrappers
  import opened Sequences

  /** Every occurrence of the pattern, from the left, replaced. */
  function Replace(text: string, pattern: string, into: string): string
    requires pattern != []
    decreases |text|
  {
    if text == [] then []
    else if StartsWith(text, pattern) then into + Replace(text[|pattern|..], pattern, into)
    else [text[0]] + Replace(text[1..], pattern, into)
  }

  /** The text before and after the first occurrence of the pattern. */
  function SplitOnce(text: string, pattern: string): Option<(string, string)>
    decreases |text|
  {
    if StartsWith(text, pattern) then Some(([], text[|pattern|..]))
    else if text == [] then None
    else
      match SplitOnce(text[1..], pattern)
      case None => None
      case Some((before, after)) => Some(([text[0]] + before, after))
  }

  // ----- The property list -----

  const KEY: string := "<key>ProgramArguments</key>"
  const STRING: string := "<string>"
  const STRING_END: string := "</string>"

  // The text in front of the arguments, cut before each tag and where it is long.
  const PLIST_PROLOG: seq<string> := [
    "<?xml version=", "\"1.0\" encoding=", "\"UTF-8\"?>\n", "<!DOCTYPE ", "plist PUBLIC"]
  const PLIST_TYPE: seq<string> := [
    " \"-//Apple//DTD PLIST 1.0//EN\"", " \"http://www.apple.com/DTDs/", "PropertyList-1.0.dtd\">\n"]
  const PLIST_COMMENT: seq<string> := ["<!-- Written by `condr server", " autostart on` (ADR 0057);"]
  const PLIST_REMARK: seq<string> := [" `condr server autostart", " off` removes it. -->\n"]
  const PLIST_DICT: seq<string> := ["<plist version=\"1.0\">\n", "<dict>\n\t", "<key>Label"]
  const PLIST_LABEL: seq<string> := ["</key>\n\t", "<string>dev.condr.server", "</string>\n\t"]
  const PLIST_HEAD: seq<string> :=
    PLIST_PROLOG + PLIST_TYPE + PLIST_COMMENT + PLIST_REMARK + PLIST_DICT + PLIST_LABEL

  const PLIST_ARGUMENTS: seq<string> := ["\n\t", "<array>\n\t\t"]

  const PLIST_TAIL: seq<string> := [
    "\n\t\t<string>server</string>", "\n\t\t<string>start</string>\n\t</array>", "\n\t<key>RunAtLoad</key>\n\t<true/>",
    "\n</dict>\n</plist>\n"]

  function Text(pieces: seq<string>): string {
    if pieces == [] then [] else pieces[0] + Text(pieces[1..])
  }

  function Escape(executable: string): string {
    Replace(Replace(Replace(executable, "&", "&amp;"), "<", "&lt;"), ">", "&gt;")
  }

  function LaunchdPlist(executable: string): string {
    Text(PLIST_HEAD)
    + (KEY + (Text(PLIST_ARGUMENTS) + (STRING + (Escape(executable) + (STRING_END + Text(PLIST_TAIL))))))
  }

  function LaunchdProgram(plist: string): Option<string> {
    match SplitOnce(plist, KEY)
    case None => None
    case Some((_, arguments)) =>
      match SplitOnce(arguments, STRING)
      case None => None
      case Some((_, value)) =>
        match SplitOnce(value, STRING_END)
        case None => None
        case Some((program, _)) =>
          Some(Replace(Replace(Replace(program, "&lt;", "<"), "&gt;", ">"), "&amp;", "&"))
  }

  // ----- Escaping -----

  function EscapedChar(c: char, lt: bool, gt: bool): string {
    if c == '&' then "&amp;" else if c == '<' && lt then "&lt;" else if c == '>' && gt then "&gt;" else [c]
  }

  /** Ampersands escaped, and the angle brackets that are asked for. */
  function Escaped(text: string, lt: bool, gt: bool): string
    decreases |text|
  {
    if text == [] then [] else EscapedChar(text[0], lt, gt) + Escaped(text[1..], lt, gt)
  }

  /** A stretch in which the pattern cannot begin is copied. */
  lemma {:induction false} CopiesOthers(piece: string, rest: string, pattern: string, into: string)
    requires pattern != [] && pattern[0] !in piece
    ensures Replace(piece + rest, pattern, into) == piece + Replace(rest, pattern, into)
    decreases |piece|
  {
    if piece == [] {
      assert piece + rest == rest;
    } else {
      var text := piece + rest;
      assert text[0] == piece[0] && text[1..] == piece[1..] + rest;
      CopiesOthers(piece[1..], rest, pattern, into);
      assert [piece[0]] + (piece[1..] + Replace(rest, pattern, into)) == piece + Replace(rest, pattern, into);
    }
  }

  lemma ReplacesFirst(pattern: string, rest: string, into: string)
    requires pattern != []
    ensures Replace(pattern + rest, pattern, into) == into + Replace(rest, pattern, into)
  {
    var text := pattern + rest;
    assert text[..|pattern|] == pattern && text[|pattern|..] == rest;
  }

  lemma DiffersAt(text: string, pattern: string, k: nat)
    requires k < |text| && k < |pattern| && text[k] != pattern[k]
    ensures !StartsWith(text, pattern)
  {
    if |pattern| <= |text| { assert text[..|pattern|][k] == text[k]; }
  }

  /** Another entity is copied: it differs from the pattern in its second character. */
  lemma CopiesEntity(entity: string, rest: string, pattern: string, into: string)
    requires |entity| > 1 && |pattern| > 1 && entity[0] == pattern[0] == '&' && entity[1] != pattern[1]
    requires '&' !in entity[1..]
    ensures Replace(entity + rest, pattern, into) == entity + Replace(rest, pattern, into)
  {
    var text := entity + rest;
    DiffersAt(text, pattern, 1);
    assert text[1..] == entity[1..] + rest;
    CopiesOthers(entity[1..], rest, pattern, into);
    assert [entity[0]] + (entity[1..] + Replace(rest, pattern, into)) == entity + Replace(rest, pattern, into);
  }

  lemma {:induction false} EscapesAmpersands(text: string)
    ensures Replace(text, "&", "&amp;") == Escaped(text, false, false)
    decreases |text|
  {
    if text != [] {
      EscapesAmpersands(text[1..]);
      assert text[..1] == [text[0]];
    }
  }

  /** One step over a character that the escapes differ in, or do not. */
  lemma {:induction false} EscapesLess(text: string)
    ensures Replace(Escaped(text, false, false), "<", "&lt;") == Escaped(text, true, false)
    decreases |text|
  {
    if text != [] {
      var piece, rest := EscapedChar(text[0], false, false), Escaped(text[1..], false, false);
      EscapesLess(text[1..]);
      if text[0] == '<' { ReplacesFirst("<", rest, "&lt;"); } else { CopiesOthers(piece, rest, "<", "&lt;"); }
    }
  }

  lemma {:induction false} EscapesGreater(text: string)
    ensures Replace(Escaped(text, true, false), ">", "&gt;") == Escaped(text, true, true)
    decreases |text|
  {
    if text != [] {
      var piece, rest := EscapedChar(text[0], true, false), Escaped(text[1..], true, false);
      EscapesGreater(text[1..]);
      if text[0] == '>' { ReplacesFirst(">", rest, "&gt;"); } else { CopiesOthers(piece, rest, ">", "&gt;"); }
    }
  }

  lemma {:induction false} RestoresLess(text: string)
    ensures Replace(Escaped(text, true, true), "&lt;", "<") == Escaped(text, false, true)
    decreases |text|
  {
    if text != [] {
      var piece, rest := EscapedChar(text[0], true, true), Escaped(text[1..], true, true);
      RestoresLess(text[1..]);
      if text[0] == '<' { ReplacesFirst("&lt;", rest, "<"); }
      else if text[0] == '&' || text[0] == '>' { CopiesEntity(piece, rest, "&lt;", "<"); }
      else { CopiesOthers(piece, rest, "&lt;", "<"); }
    }
  }

  lemma {:induction false} RestoresGreater(text: string)
    ensures Replace(Escaped(text, false, true), "&gt;", ">") == Escaped(text, false, false)
    decreases |text|
  {
    if text != [] {
      var piece, rest := EscapedChar(text[0], false, true), Escaped(text[1..], false, true);
      RestoresGreater(text[1..]);
      if text[0] == '>' { ReplacesFirst("&gt;", rest, ">"); }
      else if text[0] == '&' { CopiesEntity(piece, rest, "&gt;", ">"); }
      else { CopiesOthers(piece, rest, "&gt;", ">"); }
    }
  }

  lemma {:induction false} RestoresAmpersands(text: string)
    ensures Replace(Escaped(text, false, false), "&amp;", "&") == text
    decreases |text|
  {
    if text != [] {
      var piece, rest := EscapedChar(text[0], false, false), Escaped(text[1..], false, false);
      RestoresAmpersands(text[1..]);
      if text[0] == '&' { ReplacesFirst("&amp;", rest, "&"); } else { CopiesOthers(piece, rest, "&amp;", "&"); }
      assert [text[0]] + text[1..] == text;
    }
  }

  /** Replacing one after the other escapes, and restores, every text, whatever entities it already spells. */
  lemma EscapeIsUndone(text: string)
    ensures Replace(Replace(Replace(Escape(text), "&lt;", "<"), "&gt;", ">"), "&amp;", "&") == text
  {
    EscapeIsEscaped(text);
    RestoresLess(text);
    RestoresGreater(text);
    RestoresAmpersands(text);
  }

  lemma EscapeIsEscaped(text: string)
    ensures Escape(text) == Escaped(text, true, true)
  {
    EscapesAmpersands(text);
    EscapesLess(text);
    EscapesGreater(text);
  }

  lemma {:induction false} NoTagInEscaped(text: string)
    ensures '<' !in Escaped(text, true, true)
    decreases |text|
  {
    if text != [] { NoTagInEscaped(text[1..]); }
  }

  // ----- Finding the program -----

  /** The tag cannot begin in the piece: at most its first character opens a tag, and that one differs. */
  predicate Skips(piece: string, tag: string) {
    && piece != [] && tag != [] && tag[0] == '<' && (forall k :: 1 <= k < |piece| ==> piece[k] != '<')
    && (piece[0] == '<' ==> exists k :: 0 <= k < |piece| && k < |tag| && piece[k] != tag[k])
  }

  predicate AllSkip(pieces: seq<string>, tag: string) {
    forall k :: 0 <= k < |pieces| ==> Skips(pieces[k], tag)
  }

  lemma {:induction false} NoTagBegins(piece: string, rest: string, tag: string)
    requires tag != [] && tag[0] !in piece
    ensures SplitOnce(piece + rest, tag) ==
            (match SplitOnce(rest, tag) case None => None case Some((b, a)) => Some((piece + b, a)))
    decreases |piece|
  {
    var text := piece + rest;
    if piece == [] {
      assert text == rest;
      if SplitOnce(rest, tag).Some? { assert piece + SplitOnce(rest, tag).value.0 == SplitOnce(rest, tag).value.0; }
    } else {
      assert text[0] == piece[0] && text[1..] == piece[1..] + rest;
      NoTagBegins(piece[1..], rest, tag);
      if SplitOnce(rest, tag).Some? {
        assert [piece[0]] + (piece[1..] + SplitOnce(rest, tag).value.0) == piece + SplitOnce(rest, tag).value.0;
      }
    }
  }

  function AfterFirst(text: string, tag: string): Option<string> {
    match SplitOnce(text, tag)
    case None => None
    case Some((_, after)) => Some(after)
  }

  lemma SkipsPiece(piece: string, rest: string, tag: string)
    requires Skips(piece, tag)
    ensures AfterFirst(piece + rest, tag) == AfterFirst(rest, tag)
  {
    var text := piece + rest;
    var k: nat := 0;
    if piece[0] == '<' { k :| 0 <= k < |piece| && k < |tag| && piece[k] != tag[k]; }
    assert text[k] == piece[k];
    DiffersAt(text, tag, k);
    assert text[1..] == piece[1..] + rest;
    NoTagBegins(piece[1..], rest, tag);
  }

  lemma {:induction false} SkipsAll(pieces: seq<string>, rest: string, tag: string)
    requires AllSkip(pieces, tag)
    ensures AfterFirst(Text(pieces) + rest, tag) == AfterFirst(rest, tag)
  {
    if pieces == [] {
      assert Text(pieces) + rest == rest;
    } else {
      SkipsPiece(pieces[0], Text(pieces[1..]) + rest, tag);
      SkipsAll(pieces[1..], rest, tag);
      assert Text(pieces) + rest == pieces[0] + (Text(pieces[1..]) + rest);
    }
  }

  lemma FindsAtOnce(tag: string, rest: string)
    ensures SplitOnce(tag + rest, tag) == Some(([], rest))
  {
    assert (tag + rest)[..|tag|] == tag && (tag + rest)[|tag|..] == rest;
  }

  lemma PrologSkips()
    ensures AllSkip(PLIST_PROLOG, KEY)
  {
    assert KEY[1] == 'k' && PLIST_PROLOG[0][1] == '?' && PLIST_PROLOG[3][1] == '!';
    assert PLIST_PROLOG[1][0] == '"' && PLIST_PROLOG[2][0] == '"' && PLIST_PROLOG[4][0] == 'p';
  }

  lemma TypeSkips()
    ensures AllSkip(PLIST_TYPE, KEY)
  {
    assert PLIST_TYPE[0][0] == ' ' && PLIST_TYPE[1][0] == ' ' && PLIST_TYPE[2][0] == 'P';
  }

  lemma CommentSkips()
    ensures AllSkip(PLIST_COMMENT, KEY)
  {
    assert KEY[1] == 'k' && PLIST_COMMENT[0][1] == '!' && PLIST_COMMENT[1][0] == ' ';
  }

  lemma RemarkSkips()
    ensures AllSkip(PLIST_REMARK, KEY)
  {
    assert PLIST_REMARK[0][0] == ' ' && PLIST_REMARK[1][0] == ' ';
  }

  lemma DictSkips()
    ensures AllSkip(PLIST_DICT, KEY)
  {
    assert KEY[1] == 'k' && PLIST_DICT[0][1] == 'p' && PLIST_DICT[1][1] == 'd';
    assert KEY[5] == 'P' && PLIST_DICT[2][5] == 'L';
  }

  lemma LabelSkips()
    ensures AllSkip(PLIST_LABEL, KEY)
  {
    assert KEY[1] == 'k';
    assert PLIST_LABEL[0][1] == '/' && PLIST_LABEL[1][1] == 's' && PLIST_LABEL[2][1] == '/';
  }

  lemma HeadSkips()
    ensures AllSkip(PLIST_HEAD, KEY)
  {
    PrologSkips();
    TypeSkips();
    CommentSkips();
    RemarkSkips();
    DictSkips();
    LabelSkips();
  }

  lemma ArgumentsSkip()
    ensures AllSkip(PLIST_ARGUMENTS, STRING)
  {
    assert Skips("\n\t", STRING);
    assert Skips("<array>\n\t\t", STRING) by { assert "<array>\n\t\t"[1] != STRING[1]; }
  }

  /** Past pieces that skip it, a tag is found where it stands. */
  lemma TagIsFound(pieces: seq<string>, tag: string, rest: string)
    requires AllSkip(pieces, tag)
    ensures AfterFirst(Text(pieces) + (tag + rest), tag) == Some(rest)
  {
    SkipsAll(pieces, tag + rest, tag);
    FindsAtOnce(tag, rest);
  }

  lemma ProgramEnds(escaped: string, tag: string, tail: string)
    requires tag != [] && tag[0] !in escaped
    ensures SplitOnce(escaped + (tag + tail), tag) == Some((escaped, tail))
  {
    NoTagBegins(escaped, tag + tail, tag);
    FindsAtOnce(tag, tail);
    assert escaped + [] == escaped;
  }

  /** The program is read back as it was, for every text. */
  lemma PlistReadsBack(executable: string)
    ensures LaunchdProgram(LaunchdPlist(executable)) == Some(executable)
  {
    var escaped, tail := Escape(executable), Text(PLIST_TAIL);
    var value := escaped + (STRING_END + tail);
    HeadSkips();
    TagIsFound(PLIST_HEAD, KEY, Text(PLIST_ARGUMENTS) + (STRING + value));
    ArgumentsSkip();
    TagIsFound(PLIST_ARGUMENTS, STRING, value);
    EscapeIsEscaped(executable);
    NoTagInEscaped(executable);
    assert STRING_END[0] == '<';
    ProgramEnds(escaped, STRING_END, tail);
    EscapeIsUndone(executable);
  }
}
