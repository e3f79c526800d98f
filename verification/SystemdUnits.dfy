/**
 The systemd unit that makes the Server start by itself (crates/condr-server/src/autostart.rs), and
 the path that is read back from it.
 */
module SystemdUnits {
  import opened Wrappers
  import opened Sequences

  function QuoteChar(c: char): string {
    if c == '\\' || c == '"' then ['\\', c]
    else if c == '%' || c == '$' then [c, c]
    else [c]
  }

  function Quote(path: string): string {
    if path == [] then [] else Quote(path[..|path| - 1]) + QuoteChar(path[|path| - 1])
  }

  const EXEC_START: string := "ExecStart=-"

  const UNIT_WRITTEN: string := "# Written by `condr server" + " autostart on` (ADR 0057);"
  const UNIT_REMOVED: string := " `condr server autostart" + " off` removes it."
  const UNIT_TITLE: string := UNIT_WRITTEN + UNIT_REMOVED

  const UNIT_LINES: seq<string> := [
    UNIT_TITLE,
    "[Unit]",
    "Description=Condr Server",
    "",
    "[Service]",
    "Type=oneshot",
    "RemainAfterExit=yes"]

  const UNIT_INSTALL: string := "\n[Install]\nWantedBy=default.target\n"

  /** The lines, each ended. */
  function Ended(lines: seq<string>): string {
    if lines == [] then "" else lines[0] + "\n" + Ended(lines[1..])
  }

  const UNIT_COMMAND: string := "\" server start"

  /** What follows on the start line, up to the end of the unit. */
  function Command(executable: string, closing: string): string {
    "\"" + Quote(executable) + closing
  }

  function SystemdUnit(executable: string): string {
    Ended(UNIT_LINES) + (EXEC_START + Command(executable, UNIT_COMMAND) + "\n" + UNIT_INSTALL)
  }

  /** The text up to the first newline, and what follows it. */
  function FirstLine(text: string): (string, string)
    decreases |text|
  {
    if text == [] then ([], [])
    else if text[0] == '\n' then ([], text[1..])
    else
      var (line, rest) := FirstLine(text[1..]);
      ([text[0]] + line, rest)
  }

  /** A line without the carriage return of its ending. */
  function Trimmed(line: string, ended: bool): string {
    if ended && line != [] && line[|line| - 1] == '\r' then line[..|line| - 1] else line
  }

  lemma {:induction false} FirstLineIsPart(text: string)
    ensures |FirstLine(text).0| <= |text|
    ensures text != [] ==> |FirstLine(text).1| < |text|
    decreases |text|
  {
    if text != [] { FirstLineIsPart(text[1..]); }
  }

  /** What follows the prefix on the first line that begins with it. */
  function FindLine(text: string, prefix: string): Option<string>
    decreases |text|
  {
    if text == [] then None
    else
      FirstLineIsPart(text);
      var (line, rest) := FirstLine(text);
      var trimmed := Trimmed(line, |line| < |text|);
      if StartsWith(trimmed, prefix) then Some(trimmed[|prefix|..]) else FindLine(rest, prefix)
  }

  function Prepend(read: string, rest: Option<string>): Option<string> {
    if rest.Some? then Some(read + rest.value) else None
  }

  /** The path up to the closing quote. */
  function Unquote(quoted: string): Option<string>
    decreases |quoted|
  {
    if quoted == [] then None
    else if quoted[0] == '"' then Some([])
    else if quoted[0] == '\\' then
      if |quoted| < 2 then None else Prepend([quoted[1]], Unquote(quoted[2..]))
    else if quoted[0] == '%' || quoted[0] == '$' then
      if |quoted| < 2 then None else Prepend([quoted[0]], Unquote(quoted[2..]))
    else Prepend([quoted[0]], Unquote(quoted[1..]))
  }

  function SystemdExecPath(unit: string): Option<string> {
    match FindLine(unit, EXEC_START)
    case None => None
    case Some(command) => if StartsWith(command, "\"") then Unquote(command[1..]) else None
  }

  lemma Prepends(a: string, b: string, rest: Option<string>)
    ensures Prepend(a, Prepend(b, rest)) == Prepend(a + b, rest)
  {
    if rest.Some? { assert a + (b + rest.value) == (a + b) + rest.value; }
  }

  lemma PrependsNothing(rest: Option<string>)
    ensures Prepend([], rest) == rest
  {
    if rest.Some? { assert [] + rest.value == rest.value; }
  }

  method QuoteSystemd(executable: string) returns (quoted: string)
    ensures quoted == "\"" + Quote(executable) + "\""
  {
    quoted := "\"";
    for k := 0 to |executable|
      invariant quoted == "\"" + Quote(executable[..k])
    {
      assert executable[..k + 1][..k] == executable[..k];
      var character := executable[k];
      if character == '\\' || character == '"' {
        quoted := quoted + ['\\', character];
      } else if character == '%' || character == '$' {
        quoted := quoted + [character, character];
      } else {
        quoted := quoted + [character];
      }
    }
    assert executable[..|executable|] == executable;
    quoted := quoted + "\"";
  }

  method ReadQuoted(quoted: string) returns (path: Option<string>)
    ensures path == Unquote(quoted)
  {
    var read, characters := "", quoted;
    PrependsNothing(Unquote(quoted));
    while characters != []
      invariant Unquote(quoted) == Prepend(read, Unquote(characters))
      decreases |characters|
    {
      var character := characters[0];
      if character == '"' {
        assert read + [] == read;
        return Some(read);
      }
      if character == '\\' || character == '%' || character == '$' {
        if |characters| < 2 {
          return None;
        }
        var next := if character == '\\' then characters[1] else character;
        Prepends(read, [next], Unquote(characters[2..]));
        read, characters := read + [next], characters[2..];
      } else {
        Prepends(read, [character], Unquote(characters[1..]));
        read, characters := read + [character], characters[1..];
      }
    }
    return None;
  }

  // ----- The unit reads back -----

  lemma {:induction false} QuoteJoins(a: string, b: string)
    ensures Quote(a + b) == Quote(a) + Quote(b)
  {
    if b == [] {
      assert a + b == a;
    } else {
      QuoteJoins(a, b[..|b| - 1]);
      assert (a + b)[..|a + b| - 1] == a + b[..|b| - 1];
      Associates(Quote(a), Quote(b[..|b| - 1]), QuoteChar(b[|b| - 1]));
    }
  }

  lemma UnquoteChar(c: char, rest: string)
    ensures Unquote(QuoteChar(c) + rest) == Prepend([c], Unquote(rest))
  {
    var text := QuoteChar(c) + rest;
    assert text[|QuoteChar(c)|..] == rest;
  }

  /** Quoted text is read back, whatever follows it. */
  lemma {:induction false} UnquoteUndoesQuote(path: string, rest: string)
    ensures Unquote(Quote(path) + rest) == Prepend(path, Unquote(rest))
    decreases |path|
  {
    if path == [] {
      assert Quote(path) + rest == rest;
      PrependsNothing(Unquote(rest));
    } else {
      var front, last := path[..|path| - 1], path[|path| - 1];
      var after := QuoteChar(last) + rest;
      assert Quote(path) + rest == Quote(front) + after;
      UnquoteUndoesQuote(front, after);
      UnquoteChar(last, rest);
      Prepends(front, [last], Unquote(rest));
      assert front + [last] == path;
    }
  }

  lemma {:induction false} LineEnds(line: string, rest: string)
    requires '\n' !in line
    ensures FirstLine(line + "\n" + rest) == (line, rest)
    decreases |line|
  {
    var text := line + "\n" + rest;
    if line == [] {
      assert text[1..] == rest;
    } else {
      LineEnds(line[1..], rest);
      assert text[1..] == line[1..] + "\n" + rest;
      assert text[0] == line[0];
      assert [line[0]] + line[1..] == line;
    }
  }

  /** Lines that do not begin with the prefix are passed over. */
  lemma {:induction false} OtherLines(lines: seq<string>, rest: string, prefix: string)
    requires prefix == EXEC_START && forall k :: 0 <= k < |lines| ==> Passes(lines[k])
    ensures FindLine(Ended(lines) + rest, prefix) == FindLine(rest, prefix)
  {
    if lines == [] {
      assert Ended(lines) + rest == rest;
    } else {
      var later := Ended(lines[1..]) + rest;
      PassingIsNoStart(lines[0]);
      LineEnds(lines[0], later);
      assert Ended(lines) + rest == lines[0] + "\n" + later;
      OtherLines(lines[1..], rest, prefix);
    }
  }

  /** Quoted text that no quote closes is no path. */
  lemma UnclosedIsNoPath(path: string)
    ensures Unquote(Quote(path)) == None
  {
    UnquoteUndoesQuote(path, "");
    assert Quote(path) + "" == Quote(path);
  }

  lemma {:induction false} SplitAtNewline(path: string) returns (before: string, after: string)
    requires '\n' in path
    ensures path == before + "\n" + after && '\n' !in before
    decreases |path|
  {
    if path[0] == '\n' {
      before, after := [], path[1..];
      assert path == [] + "\n" + path[1..];
    } else {
      var rest: string;
      rest, after := SplitAtNewline(path[1..]);
      before := [path[0]] + rest;
      assert path == [path[0]] + path[1..];
    }
  }

  lemma {:induction false} QuoteAddsNoNewline(path: string)
    ensures '\n' in Quote(path) <==> '\n' in path
    decreases |path|
  {
    if path != [] {
      QuoteAddsNoNewline(path[..|path| - 1]);
      assert path == path[..|path| - 1] + [path[|path| - 1]];
      assert Quote(path) == Quote(path[..|path| - 1]) + QuoteChar(path[|path| - 1]);
    }
  }

  lemma {:induction false} QuoteKeepsLastReturn(path: string)
    requires Quote(path) != [] && Quote(path)[|Quote(path)| - 1] == '\r'
    ensures path != [] && Quote(path)[..|Quote(path)| - 1] == Quote(path[..|path| - 1])
  {
    var front, last := path[..|path| - 1], path[|path| - 1];
    assert Quote(path) == Quote(front) + QuoteChar(last);
    assert QuoteChar(last)[|QuoteChar(last)| - 1] == last;
  }

  /** The line cannot begin the start line, and it is one line. */
  predicate Passes(line: string) {
    && '\n' !in line && '\r' !in line
    && (line == "" || line[0] != 'E')
  }

  lemma TitlePasses()
    ensures Passes(UNIT_TITLE)
  {
    assert Passes(UNIT_WRITTEN) && Passes(UNIT_REMOVED);
    Join(UNIT_WRITTEN, UNIT_REMOVED);
  }

  lemma Join(a: string, b: string)
    requires Passes(a) && Passes(b)
    ensures Passes(a + b)
  {
  }

  lemma NamesPass()
    ensures Passes("[Unit]") && Passes("Description=Condr Server") && Passes("") && Passes("[Service]")
  {
  }

  lemma UnitLinesPass()
    ensures forall k :: 0 <= k < |UNIT_LINES| ==> Passes(UNIT_LINES[k])
  {
    TitlePasses();
    NamesPass();
    assert Passes("Type=oneshot") && Passes("RemainAfterExit=yes");
  }

  lemma PassingIsNoStart(line: string)
    requires Passes(line)
    ensures '\n' !in line && !StartsWith(line, EXEC_START) && Trimmed(line, true) == line
  {
    assert |EXEC_START| > 0 && EXEC_START[0] == 'E';
    if |EXEC_START| <= |line| { assert line[..|EXEC_START|][0] == line[0]; }
  }

  /** The line that begins with the prefix is found, up to its newline. */
  lemma ExecLineIsFound(command: string, rest: string)
    requires '\n' !in command
    ensures FindLine(EXEC_START + command + "\n" + rest, EXEC_START)
            == Some(if command != [] && command[|command| - 1] == '\r' then command[..|command| - 1] else command)
  {
    var line := EXEC_START + command;
    assert '\n' !in EXEC_START;
    assert EXEC_START[|EXEC_START| - 1] == '-';
    LineEnds(line, rest);
    assert line + "\n" + rest == EXEC_START + command + "\n" + rest;
    assert line[..|EXEC_START|] == EXEC_START && line[|EXEC_START|..] == command;
    if command != [] {
      assert line[|line| - 1] == command[|command| - 1];
      assert line[..|line| - 1][..|EXEC_START|] == EXEC_START;
      assert line[..|line| - 1][|EXEC_START|..] == command[..|command| - 1];
    }
  }

  /** The rest of the start line closes the quote and ends plainly. */
  predicate Closes(closing: string) {
    && '\n' !in closing && closing != [] && closing[0] == '"' && closing[|closing| - 1] != '\r'
  }

  lemma CommandParts(path: string, closing: string)
    ensures StartsWith(Command(path, closing), "\"")
    ensures Command(path, closing)[1..] == Quote(path) + closing
    ensures closing != [] ==> Command(path, closing)[|Command(path, closing)| - 1] == closing[|closing| - 1]
    ensures '\n' !in path && '\n' !in closing ==> '\n' !in Command(path, closing)
  {
    var quote := "\"";
    Associates(quote, Quote(path), closing);
    QuoteAddsNoNewline(path);
    assert Command(path, closing) == quote + (Quote(path) + closing);
  }

  lemma WholeLineReadsBack(path: string, closing: string, install: string)
    requires '\n' !in path && Closes(closing)
    ensures FindLine(EXEC_START + Command(path, closing) + "\n" + install, EXEC_START) == Some(Command(path, closing))
    ensures StartsWith(Command(path, closing), "\"") && Unquote(Command(path, closing)[1..]) == Some(path)
  {
    CommandParts(path, closing);
    ExecLineIsFound(Command(path, closing), install);
    UnquoteUndoesQuote(path, closing);
    assert path + [] == path;
  }

  lemma QuoteAtNewline(before: string, after: string)
    ensures "\"" + Quote(before + "\n" + after) == "\"" + Quote(before) + "\n" + Quote(after)
  {
    var quote, newline := "\"", "\n";
    QuoteJoins(before + newline, after);
    QuoteJoins(before, newline);
    assert Quote(newline) == newline;
    Associates(quote, Quote(before) + newline, Quote(after));
    Associates(quote, Quote(before), newline);
  }

  lemma CutAtNewline(before: string, after: string, closing: string, install: string)
    ensures EXEC_START + Command(before + "\n" + after, closing) + "\n" + install
            == EXEC_START + Command(before, "") + "\n" + (Quote(after) + closing + "\n" + install)
  {
    QuoteAtNewline(before, after);
    var head := "\"" + Quote(before);
    assert Command(before, "") == head;
    Regroup(EXEC_START, head, "\n", Quote(after), closing, install);
  }

  lemma Regroup(start: string, head: string, newline: string, quoted: string, closing: string, install: string)
    ensures start + (head + newline + quoted + closing) + newline + install
            == start + head + newline + (quoted + closing + newline + install)
  {
    Associates(start, head + newline + quoted, closing);
    Associates(start, head + newline, quoted);
    Associates(start, head, newline);
    Associates(start + head + newline, quoted + closing + newline, install);
    Associates(start + head + newline, quoted + closing, newline);
    Associates(start + head + newline, quoted, closing);
  }

  lemma NewlineCutsTheLine(before: string, after: string, closing: string, install: string)
    requires '\n' !in before
    ensures var found := FindLine(EXEC_START + Command(before + "\n" + after, closing) + "\n" + install, EXEC_START);
            found.Some? && StartsWith(found.value, "\"") && Unquote(found.value[1..]) == None
  {
    var command := Command(before, "");
    CutAtNewline(before, after, closing, install);
    CommandParts(before, "");
    assert Quote(before) + "" == Quote(before);
    ExecLineIsFound(command, Quote(after) + closing + "\n" + install);
    UnclosedIsNoPath(before);
    assert command[1..] == Quote(before);
    if command[|command| - 1] == '\r' {
      QuoteKeepsLastReturn(before);
      UnclosedIsNoPath(before[..|before| - 1]);
      assert command[..|command| - 1][1..] == Quote(before)[..|Quote(before)| - 1];
    }
  }

  /** The path is read back exactly when it has no newline; one with a newline is not read at all. */
  lemma UnitReadsBack(path: string)
    ensures SystemdExecPath(SystemdUnit(path)) == if '\n' in path then None else Some(path)
  {
    UnitLinesPass();
    OtherLines(UNIT_LINES, EXEC_START + Command(path, UNIT_COMMAND) + "\n" + UNIT_INSTALL, EXEC_START);
    assert Closes(UNIT_COMMAND);
    if '\n' in path {
      var before, after := SplitAtNewline(path);
      NewlineCutsTheLine(before, after, UNIT_COMMAND, UNIT_INSTALL);
    } else {
      WholeLineReadsBack(path, UNIT_COMMAND, UNIT_INSTALL);
    }
  }
}
