/** Writing a translation catalog as PO text and reading it back. */
module PoCatalog {

  datatype Option<+T> = None | Some(value: T)

  // --- Text -------------------------------------------------------------------------------------

  /** Where splitlines breaks. */
  predicate IsBreak(c: char) {
    c == '\n' || c == '\r' || c == '\U{b}' || c == '\U{c}' || '\U{1c}' <= c <= '\U{1e}' || c == '\U{85}'
    || c == '\U{2028}' || c == '\U{2029}'
  }

  predicate IsSpace(c: char) {
    IsBreak(c) || c == ' ' || c == '\t' || c == '\U{1f}' || c == '\U{a0}' || c == '\U{1680}'
      || '\U{2000}' <= c <= '\U{200a}'
    || c == '\U{202f}' || c == '\U{205f}' || c == '\U{3000}'
  }

  function LineEnd(text: string): (end: nat)
    ensures end <= |text| && (forall i | 0 <= i < end :: !IsBreak(text[i])) && (end < |text| ==> IsBreak(text[end]))
  {
    if text == "" || IsBreak(text[0]) then 0 else 1 + LineEnd(text[1..])
  }

  function SplitLines(text: string): seq<string>
    decreases |text|
  {
    if text == "" then []
    else
      var end := LineEnd(text);
      if end == |text| then [text]
      else
        var next := if text[end] == '\r' && end + 1 < |text| && text[end + 1] == '\n' then end + 2 else end + 1;
        [text[..end]] + SplitLines(text[next..])
  }

  function Join(lines: seq<string>): string {
    if lines == [] then "" else if |lines| == 1 then lines[0] else lines[0] + "\n" + Join(lines[1..])
  }

  function StripLeft(text: string): string {
    if text != "" && IsSpace(text[0]) then StripLeft(text[1..]) else text
  }

  function StripRight(text: string): string {
    if text != "" && IsSpace(text[|text| - 1]) then StripRight(text[..|text| - 1]) else text
  }

  function Strip(text: string): string {
    StripRight(StripLeft(text))
  }

  /** A blank, a tab or another of the characters that count as space, line breaks included. */
  predicate Blank(c: char) {
    || c == ' ' || '\t' <= c <= '\r' || '\U{1c}' <= c <= '\U{1f}' || c == '\U{85}' || c == '\U{a0}'
    || c == '\U{1680}' || '\U{2000}' <= c <= '\U{200a}' || c == '\U{2028}' || c == '\U{2029}' || c == '\U{202f}'
    || c == '\U{205f}' || c == '\U{3000}'
  }

  lemma BlanksAreSpace(c: char)
    ensures IsSpace(c) <==> Blank(c)
  {
  }

  /** Stripping takes away the space around a text and nothing else. */
  lemma StripTakesSpace(before: string, text: string, after: string)
    requires (forall c | c in before :: Blank(c)) && (forall c | c in after :: Blank(c))
    requires text != "" && !Blank(text[0]) && !Blank(text[|text| - 1])
    ensures Strip(before + text + after) == text
  {
    forall c ensures IsSpace(c) <==> Blank(c) { BlanksAreSpace(c); }
    SpaceIsStripped(before, text, after);
  }

  lemma {:induction false} SpaceIsStripped(before: string, text: string, after: string)
    requires (forall c | c in before :: IsSpace(c)) && (forall c | c in after :: IsSpace(c))
    requires text != "" && !IsSpace(text[0]) && !IsSpace(text[|text| - 1])
    ensures Strip(before + text + after) == text
    decreases |before| + |after|
  {
    var all := before + text + after;
    if before != [] {
      assert before[0] in before && all[0] == before[0] && all[1..] == before[1..] + text + after;
      SpaceIsStripped(before[1..], text, after);
    } else if after != [] {
      var front := after[..|after| - 1];
      assert after[|after| - 1] in after && all[|all| - 1] == after[|after| - 1];
      assert all[..|all| - 1] == before + text + front && all[0] == text[0];
      SpaceIsStripped(before, text, front);
    } else {
      assert all == text;
    }
  }

  predicate OneLine(text: string) {
    forall c | c in text :: !IsBreak(c)
  }

  lemma LineEndIsFirst(text: string, end: nat)
    requires end < |text| && IsBreak(text[end]) && forall i | 0 <= i < end :: !IsBreak(text[i])
    ensures LineEnd(text) == end
  {
  }

  lemma SplitsFirst(first: string, rest: string)
    requires OneLine(first)
    ensures SplitLines(first + "\n" + rest) == [first] + SplitLines(rest)
  {
    var text := first + "\n" + rest;
    assert forall i | 0 <= i < |first| :: text[i] == first[i] && first[i] in first;
    LineEndIsFirst(text, |first|);
    assert text[..|first|] == first && text[|first| + 1..] == rest;
  }

  /** The characters that end a line: line feed, carriage return, vertical tab, form feed, the file, group and
      record separators, next line, and the line and paragraph separators. */
  predicate EndsLines(c: char) {
    || '\n' <= c <= '\r' || c == '\U{1c}' || c == '\U{1d}' || c == '\U{1e}' || c == '\U{85}'
    || c == '\U{2028}' || c == '\U{2029}'
  }

  lemma BreaksEndLines(c: char)
    ensures IsBreak(c) <==> EndsLines(c)
  {
  }

  /** Each of them ends a line, a carriage return and the line feed after it together, and nothing else does. */
  lemma EveryBreakEndsALine(line: string, c: char, rest: string)
    requires (forall c | c in line :: !EndsLines(c)) && EndsLines(c)
    ensures SplitLines(line + [c] + rest) ==
      [line] + SplitLines(if c == '\r' && rest != "" && rest[0] == '\n' then rest[1..] else rest)
  {
    BreaksEndLines(c);
    forall c | c in line ensures !IsBreak(c) { BreaksEndLines(c); }
    BreakEndsALine(line, c, rest);
  }

  lemma BreakEndsALine(line: string, c: char, rest: string)
    requires (forall c | c in line :: !IsBreak(c)) && IsBreak(c)
    ensures SplitLines(line + [c] + rest) ==
      [line] + SplitLines(if c == '\r' && rest != "" && rest[0] == '\n' then rest[1..] else rest)
  {
    var text := line + [c] + rest;
    assert forall i | 0 <= i < |line| :: text[i] == line[i] && line[i] in line;
    LineEndIsFirst(text, |line|);
    assert text[..|line|] == line && text[|line| + 1..] == rest;
    if rest != "" { assert text[|line| + 2..] == rest[1..] && text[|line| + 1] == rest[0]; }
  }

  lemma JoinsFirst(first: string, rest: seq<string>)
    requires rest != []
    ensures Join([first] + rest) == first + "\n" + Join(rest)
  {
    assert ([first] + rest)[1..] == rest;
  }

  lemma Regroup(a: seq<string>, b: seq<string>, c: seq<string>)
    ensures (a + b) + c == a + (b + c)
  {
  }

  lemma {:induction false} SplitsPrefix(before: seq<string>, lines: seq<string>)
    requires lines != [] && forall line | line in before :: OneLine(line)
    ensures SplitLines(Join(before + lines)) == before + SplitLines(Join(lines))
  {
    if before == [] {
      assert before + lines == lines;
    } else {
      var first, rest := before[0], before[1..];
      Regroup([first], rest, lines);
      assert before == [first] + rest;
      JoinsFirst(first, rest + lines);
      SplitsFirst(first, Join(rest + lines));
      SplitsPrefix(rest, lines);
      Regroup([first], rest, SplitLines(Join(lines)));
    }
  }

  lemma OneLineSplits(line: string)
    requires OneLine(line)
    ensures SplitLines(Join([line])) == if line == "" then [] else [line]
  {
    assert LineEnd(line) == |line|;
  }

  /** Splitting undoes joining, but for an empty last line. */
  lemma SplitUndoesJoin(before: seq<string>, last: string)
    requires OneLine(last) && forall line | line in before :: OneLine(line)
    ensures SplitLines(Join(before + [last])) == if last == "" then before else before + [last]
  {
    SplitsPrefix(before, [last]);
    OneLineSplits(last);
  }

  // --- Quoting ----------------------------------------------------------------------------------

  function Replace(text: string, c: char, with: string): string {
    if text == "" then "" else (if text[0] == c then with else [text[0]]) + Replace(text[1..], c, with)
  }

  function Escape(text: string): string {
    Replace(Replace(Replace(text, '\\', ['\\', '\\']), '"', ['\\', '"']), '\n', ['\\', 'n'])
  }

  function Quote(text: string): string {
    ['"'] + Escape(text) + ['"']
  }

  /** The value of the rest of a double-quoted literal with the escapes that quoting writes. */
  function Body(rest: string): Option<string> {
    if rest == "" then None
    else if rest[0] == '"' then if |rest| == 1 then Some("") else None
    else if rest[0] == '\\' then
      if |rest| < 2 || !(rest[1] == '\\' || rest[1] == '"' || rest[1] == 'n') then None
      else match Body(rest[2..])
           case None => None
           case Some(value) => Some([if rest[1] == 'n' then '\n' else rest[1]] + value)
    else if rest[0] == '\n' || rest[0] == '\r' || rest[0] == '\0' then None
    else match Body(rest[1..])
         case None => None
         case Some(value) => Some([rest[0]] + value)
  }

  function Unquote(text: string): Option<string> {
    if text == "" || text[0] != '"' then None else Body(text[1..])
  }

  /** Text that may be translated: newlines are its only line breaks and it holds no NUL. */
  predicate Clean(text: string) {
    forall c | c in text ::
      && c != '\0' && c != '\r' && c != '\U{b}' && c != '\U{c}' && !('\U{1c}' <= c <= '\U{1e}')
      && c != '\U{85}' && c != '\U{2028}' && c != '\U{2029}'
  }

  function EscapeChar(c: char): string {
    if c == '\\' then ['\\', '\\'] else if c == '"' then ['\\', '"'] else if c == '\n' then ['\\', 'n'] else [c]
  }

  function EscapeEach(text: string): string {
    if text == "" then "" else EscapeChar(text[0]) + EscapeEach(text[1..])
  }

  lemma {:induction false} ReplaceParts(a: string, b: string, c: char, with: string)
    ensures Replace(a + b, c, with) == Replace(a, c, with) + Replace(b, c, with)
  {
    if a == "" {
      assert a + b == b;
    } else {
      assert (a + b)[1..] == a[1..] + b;
      ReplaceParts(a[1..], b, c, with);
    }
  }

  lemma ReplaceOne(a: char, c: char, with: string)
    ensures Replace([a], c, with) == if a == c then with else [a]
  {
    assert [a][1..] == "";
  }

  lemma ReplaceTwo(a: char, b: char, c: char, with: string)
    ensures Replace([a, b], c, with) == (if a == c then with else [a]) + (if b == c then with else [b])
  {
    assert [a, b] == [a] + [b];
    ReplaceParts([a], [b], c, with);
    ReplaceOne(a, c, with);
    ReplaceOne(b, c, with);
  }

  lemma EscapeOne(c: char)
    ensures Escape([c]) == EscapeChar(c)
  {
    ReplaceOne(c, '\\', ['\\', '\\']);
    ReplaceOne(c, '"', ['\\', '"']);
    ReplaceOne(c, '\n', ['\\', 'n']);
    ReplaceTwo('\\', '\\', '"', ['\\', '"']);
    ReplaceTwo('\\', '\\', '\n', ['\\', 'n']);
    ReplaceTwo('\\', '"', '\n', ['\\', 'n']);
  }

  /** The three passes escape character by character: no pass touches what an earlier one wrote. */
  lemma {:induction false} EscapesEach(text: string)
    ensures Escape(text) == EscapeEach(text)
  {
    if text != "" {
      var first, rest := [text[0]], text[1..];
      assert text == first + rest;
      var once := Replace(first, '\\', ['\\', '\\']);
      var restOnce := Replace(rest, '\\', ['\\', '\\']);
      ReplaceParts(first, rest, '\\', ['\\', '\\']);
      ReplaceParts(once, restOnce, '"', ['\\', '"']);
      ReplaceParts(Replace(once, '"', ['\\', '"']), Replace(restOnce, '"', ['\\', '"']), '\n', ['\\', 'n']);
      EscapeOne(text[0]);
      EscapesEach(rest);
    }
  }

  lemma BodyOfChar(c: char, below: string)
    requires c == '\n' || (!IsBreak(c) && c != '\0')
    ensures Body(EscapeChar(c) + below) == match Body(below) case None => None case Some(value) => Some([c] + value)
  {
    var whole := EscapeChar(c) + below;
    assert whole[|EscapeChar(c)|..] == below;
  }

  lemma {:induction false} BodyUndoesEscape(text: string)
    requires Clean(text)
    ensures Body(EscapeEach(text) + ['"']) == Some(text)
  {
    if text != "" {
      var below := EscapeEach(text[1..]) + ['"'];
      assert EscapeEach(text) + ['"'] == EscapeChar(text[0]) + below;
      assert text[0] in text && forall c | c in text[1..] :: c in text;
      BodyUndoesEscape(text[1..]);
      BodyOfChar(text[0], below);
      assert text == [text[0]] + text[1..];
    }
  }

  /** Reading back what quoting wrote gives the text. */
  lemma UnquoteUndoesQuote(text: string)
    requires Clean(text)
    ensures Unquote(Quote(text)) == Some(text)
  {
    EscapesEach(text);
    BodyUndoesEscape(text);
    assert Quote(text)[1..] == EscapeEach(text) + ['"'];
  }

  lemma {:induction false} EscapedOneLine(text: string)
    requires Clean(text)
    ensures OneLine(EscapeEach(text))
  {
    if text != "" {
      assert text[0] in text && forall c | c in text[1..] :: c in text;
      EscapedOneLine(text[1..]);
      forall c | c in EscapeEach(text) ensures !IsBreak(c) {
        assert c in EscapeChar(text[0]) || c in EscapeEach(text[1..]);
      }
    }
  }

  lemma QuotedOneLine(text: string)
    requires Clean(text)
    ensures OneLine(Quote(text))
  {
    EscapesEach(text);
    EscapedOneLine(text);
  }

  // --- Reading ----------------------------------------------------------------------------------

  datatype Current = Nowhere | InId | InText

  datatype Reading = Reading(entries: map<string, string>, id: string, text: string, current: Current)

  const START := Reading(map[], "", "", Nowhere)

  /** The finished entries with the one being read. */
  function Entries(r: Reading): map<string, string> {
    if r.id != "" then r.entries[r.id := r.text] else r.entries
  }

  predicate StartsWith(line: string, prefix: string) {
    |prefix| <= |line| && line[..|prefix|] == prefix
  }

  function ReadLine(r: Reading, raw: string): Option<Reading> {
    var line := Strip(raw);
    if StartsWith(line, "msgid ") then
      match Unquote(line[6..])
      case None => None
      case Some(value) => Some(Reading(Entries(r), value, "", InId))
    else if StartsWith(line, "msgstr ") then
      match Unquote(line[7..])
      case None => None
      case Some(value) => Some(r.(text := value, current := InText))
    else if line != "" && line[0] == '"' && !r.current.Nowhere? then
      match Unquote(line)
      case None => None
      case Some(value) => Some(if r.current.InId? then r.(id := r.id + value) else r.(text := r.text + value))
    else Some(r)
  }

  function ReadLines(r: Reading, lines: seq<string>): Option<Reading>
    decreases |lines|
  {
    if lines == [] then Some(r)
    else match ReadLine(r, lines[0])
         case None => None
         case Some(next) => ReadLines(next, lines[1..])
  }

  const EMPTY_ID := "msgid \"\""

  function Read(text: string): Option<map<string, string>> {
    match ReadLines(START, SplitLines(text) + [EMPTY_ID])
    case None => None
    case Some(r) => Some(r.entries)
  }

  /** read_po: a missing file is an empty catalog, a literal that cannot be read an error. */
  method ReadPo(file: Option<string>) returns (result: Option<map<string, string>>)
    ensures result == if file.None? then Some(map[]) else Read(file.value)
  {
    if file.None? {
      return Some(map[]);
    }
    var lines := SplitLines(file.value) + [EMPTY_ID];
    var entries: map<string, string>, id, text, current := map[], "", "", Nowhere;
    for i := 0 to |lines|
      invariant ReadLines(START, lines) == ReadLines(Reading(entries, id, text, current), lines[i..])
    {
      assert lines[i..][0] == lines[i] && lines[i..][1..] == lines[i + 1..];
      var line := Strip(lines[i]);
      if StartsWith(line, "msgid ") {
        if id != "" {
          entries := entries[id := text];
        }
        var value := Unquote(line[6..]);
        if value.None? {
          return None;
        }
        id, text, current := value.value, "", InId;
      } else if StartsWith(line, "msgstr ") {
        var value := Unquote(line[7..]);
        if value.None? {
          return None;
        }
        text, current := value.value, InText;
      } else if line != "" && line[0] == '"' && !current.Nowhere? {
        var value := Unquote(line);
        if value.None? {
          return None;
        }
        if current.InId? {
          id := id + value.value;
        } else {
          text := text + value.value;
        }
      }
    }
    assert lines[|lines|..] == [];
    return Some(entries);
  }

  // --- Writing ----------------------------------------------------------------------------------

  /** A message and the files it is used in. */
  datatype Message = Message(id: string, paths: seq<string>)

  function Translated(translations: map<string, string>, id: string): string {
    if id in translations then translations[id] else ""
  }

  /** dict.fromkeys: each path once, where it first appears. */
  function Once(paths: seq<string>): (once: seq<string>)
    ensures forall path :: path in once <==> path in paths
  {
    if paths == [] then []
    else
      var last := paths[|paths| - 1];
      var before := Once(paths[..|paths| - 1]);
      assert forall path :: path in paths <==> path == last || path in paths[..|paths| - 1];
      if last in before then before else before + [last]
  }

  function PathLines(paths: seq<string>): seq<string> {
    if paths == [] then [] else ["#: " + paths[0]] + PathLines(paths[1..])
  }

  predicate HasPlaceholder(id: string) {
    exists i :: 0 <= i < |id| - 1 && id[i] == '%' && id[i + 1] == '('
  }

  function Comments(message: Message): seq<string> {
    PathLines(Once(message.paths)) + if HasPlaceholder(message.id) then ["#, python-format"] else []
  }

  function TextLines(id: string, text: string): seq<string> {
    ["msgid " + Quote(id), "msgstr " + Quote(text), ""]
  }

  function EntryLines(message: Message, translations: map<string, string>): seq<string> {
    Comments(message) + TextLines(message.id, Translated(translations, message.id))
  }

  function AllEntryLines(messages: seq<Message>, translations: map<string, string>): seq<string> {
    if messages == [] then [] else EntryLines(messages[0], translations) + AllEntryLines(messages[1..], translations)
  }

  function QuotedLines(headers: seq<string>): seq<string> {
    if headers == [] then [] else [Quote(headers[0] + "\n")] + QuotedLines(headers[1..])
  }

  function HeaderLines(title: string, headers: seq<string>): seq<string> {
    ["# " + title, "msgid " + Quote(""), "msgstr " + Quote("")] + QuotedLines(headers) + [""]
  }

  /** render_po for the messages in the order of their first use; `title` is the comment that names
      the language and `headers` the header lines. */
  function Rendered(title: string, headers: seq<string>, messages: seq<Message>,
                    translations: map<string, string>): string
  {
    Join(HeaderLines(title, headers) + AllEntryLines(messages, translations))
  }

  method RenderPo(title: string, headers: seq<string>, messages: seq<Message>, translations: map<string, string>)
    returns (text: string)
    ensures text == Rendered(title, headers, messages, translations)
  {
    var lines := HeaderLines(title, headers);
    for i := 0 to |messages|
      invariant lines + AllEntryLines(messages[i..], translations)
        == HeaderLines(title, headers) + AllEntryLines(messages, translations)
    {
      var message := messages[i];
      assert messages[i..][0] == message && messages[i..][1..] == messages[i + 1..];
      ghost var before := lines;
      lines := lines + PathLines(Once(message.paths));
      if HasPlaceholder(message.id) {
        lines := lines + ["#, python-format"];
      }
      lines := lines + ["msgid " + Quote(message.id), "msgstr " + Quote(Translated(translations, message.id)), ""];
      Appends(before, message, TextLines(message.id, Translated(translations, message.id)),
              AllEntryLines(messages[i + 1..], translations));
    }
    assert messages[|messages|..] == [] && lines + [] == lines;
    text := Join(lines);
  }

  lemma Appends(before: seq<string>, message: Message, texts: seq<string>, rest: seq<string>)
    ensures var flagged := before + PathLines(Once(message.paths))
                           + if HasPlaceholder(message.id) then ["#, python-format"] else [];
      flagged + texts + rest == before + ((Comments(message) + texts) + rest)
    ensures before + PathLines(Once(message.paths)) + [] == before + PathLines(Once(message.paths))
  {
  }

  // --- What an entry looks like ------------------------------------------------------------------

  lemma {:induction false} OnceKeepsFirsts(paths: seq<string>)
    ensures forall i, j | 0 <= i < j < |Once(paths)| :: Once(paths)[i] != Once(paths)[j]
    ensures paths != [] ==> Once(paths) != [] && Once(paths)[0] == paths[0]
    ensures paths != [] ==> Once(paths[..|paths| - 1]) <= Once(paths)
    decreases |paths|
  {
    if paths != [] {
      var last, before := paths[|paths| - 1], paths[..|paths| - 1];
      OnceKeepsFirsts(before);
    }
  }

  lemma {:induction false} PathLinesNamePaths(paths: seq<string>)
    ensures |PathLines(paths)| == |paths| && forall i | 0 <= i < |paths| :: PathLines(paths)[i] == "#: " + paths[i]
    decreases |paths|
  {
    if paths != [] { PathLinesNamePaths(paths[1..]); }
  }

  /** An entry names each file that uses the message once, says whether the message has placeholders, and ends
      with the message, its translation or nothing, and an empty line. */
  lemma EntriesSayWhatTheyAre(message: Message, translations: map<string, string>)
    ensures var lines, paths := EntryLines(message, translations), Once(message.paths);
      var flagged := exists i :: 0 <= i < |message.id| - 1 && message.id[i] == '%' && message.id[i + 1] == '(';
      var text := if message.id in translations then translations[message.id] else "";
      && |lines| == |paths| + (if flagged then 1 else 0) + 3
      && (forall path :: path in paths <==> path in message.paths)
      && (forall i, j | 0 <= i < j < |paths| :: paths[i] != paths[j])
      && (forall i | 0 <= i < |paths| :: lines[i] == "#: " + paths[i])
      && (flagged ==> lines[|paths|] == "#, python-format")
      && lines[|lines| - 3..] == ["msgid \"" + EscapeEach(message.id) + "\"", "msgstr \"" + EscapeEach(text) + "\"", ""]
  {
    var paths, text := Once(message.paths), Translated(translations, message.id);
    OnceKeepsFirsts(message.paths);
    PathLinesNamePaths(paths);
    TextLinesQuote(message.id, text);
    LastThree(Comments(message), TextLines(message.id, text));
  }

  lemma LastThree(front: seq<string>, back: seq<string>)
    requires |back| == 3
    ensures (front + back)[|front + back| - 3..] == back
  {
  }

  lemma TextLinesQuote(id: string, text: string)
    ensures TextLines(id, text) == ["msgid \"" + EscapeEach(id) + "\"", "msgstr \"" + EscapeEach(text) + "\"", ""]
  {
    EscapesEach(id);
    EscapesEach(text);
    assert "msgid \"" + EscapeEach(id) + "\"" == "msgid " + Quote(id);
    assert "msgstr \"" + EscapeEach(text) + "\"" == "msgstr " + Quote(text);
  }

  lemma {:induction false} QuotedLinesQuote(headers: seq<string>)
    ensures |QuotedLines(headers)| == |headers|
    ensures forall i | 0 <= i < |headers| :: QuotedLines(headers)[i] == "\"" + EscapeEach(headers[i]) + "\\n\""
    decreases |headers|
  {
    if headers != [] {
      QuotedLinesQuote(headers[1..]);
      EscapesEach(headers[0] + "\n");
      EscapeParts(headers[0], "\n");
      assert EscapeEach("\n") == "\\n" by { assert "\n"[1..] == ""; }
      assert "\"" + (EscapeEach(headers[0]) + "\\n") + "\"" == "\"" + EscapeEach(headers[0]) + "\\n\"";
    }
  }

  /** A catalog begins with its title and an empty message whose translation holds the header lines. */
  lemma CatalogsBeginWithTheirHeader(title: string, headers: seq<string>)
    ensures var lines := HeaderLines(title, headers);
      && |lines| == 4 + |headers| && lines[..3] == ["# " + title, "msgid \"\"", "msgstr \"\""]
      && (forall i | 0 <= i < |headers| :: lines[3 + i] == "\"" + EscapeEach(headers[i]) + "\\n\"")
      && lines[|lines| - 1] == ""
  {
    QuotedLinesQuote(headers);
    TextLinesQuote("", "");
    assert EscapeEach("") == "" && "msgid \"" + "" + "\"" == "msgid \"\"" && "msgstr \"" + "" + "\"" == "msgstr \"\"";
    var quoted := QuotedLines(headers);
    var top := ["# " + title, "msgid " + Quote(""), "msgstr " + Quote("")];
    assert TextLines("", "")[0] == "msgid " + Quote("") && TextLines("", "")[1] == "msgstr " + Quote("");
    assert top == ["# " + title, "msgid \"\"", "msgstr \"\""];
    assert HeaderLines(title, headers) == top + quoted + [""];
    assert forall i | 0 <= i < |headers| :: HeaderLines(title, headers)[3 + i] == quoted[i];
  }

  // --- The round trip -----------------------------------------------------------------------------

  lemma {:induction false} ReadParts(r: Reading, a: seq<string>, b: seq<string>)
    decreases |a|
    ensures ReadLines(r, a + b) == match ReadLines(r, a) case None => None case Some(next) => ReadLines(next, b)
  {
    if a == [] {
      assert a + b == b;
    } else {
      assert (a + b)[1..] == a[1..] + b;
      match ReadLine(r, a[0])
      case None =>
      case Some(next) => ReadParts(next, a[1..], b);
    }
  }

  lemma StripKeeps(line: string)
    requires line == "" || (!IsSpace(line[0]) && !IsSpace(line[|line| - 1]))
    ensures Strip(line) == line
  {
  }

  lemma ReadsId(r: Reading, text: string)
    requires Clean(text)
    ensures ReadLine(r, "msgid " + Quote(text)) == Some(Reading(Entries(r), text, "", InId))
  {
    var line := "msgid " + Quote(text);
    StripKeeps(line);
    assert line[..6] == "msgid " && line[6..] == Quote(text);
    UnquoteUndoesQuote(text);
  }

  lemma ReadsText(r: Reading, text: string)
    requires Clean(text)
    ensures ReadLine(r, "msgstr " + Quote(text)) == Some(r.(text := text, current := InText))
  {
    var line := "msgstr " + Quote(text);
    StripKeeps(line);
    assert line[..7] == "msgstr " && line[7..] == Quote(text);
    assert line[4] == 't' && "msgid "[4] == 'd';
    UnquoteUndoesQuote(text);
  }

  /** A literal on a line of its own goes on with the text or the message it follows, and is nothing before the
      first of them. */
  lemma ReadsMore(r: Reading, text: string)
    requires Clean(text)
    ensures ReadLine(r, Quote(text)) == Some(match r.current
      case Nowhere => r
      case InId => r.(id := r.id + text)
      case InText => r.(text := r.text + text))
  {
    var line := Quote(text);
    StripKeeps(line);
    assert line[0] == '"' && "msgid "[0] == 'm' && "msgstr "[0] == 'm';
    UnquoteUndoesQuote(text);
  }

  lemma SkipsBlank(r: Reading)
    ensures ReadLine(r, "") == Some(r)
  {
  }

  lemma {:induction false} StripRightKeepsHead(line: string)
    requires line != "" && !IsSpace(line[0])
    ensures StripRight(line) != "" && StripRight(line)[0] == line[0]
  {
    if IsSpace(line[|line| - 1]) { StripRightKeepsHead(line[..|line| - 1]); }
  }

  lemma SkipsComment(r: Reading, line: string)
    requires line != "" && line[0] == '#'
    ensures ReadLine(r, line) == Some(r)
  {
    StripRightKeepsHead(line);
    assert "msgid "[0] == 'm' && "msgstr "[0] == 'm';
  }

  lemma {:induction false} SkipsPaths(r: Reading, paths: seq<string>)
    ensures ReadLines(r, PathLines(paths)) == Some(r)
  {
    if paths != [] {
      SkipsComment(r, "#: " + paths[0]);
      SkipsPaths(r, paths[1..]);
    }
  }

  lemma SkipsComments(r: Reading, message: Message)
    ensures ReadLines(r, Comments(message)) == Some(r)
  {
    var paths := PathLines(Once(message.paths));
    SkipsPaths(r, Once(message.paths));
    if HasPlaceholder(message.id) {
      SkipsComment(r, "#, python-format");
      ReadParts(r, paths, ["#, python-format"]);
      assert ReadLines(r, ["#, python-format"]) == Some(r) by { assert ["#, python-format"][1..] == []; }
    } else {
      assert paths + [] == paths;
    }
  }

  lemma {:induction false} ReadsHeaders(r: Reading, headers: seq<string>)
    requires r.current.InText? && forall header | header in headers :: Clean(header)
    ensures ReadLines(r, QuotedLines(headers)).Some?
    ensures var next := ReadLines(r, QuotedLines(headers)).value;
      next.id == r.id && next.entries == r.entries && next.current == InText
    decreases |headers|
  {
    if headers != [] {
      assert headers[0] in headers && forall header | header in headers[1..] :: header in headers;
      ReadsMore(r, headers[0] + "\n");
      ReadsHeaders(r.(text := r.text + (headers[0] + "\n")), headers[1..]);
    }
  }

  lemma ReadsHeader(title: string, headers: seq<string>)
    requires forall header | header in headers :: Clean(header)
    ensures ReadLines(START, HeaderLines(title, headers)).Some?
    ensures var r := ReadLines(START, HeaderLines(title, headers)).value; r.id == "" && r.entries == map[]
  {
    var top := ["# " + title, "msgid " + Quote(""), "msgstr " + Quote("")];
    SkipsComment(START, top[0]);
    ReadsId(START, "");
    var inId := Reading(map[], "", "", InId);
    ReadsText(inId, "");
    var inText := inId.(current := InText);
    assert top[1..] == [top[1], top[2]] && top[1..][1..] == [top[2]] && [top[2]][1..] == [];
    assert ReadLines(inId, [top[2]]) == Some(inText);
    assert ReadLines(START, top) == Some(inText);
    ReadsHeaders(inText, headers);
    ReadParts(START, top, QuotedLines(headers));
    ReadParts(START, top + QuotedLines(headers), [""]);
    var r := ReadLines(inText, QuotedLines(headers)).value;
    SkipsBlank(r);
    assert ReadLines(r, [""]) == Some(r) by { assert [""][1..] == []; }
  }

  function AfterEntry(r: Reading, message: Message, translations: map<string, string>): Reading {
    Reading(Entries(r), message.id, Translated(translations, message.id), InText)
  }

  lemma ReadsEntry(r: Reading, message: Message, translations: map<string, string>)
    requires Clean(message.id) && Clean(Translated(translations, message.id))
    ensures ReadLines(r, EntryLines(message, translations))
         == Some(AfterEntry(r, message, translations))
  {
    var text := Translated(translations, message.id);
    SkipsComments(r, message);
    ReadParts(r, Comments(message), TextLines(message.id, text));
    ReadsTexts(r, message.id, text);
  }

  lemma ReadsTexts(r: Reading, id: string, text: string)
    requires Clean(id) && Clean(text)
    ensures ReadLines(r, TextLines(id, text)) == Some(Reading(Entries(r), id, text, InText))
  {
    var lines := TextLines(id, text);
    ReadsId(r, id);
    var inId := Reading(Entries(r), id, "", InId);
    ReadsText(inId, text);
    var done := inId.(text := text, current := InText);
    SkipsBlank(done);
    assert lines[1..] == [lines[1], ""] && lines[1..][1..] == [""] && [""][1..] == [];
    assert ReadLines(done, [""]) == Some(done);
    assert ReadLines(inId, lines[1..]) == Some(done);
  }

  function Entry(message: Message, translations: map<string, string>): map<string, string> {
    if message.id != "" then map[message.id := Translated(translations, message.id)] else map[]
  }

  function CatalogOf(messages: seq<Message>, translations: map<string, string>): map<string, string> {
    if messages == [] then map[] else Entry(messages[0], translations) + CatalogOf(messages[1..], translations)
  }

  /** What is read back: every message that is not empty, with its translation. */
  lemma {:induction false} CatalogHolds(messages: seq<Message>, translations: map<string, string>, id: string)
    ensures id in CatalogOf(messages, translations)
      <==> id != "" && exists message :: message in messages && message.id == id
    ensures id in CatalogOf(messages, translations) ==>
      CatalogOf(messages, translations)[id] == Translated(translations, id)
  {
    if messages != [] {
      CatalogHolds(messages[1..], translations, id);
      assert forall message :: message in messages <==> message == messages[0] || message in messages[1..];
    }
  }

  ghost predicate AllClean(messages: seq<Message>, translations: map<string, string>) {
    forall message | message in messages ::
      Clean(message.id) && Clean(Translated(translations, message.id))
        && forall path | path in message.paths :: OneLine(path)
  }

  lemma {:induction false} ReadsEntries(r: Reading, messages: seq<Message>, translations: map<string, string>)
    returns (done: Reading)
    requires AllClean(messages, translations)
    ensures ReadLines(r, AllEntryLines(messages, translations)) == Some(done)
    ensures Entries(done) == Entries(r) + CatalogOf(messages, translations)
    decreases |messages|
  {
    if messages == [] {
      assert Entries(r) + map[] == Entries(r);
      done := r;
    } else {
      var first, rest := messages[0], messages[1..];
      assert first in messages && forall message | message in rest :: message in messages;
      ReadsEntry(r, first, translations);
      done := ReadsEntries(AfterEntry(r, first, translations), rest, translations);
      ReadParts(r, EntryLines(first, translations), AllEntryLines(rest, translations));
      EntryMerges(r, first, translations, CatalogOf(rest, translations));
    }
  }

  lemma EntryMerges(r: Reading, message: Message, translations: map<string, string>, rest: map<string, string>)
    ensures Entries(AfterEntry(r, message, translations)) + rest == Entries(r) + (Entry(message, translations) + rest)
  {
  }

  // --- Every line is one line -----------------------------------------------------------------------

  lemma {:induction false} PathLinesAreLines(paths: seq<string>)
    requires forall path | path in paths :: OneLine(path)
    ensures forall line | line in PathLines(paths) :: OneLine(line)
  {
    if paths != [] {
      assert paths[0] in paths && forall path | path in paths[1..] :: path in paths;
      PathLinesAreLines(paths[1..]);
      PrefixedLine("#: ", paths[0]);
    }
  }

  lemma PrefixedLine(prefix: string, text: string)
    requires OneLine(prefix) && OneLine(text)
    ensures OneLine(prefix + text)
  {
    forall c | c in prefix + text ensures !IsBreak(c) {
      assert c in prefix || c in text;
    }
  }

  lemma CommentsAreLines(message: Message)
    requires forall path | path in message.paths :: OneLine(path)
    ensures forall line | line in Comments(message) :: OneLine(line)
  {
    PathLinesAreLines(Once(message.paths));
  }

  lemma EntryLinesAreLines(message: Message, translations: map<string, string>)
    requires Clean(message.id) && Clean(Translated(translations, message.id))
      && forall path | path in message.paths :: OneLine(path)
    ensures forall line | line in EntryLines(message, translations) :: OneLine(line)
  {
    CommentsAreLines(message);
    QuotedOneLine(message.id);
    QuotedOneLine(Translated(translations, message.id));
    PrefixedLine("msgid ", Quote(message.id));
    PrefixedLine("msgstr ", Quote(Translated(translations, message.id)));
    LinesAndLines(Comments(message), TextLines(message.id, Translated(translations, message.id)));
  }

  lemma {:induction false} AllEntryLinesAreLines(messages: seq<Message>, translations: map<string, string>)
    requires AllClean(messages, translations)
    ensures forall line | line in AllEntryLines(messages, translations) :: OneLine(line)
  {
    if messages != [] {
      assert messages[0] in messages && forall message | message in messages[1..] :: message in messages;
      EntryLinesAreLines(messages[0], translations);
      AllEntryLinesAreLines(messages[1..], translations);
    }
  }

  lemma {:induction false} QuotedLinesAreLines(headers: seq<string>)
    requires forall header | header in headers :: Clean(header)
    ensures forall line | line in QuotedLines(headers) :: OneLine(line)
  {
    if headers != [] {
      assert headers[0] in headers && forall header | header in headers[1..] :: header in headers;
      QuotedOneLine(headers[0] + "\n");
      QuotedLinesAreLines(headers[1..]);
    }
  }

  lemma HeaderLinesAreLines(title: string, headers: seq<string>)
    requires OneLine(title) && forall header | header in headers :: Clean(header)
    ensures forall line | line in HeaderLines(title, headers) :: OneLine(line)
  {
    PrefixedLine("# ", title);
    QuotedOneLine("");
    PrefixedLine("msgid ", Quote(""));
    PrefixedLine("msgstr ", Quote(""));
    QuotedLinesAreLines(headers);
  }

  /** Reading a rendered catalog gives back every message that is not empty. */
  lemma ReadUndoesRender(title: string, headers: seq<string>, messages: seq<Message>, translations: map<string, string>)
    requires OneLine(title) && AllClean(messages, translations) && forall header | header in headers :: Clean(header)
    ensures Read(Rendered(title, headers, messages, translations)) == Some(CatalogOf(messages, translations))
    ensures forall id :: id in CatalogOf(messages, translations)
              <==> id != "" && exists message :: message in messages && message.id == id
    ensures forall id | id in CatalogOf(messages, translations) ::
      CatalogOf(messages, translations)[id] == Translated(translations, id)
  {
    var head, entries := HeaderLines(title, headers), AllEntryLines(messages, translations);
    HeaderLinesAreLines(title, headers);
    AllEntryLinesAreLines(messages, translations);
    ReadsHeader(title, headers);
    var r := ReadLines(START, head).value;
    var done := ReadsEntries(r, messages, translations);
    ReadParts(START, head, entries);
    assert Entries(r) == map[];
    assert map[] + CatalogOf(messages, translations) == CatalogOf(messages, translations);
    ReadsJoined(head + entries, done);
    forall id
      ensures id in CatalogOf(messages, translations)
        <==> id != "" && exists message :: message in messages && message.id == id
      ensures id in CatalogOf(messages, translations) ==>
        CatalogOf(messages, translations)[id] == Translated(translations, id)
    {
      CatalogHolds(messages, translations, id);
    }
  }

  lemma ReadsJoined(lines: seq<string>, done: Reading)
    requires lines != [] && forall line | line in lines :: OneLine(line)
    requires ReadLines(START, lines) == Some(done)
    ensures Read(Join(lines)) == Some(Entries(done))
  {
    ReadsSplit(lines, done);
    Finishes(SplitLines(Join(lines)), done);
  }

  lemma ReadsSplit(lines: seq<string>, done: Reading)
    requires lines != [] && forall line | line in lines :: OneLine(line)
    requires ReadLines(START, lines) == Some(done)
    ensures ReadLines(START, SplitLines(Join(lines))) == Some(done)
  {
    var before, last := lines[..|lines| - 1], lines[|lines| - 1];
    assert lines == before + [last] && last in lines;
    SplitUndoesJoin(before, last);
    LastBlankIsIdle(START, lines);
  }

  lemma Finishes(lines: seq<string>, done: Reading)
    requires ReadLines(START, lines) == Some(done)
    ensures ReadLines(START, lines + [EMPTY_ID]) == Some(Reading(Entries(done), "", "", InId))
  {
    ReadParts(START, lines, [EMPTY_ID]);
    EmptyIdIsQuoted();
    ReadsId(done, "");
    assert [EMPTY_ID][1..] == [];
  }

  lemma EmptyIdIsQuoted()
    ensures EMPTY_ID == "msgid " + Quote("")
  {
    assert Escape("") == "";
  }

  lemma LastBlankIsIdle(r: Reading, lines: seq<string>)
    requires lines != []
    ensures lines[|lines| - 1] == "" ==> ReadLines(r, lines) == ReadLines(r, lines[..|lines| - 1])
  {
    var before := lines[..|lines| - 1];
    assert lines == before + [lines[|lines| - 1]];
    ReadParts(r, before, [lines[|lines| - 1]]);
    match ReadLines(r, before)
    case None =>
    case Some(next) =>
      SkipsBlank(next);
      assert [lines[|lines| - 1]][1..] == [];
  }

  // --- Exactly which catalogs survive -----------------------------------------------------------------

  predicate TextsClean(message: Message, translations: map<string, string>) {
    Clean(message.id) && Clean(Translated(translations, message.id))
  }

  /** A literal cut short, or cut by a NUL, cannot be read. */
  lemma {:induction false} NoClosingQuote(text: string, rest: string, n: nat)
    requires Clean(text) && (rest == "" || rest[0] == '\0') && n <= |EscapeEach(text) + rest|
    ensures Body((EscapeEach(text) + rest)[..n]) == None
  {
    if text == "" {
      assert EscapeEach(text) + rest == rest;
      assert n > 0 ==> rest[..n][0] == rest[0];
    } else {
      var c, below := text[0], EscapeEach(text[1..]) + rest;
      assert c in text && forall x | x in text[1..] :: x in text;
      assert EscapeEach(text) + rest == EscapeChar(c) + below;
      if n >= |EscapeChar(c)| {
        NoClosingQuote(text[1..], rest, n - |EscapeChar(c)|);
        CutBelow(EscapeChar(c), below, n);
        BodyOfChar(c, below[..n - |EscapeChar(c)|]);
      } else {
        CutAbove(EscapeChar(c), below, n);
        CutEscapeFails(c, n);
      }
    }
  }

  lemma CutBelow(a: string, b: string, n: nat)
    requires |a| <= n <= |a| + |b|
    ensures (a + b)[..n] == a + b[..n - |a|]
  {
  }

  lemma CutAbove(a: string, b: string, n: nat)
    requires n <= |a|
    ensures (a + b)[..n] == a[..n]
  {
  }

  lemma CutEscapeFails(c: char, n: nat)
    requires n < |EscapeChar(c)|
    ensures Body(EscapeChar(c)[..n]) == None
  {
  }

  function FirstUnclean(text: string): (i: nat)
    ensures i <= |text| && Clean(text[..i]) && (i == |text| ==> Clean(text))
    ensures i < |text| ==> text[i] != '\n' && (IsBreak(text[i]) || text[i] == '\0')
  {
    if text == "" || (text[0] != '\n' && (IsBreak(text[0]) || text[0] == '\0')) then 0
    else
      var i := 1 + FirstUnclean(text[1..]);
      assert text[..i] == [text[0]] + text[1..][..i - 1] && text == [text[0]] + text[1..];
      i
  }

  lemma {:induction false} EscapeParts(a: string, b: string)
    ensures EscapeEach(a + b) == EscapeEach(a) + EscapeEach(b)
  {
    if a == "" {
      assert a + b == b;
    } else {
      assert (a + b)[1..] == a[1..] + b;
      EscapeParts(a[1..], b);
    }
  }

  lemma EscapesFirst(c: char, after: string)
    ensures EscapeEach([c] + after) == EscapeChar(c) + EscapeEach(after)
  {
    assert ([c] + after)[1..] == after;
  }

  lemma UncleanAt(text: string) returns (before: string, c: char, after: string)
    requires !Clean(text)
    ensures Clean(before) && c != '\n' && (IsBreak(c) || c == '\0')
    ensures EscapeEach(text) == EscapeEach(before) + [c] + EscapeEach(after)
  {
    var i := FirstUnclean(text);
    before, c, after := text[..i], text[i], text[i + 1..];
    CutAt(text, i);
    EscapeParts(before, [c] + after);
    EscapesFirst(c, after);
    Reattach(EscapeEach(before), [c], EscapeEach(after));
  }

  lemma CutAt(text: string, i: nat)
    requires i < |text|
    ensures text == text[..i] + ([text[i]] + text[i + 1..])
  {
  }

  lemma Reattach(a: string, b: string, c: string)
    ensures a + (b + c) == (a + b) + c
  {
  }

  lemma {:induction false} StripRightIsPrefix(line: string, kept: nat)
    requires kept < |line| && !IsSpace(line[kept])
    ensures kept < |StripRight(line)| <= |line| && StripRight(line) == line[..|StripRight(line)|]
  {
    if IsSpace(line[|line| - 1]) {
      StripRightIsPrefix(line[..|line| - 1], kept);
      var stripped := StripRight(line[..|line| - 1]);
      assert line[..|line| - 1][..|stripped|] == line[..|stripped|];
    }
  }

  predicate IsKeyword(keyword: string) {
    keyword == "msgid " || keyword == "msgstr "
  }

  lemma BrokenLiteralFails(r: Reading, keyword: string, text: string, rest: string)
    requires IsKeyword(keyword) && Clean(text) && (rest == "" || rest[0] == '\0')
    ensures ReadLine(r, keyword + ['"'] + (EscapeEach(text) + rest)) == None
  {
    var k, whole := |keyword|, EscapeEach(text) + rest;
    var line := keyword + ['"'] + whole;
    assert line[0] == 'm' && line[k] == '"';
    StripRightIsPrefix(line, k);
    var n := |StripRight(line)| - k - 1;
    CutLine(keyword, whole, n);
    NoClosingQuote(text, rest, n);
    var literal := ['"'] + whole[..n];
    assert literal[1..] == whole[..n];
    LiteralFails(r, line, keyword, literal);
  }

  lemma CutLine(keyword: string, whole: string, n: nat)
    requires n <= |whole|
    ensures (keyword + ['"'] + whole)[..|keyword| + 1 + n] == keyword + (['"'] + whole[..n])
  {
  }

  lemma LiteralFails(r: Reading, line: string, keyword: string, literal: string)
    requires IsKeyword(keyword) && Strip(line) == keyword + literal && Unquote(literal) == None
    ensures ReadLine(r, line) == None
  {
    var stripped := Strip(line);
    assert stripped[..|keyword|] == keyword && stripped[|keyword|..] == literal;
    assert keyword == "msgstr " ==> stripped[4] == 't';
    assert "msgid "[4] == 'd';
  }

  lemma FirstLineFails(before: seq<string>, r: Reading, lines: seq<string>)
    requires ReadLines(START, before) == Some(r) && lines != [] && forall line | line in before :: OneLine(line)
    requires SplitLines(Join(lines)) != [] && ReadLine(r, SplitLines(Join(lines))[0]) == None
    ensures Read(Join(before + lines)) == None
  {
    SplitsPrefix(before, lines);
    LineFails(before, r, SplitLines(Join(lines)));
  }

  lemma LineFails(before: seq<string>, r: Reading, lines: seq<string>)
    requires ReadLines(START, before) == Some(r) && lines != [] && ReadLine(r, lines[0]) == None
    ensures ReadLines(START, before + lines + [EMPTY_ID]) == None
  {
    ReadParts(START, before, lines + [EMPTY_ID]);
    Regroup(before, lines, [EMPTY_ID]);
    assert (lines + [EMPTY_ID])[0] == lines[0];
  }

  /** The line an unclean text is written to breaks off inside its literal. */
  lemma UncleanLineFails(before: seq<string>, r: Reading, keyword: string, text: string, after: seq<string>)
    requires IsKeyword(keyword) && !Clean(text) && after != []
    requires ReadLines(START, before) == Some(r) && forall line | line in before :: OneLine(line)
    ensures Read(Join(before + ([keyword + Quote(text)] + after))) == None
  {
    var clean, broken := UncleanLineBreaks(keyword, text, after);
    BrokenLiteralFails(r, keyword, clean, broken);
    FirstLineFails(before, r, [keyword + Quote(text)] + after);
  }

  lemma UncleanLineBreaks(keyword: string, text: string, after: seq<string>) returns (clean: string, broken: string)
    requires IsKeyword(keyword) && !Clean(text) && after != []
    ensures Clean(clean) && (broken == "" || broken[0] == '\0')
    ensures var split := SplitLines(Join([keyword + Quote(text)] + after));
      split != [] && split[0] == keyword + ['"'] + (EscapeEach(clean) + broken)
  {
    var c, rest;
    clean, c, rest := UncleanAt(text);
    EscapesEach(text);
    JoinsFirst(keyword + Quote(text), after);
    Recut(keyword, EscapeEach(clean), [c], EscapeEach(rest), Join(after));
    StartIsOneLine(keyword, clean);
    broken := BrokenLine(keyword + ['"'] + EscapeEach(clean), [c] + EscapeEach(rest) + ['"'] + "\n" + Join(after));
    Reattach(keyword + ['"'], EscapeEach(clean), broken);
  }

  lemma Recut(keyword: string, before: string, c: string, rest: string, after: string)
    ensures (keyword + (['"'] + (before + c + rest) + ['"'])) + "\n" + after
         == (keyword + ['"'] + before) + (c + rest + ['"'] + "\n" + after)
  {
  }

  lemma LinesAndLines(a: seq<string>, b: seq<string>)
    requires (forall line | line in a :: OneLine(line)) && forall line | line in b :: OneLine(line)
    ensures forall line | line in a + b :: OneLine(line)
  {
  }

  lemma StartIsOneLine(keyword: string, text: string)
    requires IsKeyword(keyword) && Clean(text)
    ensures OneLine(keyword + ['"'] + EscapeEach(text))
  {
    EscapedOneLine(text);
    PrefixedLine(keyword + ['"'], EscapeEach(text));
  }

  lemma BrokenLine(start: string, tail: string) returns (broken: string)
    requires OneLine(start) && tail != "" && (IsBreak(tail[0]) || tail[0] == '\0')
    ensures broken == "" || broken[0] == '\0'
    ensures SplitLines(start + tail) != [] && SplitLines(start + tail)[0] == start + broken
  {
    var text := start + tail;
    var end := LineEnd(text);
    assert text[|start|] == tail[0];
    assert forall i | 0 <= i < |start| :: text[i] == start[i] && start[i] in start;
    assert end >= |start|;
    broken := text[|start|..end];
    assert text[..end] == start + broken;
  }

  lemma {:induction false} UncleanFails(before: seq<string>, r: Reading, messages: seq<Message>,
                                        translations: map<string, string>)
    requires ReadLines(START, before) == Some(r) && forall line | line in before :: OneLine(line)
    requires forall message | message in messages :: forall path | path in message.paths :: OneLine(path)
    requires exists message :: message in messages && !TextsClean(message, translations)
    ensures Read(Join(before + AllEntryLines(messages, translations))) == None
    decreases |messages|
  {
    var first, rest := messages[0], messages[1..];
    var restLines := AllEntryLines(rest, translations);
    assert forall message :: message in messages <==> message == first || message in rest;
    if TextsClean(first, translations) {
      var lines := EntryLines(first, translations);
      ReadsEntry(r, first, translations);
      ReadParts(START, before, lines);
      EntryLinesAreLines(first, translations);
      UncleanFails(before + lines, AfterEntry(r, first, translations), rest, translations);
      Regroup(before, lines, restLines);
    } else {
      UncleanEntryFails(before, r, first, translations, restLines);
    }
  }

  lemma UncleanEntryFails(before: seq<string>, r: Reading, message: Message, translations: map<string, string>,
                          after: seq<string>)
    requires ReadLines(START, before) == Some(r) && forall line | line in before :: OneLine(line)
    requires !TextsClean(message, translations) && forall path | path in message.paths :: OneLine(path)
    ensures Read(Join(before + (EntryLines(message, translations) + after))) == None
  {
    var texts := TextLines(message.id, Translated(translations, message.id));
    SkipsComments(r, message);
    ReadParts(START, before, Comments(message));
    CommentsAreLines(message);
    LinesAndLines(before, Comments(message));
    UncleanTextFails(before + Comments(message), r, message.id, Translated(translations, message.id), after);
    EntryParts(before, Comments(message), texts, after);
  }

  lemma EntryParts(before: seq<string>, comments: seq<string>, texts: seq<string>, after: seq<string>)
    ensures (before + comments) + (texts + after) == before + ((comments + texts) + after)
  {
  }

  lemma ThreeLines(before: seq<string>, a: string, b: string, after: seq<string>)
    ensures [a] + ([b, ""] + after) == [a, b, ""] + after
    ensures (before + [a]) + ([b] + ([""] + after)) == before + ([a, b, ""] + after)
  {
  }

  lemma UncleanTextFails(before: seq<string>, r: Reading, id: string, text: string, after: seq<string>)
    requires ReadLines(START, before) == Some(r) && forall line | line in before :: OneLine(line)
    requires !Clean(id) || !Clean(text)
    ensures Read(Join(before + (TextLines(id, text) + after))) == None
  {
    var idLine, textLine := "msgid " + Quote(id), "msgstr " + Quote(text);
    if !Clean(id) {
      UncleanLineFails(before, r, "msgid ", id, [textLine, ""] + after);
      ThreeLines(before, idLine, textLine, after);
    } else {
      ReadsId(r, id);
      QuotedOneLine(id);
      PrefixedLine("msgid ", Quote(id));
      var inId := Reading(Entries(r), id, "", InId);
      assert ReadLines(r, [idLine]) == Some(inId) by { assert [idLine][1..] == []; }
      ReadParts(START, before, [idLine]);
      UncleanLineFails(before + [idLine], inId, "msgstr ", text, [""] + after);
      ThreeLines(before, idLine, textLine, after);
    }
  }

  /** A catalog survives being written and read exactly when every message and translation has no
      line break but newlines and no NUL; otherwise reading it is an error. */
  lemma SurvivesExactlyWhenClean(title: string, headers: seq<string>, messages: seq<Message>,
                                 translations: map<string, string>)
    requires OneLine(title) && forall header | header in headers :: Clean(header)
    requires forall message | message in messages :: forall path | path in message.paths :: OneLine(path)
    ensures Read(Rendered(title, headers, messages, translations))
         == if forall message | message in messages :: TextsClean(message, translations)
           then Some(CatalogOf(messages, translations)) else None
  {
    if forall message | message in messages :: TextsClean(message, translations) {
      ReadUndoesRender(title, headers, messages, translations);
    } else {
      HeaderLinesAreLines(title, headers);
      ReadsHeader(title, headers);
      UncleanFails(HeaderLines(title, headers), ReadLines(START, HeaderLines(title, headers)).value, messages,
                   translations);
    }
  }
}
