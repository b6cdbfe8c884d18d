/** One saved line: fields escaped and joined by a delimiter, split back by a backslash
    state machine; and one saved file: lines each ended by a newline. */
module LineCodec {

  const BACKSLASH: char := '\\'
  const NEWLINE: char := '\n'
  const RETURN: char := '\r'

  /** The delimiters for which the line codec is lossless. */
  predicate GoodDelimiter(d: char) {
    d != BACKSLASH && d != 'n' && d != 'r'
  }

  // ---- Escaping and joining ----

  function EscapeChar(c: char, d: char): string {
    if c == BACKSLASH || c == d then [BACKSLASH, c]
    else if c == NEWLINE then [BACKSLASH, 'n']
    else if c == RETURN then [BACKSLASH, 'r']
    else [c]
  }

  function Escape(value: string, d: char): string {
    if value == [] then []
    else Escape(value[..|value| - 1], d) + EscapeChar(value[|value| - 1], d)
  }

  function Join(fields: seq<string>, d: char): string {
    if fields == [] then []
    else if |fields| == 1 then Escape(fields[0], d)
    else Join(fields[..|fields| - 1], d) + [d] + Escape(fields[|fields| - 1], d)
  }

  method EscapeField(value: string, d: char) returns (escaped: string)
    ensures escaped == Escape(value, d)
  {
    escaped := [];
    for i := 0 to |value|
      invariant escaped == Escape(value[..i], d)
    {
      var character := value[i];
      assert value[..i + 1][..i] == value[..i];
      if character == BACKSLASH || character == d {
        escaped := escaped + [BACKSLASH];
        escaped := escaped + [character];
        assert [BACKSLASH] + [character] == [BACKSLASH, character];
        continue;
      }
      if character == NEWLINE {
        escaped := escaped + [BACKSLASH, 'n'];
        continue;
      }
      if character == RETURN {
        escaped := escaped + [BACKSLASH, 'r'];
        continue;
      }
      escaped := escaped + [character];
    }
    assert value[..|value|] == value;
  }

  method JoinEscapedFields(fields: seq<string>, d: char) returns (line: string)
    ensures line == Join(fields, d)
  {
    line := [];
    for index := 0 to |fields|
      invariant line == Join(fields[..index], d)
    {
      assert fields[..index + 1][..index] == fields[..index];
      if index > 0 {
        line := line + [d];
      }
      var escaped := EscapeField(fields[index], d);
      line := line + escaped;
    }
    assert fields[..|fields|] == fields;
  }

  // ---- Splitting ----

  datatype Splitter = Splitter(fields: seq<string>, current: string, escaping: bool)

  const Start := Splitter([], [], false)

  function Feed(st: Splitter, c: char, d: char): Splitter {
    if st.escaping then
      st.(current := st.current + [if c == 'n' then NEWLINE else if c == 'r' then RETURN else c], escaping := false)
    else if c == BACKSLASH then st.(escaping := true)
    else if c == d then Splitter(st.fields + [st.current], [], false)
    else st.(current := st.current + [c])
  }

  function FeedAll(st: Splitter, line: string, d: char): Splitter {
    if line == [] then st else Feed(FeedAll(st, line[..|line| - 1], d), line[|line| - 1], d)
  }

  function Finish(st: Splitter): seq<string> {
    st.fields + [if st.escaping then st.current + [BACKSLASH] else st.current]
  }

  function Split(line: string, d: char): (fields: seq<string>)
    ensures |fields| >= 1
  {
    Finish(FeedAll(Start, line, d))
  }

  method SplitEscapedLine(line: string, d: char) returns (fields: seq<string>)
    ensures fields == Split(line, d)
  {
    fields := [];
    var currentField: string := [];
    var escaping := false;
    for i := 0 to |line|
      invariant Splitter(fields, currentField, escaping) == FeedAll(Start, line[..i], d)
    {
      var character := line[i];
      assert line[..i + 1][..i] == line[..i];
      if escaping {
        match character {
          case 'n' => currentField := currentField + [NEWLINE];
          case 'r' => currentField := currentField + [RETURN];
          case _ => currentField := currentField + [character];
        }
        escaping := false;
        continue;
      }
      if character == BACKSLASH {
        escaping := true;
        continue;
      }
      if character == d {
        fields := fields + [currentField];
        currentField := [];
        continue;
      }
      currentField := currentField + [character];
    }
    assert line[..|line|] == line;
    if escaping {
      currentField := currentField + [BACKSLASH];
    }
    fields := fields + [currentField];
  }

  // ---- Split after join is the identity ----

  lemma {:induction false} FeedAppend(st: Splitter, a: string, b: string, d: char)
    ensures FeedAll(st, a + b, d) == FeedAll(FeedAll(st, a, d), b, d)
  {
    if b == [] {
      assert a + b == a;
    } else {
      FeedAppend(st, a, b[..|b| - 1], d);
      assert (a + b)[..|a + b| - 1] == a + b[..|b| - 1];
    }
  }

  lemma {:induction false} FeedOne(st: Splitter, c: char, d: char)
    ensures FeedAll(st, [c], d) == Feed(st, c, d)
  {
    assert [c][..0] == [];
    assert FeedAll(st, [c][..0], d) == st;
  }

  lemma {:induction false} FeedEscapedChar(st: Splitter, c: char, d: char)
    requires GoodDelimiter(d) && !st.escaping
    ensures FeedAll(st, EscapeChar(c, d), d) == st.(current := st.current + [c])
  {
    var e := EscapeChar(c, d);
    if |e| == 1 {
      FeedOne(st, c, d);
    } else {
      FeedOne(st, e[0], d);
      FeedOne(Feed(st, e[0], d), e[1], d);
      FeedAppend(st, [e[0]], [e[1]], d);
      assert e == [e[0]] + [e[1]];
    }
  }

  lemma {:induction false} FeedEscaped(st: Splitter, value: string, d: char)
    requires GoodDelimiter(d) && !st.escaping
    ensures FeedAll(st, Escape(value, d), d) == st.(current := st.current + value)
  {
    if value == [] {
      assert st.current + value == st.current;
    } else {
      var front, c := value[..|value| - 1], value[|value| - 1];
      FeedEscaped(st, front, d);
      FeedAppend(st, Escape(front, d), EscapeChar(c, d), d);
      FeedEscapedChar(st.(current := st.current + front), c, d);
      assert st.current + front + [c] == st.current + value;
    }
  }

  lemma {:induction false} FeedJoined(fields: seq<string>, d: char)
    requires GoodDelimiter(d) && fields != []
    ensures FeedAll(Start, Join(fields, d), d) == Splitter(fields[..|fields| - 1], fields[|fields| - 1], false)
  {
    var front, field := fields[..|fields| - 1], fields[|fields| - 1];
    if front == [] {
      FeedEscaped(Start, field, d);
    } else {
      FeedJoined(front, d);
      var mid := FeedAll(Start, Join(front, d), d);
      FeedOne(mid, d, d);
      FeedAppend(Start, Join(front, d), [d], d);
      FeedAppend(Start, Join(front, d) + [d], Escape(field, d), d);
      assert front[..|front| - 1] + [front[|front| - 1]] == front;
      FeedEscaped(Splitter(front, [], false), field, d);
    }
  }

  lemma {:induction false} SplitJoin(fields: seq<string>, d: char)
    requires GoodDelimiter(d) && fields != []
    ensures Split(Join(fields, d), d) == fields
  {
    FeedJoined(fields, d);
    assert fields[..|fields| - 1] + [fields[|fields| - 1]] == fields;
  }

  /** The codec is lossless on every non-empty field list exactly for the good delimiters. */
  lemma {:induction false} LosslessDelimiters(d: char)
    ensures GoodDelimiter(d) <==> (forall fields: seq<string> :: fields != [] ==> Split(Join(fields, d), d) == fields)
  {
    if GoodDelimiter(d) {
      forall fields: seq<string> | fields != [] ensures Split(Join(fields, d), d) == fields {
        SplitJoin(fields, d);
      }
    } else {
      LossyDelimiter(d);
    }
  }

  lemma {:induction false} LossyDelimiter(d: char)
    requires !GoodDelimiter(d)
    ensures exists fields: seq<string> :: fields != [] && Split(Join(fields, d), d) != fields
  {
    if d == BACKSLASH {
      var fields: seq<string> := ["", ""];
      assert fields[..1] == [""] && Escape("", d) == "";
      assert Join(fields[..1], d) == "";
      assert Join(fields, d) == [BACKSLASH];
      FeedOne(Start, BACKSLASH, d);
      assert |Split(Join(fields, d), d)| == 1;
    } else {
      var fields: seq<string> := [[d]];
      assert [d][..0] == [] && Escape([d][..0], d) == [];
      assert Join(fields, d) == [BACKSLASH, d];
      FeedOne(Start, BACKSLASH, d);
      FeedOne(Feed(Start, BACKSLASH, d), d, d);
      FeedAppend(Start, [BACKSLASH], [d], d);
      assert [BACKSLASH] + [d] == [BACKSLASH, d];
      assert Split(Join(fields, d), d)[0] == (if d == 'n' then [NEWLINE] else [RETURN]);
    }
  }

  /** Join is injective, and a line that was split and joined again splits the same way. */
  lemma {:induction false} JoinInjective(a: seq<string>, b: seq<string>, line: string, d: char)
    requires GoodDelimiter(d)
    ensures a != [] && b != [] && Join(a, d) == Join(b, d) ==> a == b
    ensures Split(Join(Split(line, d), d), d) == Split(line, d)
  {
    if a != [] && b != [] {
      SplitJoin(a, d);
      SplitJoin(b, d);
    }
    SplitJoin(Split(line, d), d);
  }

  // ---- Lines and files ----

  lemma {:induction false} EscapedHasNoNewline(value: string, d: char)
    requires d != NEWLINE
    ensures NEWLINE !in Escape(value, d)
  {
    if value != [] {
      EscapedHasNoNewline(value[..|value| - 1], d);
    }
  }

  lemma {:induction false} JoinedHasNoNewline(fields: seq<string>, d: char)
    requires d != NEWLINE
    ensures NEWLINE !in Join(fields, d)
  {
    if fields != [] {
      EscapedHasNoNewline(fields[|fields| - 1], d);
      JoinedHasNoNewline(fields[..|fields| - 1], d);
    }
  }

  function FileText(lines: seq<string>): string {
    if lines == [] then [] else FileText(lines[..|lines| - 1]) + lines[|lines| - 1] + [NEWLINE]
  }

  /** writeLines: each line followed by a newline. */
  method WriteLines(lines: seq<string>) returns (text: string)
    ensures text == FileText(lines)
  {
    text := [];
    for i := 0 to |lines|
      invariant text == FileText(lines[..i])
    {
      assert lines[..i + 1][..i] == lines[..i];
      text := text + lines[i];
      text := text + [NEWLINE];
    }
    assert lines[..|lines|] == lines;
  }

  datatype LineReader = LineReader(lines: seq<string>, current: string)

  function ReadAll(text: string): LineReader {
    if text == [] then LineReader([], [])
    else
      var before := ReadAll(text[..|text| - 1]);
      var c := text[|text| - 1];
      if c == NEWLINE then LineReader(before.lines + [before.current], [])
      else LineReader(before.lines, before.current + [c])
  }

  /** What repeated getline delivers: a last unterminated line counts only when it is not empty. */
  function FileLines(text: string): seq<string> {
    var r := ReadAll(text);
    if r.current == [] then r.lines else r.lines + [r.current]
  }

  method ReadTextLines(text: string) returns (lines: seq<string>)
    ensures lines == FileLines(text)
  {
    lines := [];
    var line: string := [];
    for i := 0 to |text|
      invariant LineReader(lines, line) == ReadAll(text[..i])
    {
      assert text[..i + 1][..i] == text[..i];
      if text[i] == NEWLINE {
        lines := lines + [line];
        line := [];
      } else {
        line := line + [text[i]];
      }
    }
    assert text[..|text|] == text;
    if line != [] {
      lines := lines + [line];
    }
  }

  predicate NoNewlines(lines: seq<string>) {
    forall i :: 0 <= i < |lines| ==> NEWLINE !in lines[i]
  }

  lemma {:induction false} ReadCleanAppend(text: string, line: string)
    requires NEWLINE !in line
    ensures ReadAll(text + line) == LineReader(ReadAll(text).lines, ReadAll(text).current + line)
  {
    if line == [] {
      assert text + line == text;
    } else {
      ReadCleanAppend(text, line[..|line| - 1]);
      assert (text + line)[..|text + line| - 1] == text + line[..|line| - 1];
      assert ReadAll(text).current + line == ReadAll(text).current + line[..|line| - 1] + [line[|line| - 1]];
    }
  }

  lemma {:induction false} ReadOneLine(text: string, line: string)
    requires NEWLINE !in line && ReadAll(text).current == []
    ensures ReadAll(text + line + [NEWLINE]) == LineReader(ReadAll(text).lines + [line], [])
  {
    ReadCleanAppend(text, line);
    assert (text + line + [NEWLINE])[..|text + line|] == text + line;
    assert [] + line == line;
  }

  lemma {:induction false} ReadFileText(lines: seq<string>)
    requires NoNewlines(lines)
    ensures ReadAll(FileText(lines)) == LineReader(lines, [])
  {
    if lines != [] {
      var front, line := lines[..|lines| - 1], lines[|lines| - 1];
      ReadFileText(front);
      ReadOneLine(FileText(front), line);
      assert lines == front + [line];
    }
  }

  lemma {:induction false} ReadLinesAreClean(text: string)
    ensures NoNewlines(ReadAll(text).lines) && NEWLINE !in ReadAll(text).current
  {
    if text != [] {
      ReadLinesAreClean(text[..|text| - 1]);
    }
  }

  /** Writing then reading a file is the identity exactly when no line holds a raw newline. */
  lemma {:induction false} FileRoundTrip(lines: seq<string>)
    ensures FileLines(FileText(lines)) == lines <==> NoNewlines(lines)
  {
    if NoNewlines(lines) {
      ReadFileText(lines);
    }
    ReadLinesAreClean(FileText(lines));
  }
}
