/** The lines of an upstream frame, as an event stream writes them and as the
    synthesizer reads them. */
module EventLines {
  import opened Prelude
  import opened Synthesizer

  /** One line: a `data` value, with or without the blank after its colon, a
      comment, or another field. */
  datatype Content = Data(value: Bytes, spaced: bool) | Comment(text: Bytes) | Field(name: Bytes, value: Bytes)

  /** A line may begin with a byte-order mark and end in LF or CR LF. */
  datatype Line = Line(content: Content, marked: bool, crlf: bool)

  predicate Plain(content: Content) {
    match content
    case Data(value, spaced) => NoBreak(value) && (!spaced ==> !(" " <= value))
    case Comment(text) => NoBreak(text)
    case Field(name, value) => NoBreak(name) && ':' !in name && name != "data" && !(BOM <= name) && NoBreak(value)
  }

  function TextOfContent(content: Content): Bytes {
    match content
    case Data(value, spaced) => if spaced then "data: " + value else "data:" + value
    case Comment(text) => ":" + text
    case Field(name, value) => name + ": " + value
  }

  function TextOfLine(line: Line): Bytes {
    (if line.marked then BOM + TextOfContent(line.content) else TextOfContent(line.content))
    + if line.crlf then "\r\n" else "\n"
  }

  function Written(lines: seq<Line>): Bytes {
    if lines == [] then "" else TextOfLine(lines[0]) + Written(lines[1..])
  }

  /** The values that count: a line feed goes between two, but none after
      nothing. */
  function Gathered(data: Bytes, lines: seq<Line>): Bytes
    decreases |lines|
  {
    if lines == [] then data
    else if !lines[0].content.Data? then Gathered(data, lines[1..])
    else
      var value := lines[0].content.value;
      Gathered(if data == "" then value else data + "\n" + value, lines[1..])
  }

  lemma FirstFeed(line: Bytes, rest: Bytes)
    requires '\n' !in line
    ensures IndexOf(line + "\n" + rest, '\n') == |line|
  {
    var t := line + "\n" + rest;
    assert t[|line|] == '\n' && forall i :: 0 <= i < |line| ==> t[i] == line[i];
  }

  lemma OneLine(data: Bytes, line: Bytes, rest: Bytes)
    requires '\n' !in line
    ensures DataOf(data, line + "\n" + rest) == DataOf(AddLine(data, StripCr(line)), rest)
  {
    var t := line + "\n" + rest;
    FirstFeed(line, rest);
    assert t[..|line|] == line && t[|line| + 1..] == rest;
  }

  lemma ColonAfter(name: Bytes, more: Bytes)
    requires ':' !in name
    ensures var line := name + ":" + more;
            IndexOf(line, ':') == |name| && line[..|name|] == name && line[|name| + 1..] == more
  {
    var line := name + ":" + more;
    assert line[|name|] == ':' && forall i :: 0 <= i < |name| ==> line[i] == name[i];
  }

  /** What a field without a mark adds. */
  lemma FieldAdds(data: Bytes, name: Bytes, more: Bytes)
    requires ':' !in name && name != "" && !(BOM <= name + ":" + more)
    ensures AddLine(data, name + ":" + more)
         == if name != "data" then data else (if data == "" then "" else data + "\n") + StripPrefix(more, " ")
  {
    ColonAfter(name, more);
    var line := name + ":" + more;
    assert line[0] == name[0];
  }

  lemma Unmarked(name: Bytes, more: Bytes)
    requires !(BOM <= name)
    ensures !(BOM <= name + ":" + more)
  {
    var line := name + ":" + more;
    assert line[|name|] == ':' && forall i :: 0 <= i < |name| ==> line[i] == name[i];
  }

  lemma MarkGoes(data: Bytes, text: Bytes)
    requires !(BOM <= text)
    ensures AddLine(data, BOM + text) == AddLine(data, text)
  {
    assert (BOM + text)[3..] == text;
  }

  lemma ContentAdds(data: Bytes, content: Content)
    requires Plain(content)
    ensures !(BOM <= TextOfContent(content))
    ensures AddLine(data, TextOfContent(content))
         == if content.Data? then (if data == "" then "" else data + "\n") + content.value else data
  {
    match content
    case Data(value, spaced) =>
      var more := if spaced then " " + value else value;
      assert TextOfContent(content) == "data" + ":" + more;
      assert "data"[0] != BOM[0];
      Unmarked("data", more);
      FieldAdds(data, "data", more);
      assert (" " + value)[1..] == value;
    case Comment(text) => assert (":" + text)[0] == ':';
    case Field(name, value) =>
      assert TextOfContent(content) == name + ":" + (" " + value);
      Unmarked(name, " " + value);
      if name == "" {
        assert TextOfContent(content)[0] == ':';
      } else {
        FieldAdds(data, name, " " + value);
      }
  }

  lemma ContentIsLine(content: Content)
    requires Plain(content)
    ensures NoBreak(TextOfContent(content)) && NoBreak(BOM + TextOfContent(content))
  {
  }

  lemma FeedEnds(data: Bytes, text: Bytes, rest: Bytes)
    requires NoBreak(text)
    ensures DataOf(data, text + "\n" + rest) == DataOf(AddLine(data, text), rest)
  {
    assert StripCr(text) == text;
    OneLine(data, text, rest);
  }

  lemma ReturnEnds(data: Bytes, text: Bytes, rest: Bytes)
    requires NoBreak(text)
    ensures DataOf(data, text + "\r\n" + rest) == DataOf(AddLine(data, text), rest)
  {
    assert StripCr(text + "\r") == text;
    assert text + "\r\n" + rest == (text + "\r") + "\n" + rest;
    OneLine(data, text + "\r", rest);
  }

  lemma LineAdds(data: Bytes, line: Line, rest: Bytes)
    requires Plain(line.content)
    ensures var content := line.content;
            DataOf(data, TextOfLine(line) + rest)
            == DataOf(if content.Data? then (if data == "" then "" else data + "\n") + content.value else data, rest)
  {
    var text := if line.marked then BOM + TextOfContent(line.content) else TextOfContent(line.content);
    ContentIsLine(line.content);
    ContentAdds(data, line.content);
    MarkGoes(data, TextOfContent(line.content));
    if line.crlf {
      ReturnEnds(data, text, rest);
    } else {
      FeedEnds(data, text, rest);
    }
  }

  /** Reading the lines of a frame gathers its `data` values and nothing else,
      however its lines end. */
  lemma {:induction false} LinesRead(data: Bytes, lines: seq<Line>)
    requires forall i :: 0 <= i < |lines| ==> Plain(lines[i].content)
    ensures DataOf(data, Written(lines)) == Gathered(data, lines)
    decreases |lines|
  {
    if lines != [] {
      LineAdds(data, lines[0], Written(lines[1..]));
      var content := lines[0].content;
      var next := if content.Data? then (if data == "" then "" else data + "\n") + content.value else data;
      LinesRead(next, lines[1..]);
      assert data == "" && content.Data? ==> "" + content.value == content.value;
    }
  }
}
