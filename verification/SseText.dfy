/** What the gateway reads back from a frame written as one `event` line and
    one `data` line. */
module SseText {
  import opened Prelude
  import opened Json
  import opened Framing
  import opened Inspect
  import opened Validator

  predicate Ascii(t: Bytes) { forall i :: 0 <= i < |t| ==> t[i] < 128 as char }

  lemma {:induction false} AsciiSuffix(c: Codec, t: Bytes, suffix: Bytes)
    requires Lawful(c) && Ascii(suffix)
    ensures c.utf8(t + suffix) == c.utf8(t)
    decreases |suffix|
  {
    if suffix == "" {
      assert t + suffix == t;
    } else {
      var shorter, last := suffix[..|suffix| - 1], suffix[|suffix| - 1];
      AsciiSuffix(c, t, shorter);
      assert t + suffix == (t + shorter) + [last];
    }
  }

  lemma {:induction false} AsciiPrefix(c: Codec, prefix: Bytes, t: Bytes)
    requires Lawful(c) && Ascii(prefix)
    ensures c.utf8(prefix + t) == c.utf8(t)
    decreases |prefix|
  {
    if prefix == "" {
      assert prefix + t == t;
    } else {
      AsciiPrefix(c, prefix[1..], t);
      assert prefix + t == [prefix[0]] + (prefix[1..] + t);
    }
  }

  lemma {:induction false} LinesStep(line: Bytes, rest: Bytes)
    requires NoBreak(line)
    ensures Lines(line + "\n" + rest) == [line] + Lines(rest)
    decreases |line|
  {
    var t := line + "\n" + rest;
    if line == "" {
      assert t[0] == '\n' && t[1..] == rest;
    } else {
      assert t[0] == line[0] && t[1..] == line[1..] + "\n" + rest;
      LinesStep(line[1..], rest);
      assert Lines(t[1..]) == [line[1..]] + Lines(rest);
      if |line| == 1 {
        assert t[1] == '\n' && line[1..] == "" && [line[0]] == line;
      } else {
        assert t[1] == line[1] && [line[0]] + line[1..] == line;
      }
    }
  }

  lemma FieldLine(field: Bytes, value: Bytes)
    requires forall i :: 0 <= i < |field| ==> field[i] != ':'
    ensures FieldOf(field + ": " + value) == field && ValueOf(field + ": " + value) == value
  {
    var line := field + ": " + value;
    var colon := IndexOf(line, ':');
    assert line[|field|] == ':';
    assert forall i :: 0 <= i < |field| ==> line[i] == field[i];
    assert colon == |field|;
    assert line[..colon] == field;
    assert line[colon + 1..] == " " + value;
    assert (" " + value)[1..] == value;
  }

  predicate KindText(kind: string) { kind != "" && Graphic(kind) }

  lemma WrittenLines(first: Bytes, second: Bytes)
    requires NoBreak(first) && NoBreak(second)
    ensures Lines(first + "\n" + second + "\n\n") == [first, second, ""]
  {
    assert first + "\n" + second + "\n\n" == first + "\n" + (second + "\n" + ("" + "\n" + ""));
    LinesStep(first, second + "\n" + ("" + "\n" + ""));
    LinesStep(second, "" + "\n" + "");
    LinesStep("", "");
  }

  lemma WrittenFields(kind: Bytes, text: Bytes)
    ensures ReadLines(["event: " + kind, "data: " + text, ""]) == Fields(Some(kind), [text])
  {
    var first, second := "event: " + kind, "data: " + text;
    FieldLine("event", kind);
    FieldLine("data", text);
    assert first == "event" + ": " + kind && second == "data" + ": " + text;
    assert [first, second, ""][..2] == [first, second];
    assert [first, second][..1] == [first];
    assert [first][..0] == [];
    assert ReadLines([]) == Fields(None, []);
    assert ReadLines([first]) == ReadLine(Fields(None, []), first) == Fields(Some(kind), []);
    assert ReadLines([first, second]) == ReadLine(Fields(Some(kind), []), second) == Fields(Some(kind), [text]);
  }

  /** Reading back a written frame yields its kind and its payload. */
  lemma InspectWritten(c: Codec, ev: Events, kind: string, payload: Value)
    requires Lawful(c) && KindText(kind)
    ensures InspectFrame(c, ev, SseFrame(c, kind, payload)) == InspectValue(c, ev, Some(kind), payload)
  {
    var text := c.encode(payload);
    var first, second := "event: " + kind, "data: " + text;
    var frame := first + "\n" + second + "\n\n";
    assert frame == SseFrame(c, kind, payload);
    assert c.utf8(frame) by {
      AsciiPrefix(c, "event: " + kind + "\n" + "data: ", text);
      AsciiSuffix(c, "event: " + kind + "\n" + "data: " + text, "\n\n");
    }
    assert frame[0] == 'e';
    assert StripPrefix(frame, BOM) == frame;
    WrittenLines(first, second);
    WrittenFields(kind, text);
    assert InspectFrame(c, ev, frame) == InspectFields(c, ev, Fields(Some(kind), [text]));
    assert Join([text], "\n") == text;
    assert c.parse(text) == Some(payload);
  }

  lemma WrittenFrameLen(c: Codec, kind: string, payload: Value, rest: Bytes)
    requires Lawful(c) && KindText(kind)
    ensures FrameLen(SseFrame(c, kind, payload) + rest) == Some(|SseFrame(c, kind, payload)|)
  {
    var first, second := "event: " + kind, "data: " + c.encode(payload);
    assert SseFrame(c, kind, payload) == first + "\n" + second + "\n\n";
    TwoLineFrame(first, second, rest);
  }
}
