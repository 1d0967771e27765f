/** A long answer from short pieces: an upstream every piece of which fits the
    gateway's limit, and a final event that does not. */
module LongAnswer {
  import opened Prelude
  import opened Json
  import opened Framing
  import opened Responses
  import opened Synthesizer
  import EventText
  import SseText
  import Pipeline
  import C = SynthesizerChunks
  import V = Validator

  // ----- an event is as long as what it says -----

  lemma MemberLength(c: Codec, v: Value, key: string)
    requires Spells(c) && Get(v, key).Some?
    ensures |c.encode(v)| >= |c.encode(Get(v, key).value)|
  {
  }

  lemma FirstLength(c: Codec, v: Value)
    requires Spells(c) && v.Arr? && v.items != []
    ensures |c.encode(v)| >= |c.encode(v.items[0])|
  {
  }

  lemma MessageLength(c: Codec, id: string, text: string)
    requires Spells(c)
    ensures |c.encode(ItemJson(Message(id, true, [text])))| >= |text|
  {
    var json := ItemJson(Message(id, true, [text]));
    var content := Get(json, "content").value;
    MemberLength(c, json, "content");
    FirstLength(c, content);
    assert content.items[0] == ContentJson(text);
    MemberLength(c, ContentJson(text), "text");
    assert Get(ContentJson(text), "text") == Some(Str(text));
  }

  lemma EnvelopeLength(c: Codec, r: Envelope)
    requires Spells(c) && r.output != []
    ensures |c.encode(EnvelopeJson(r))| >= |c.encode(ItemJson(r.output[0]))|
  {
    var output := Get(EnvelopeJson(r), "output");
    assert output.Some? && output.value.Arr? && output.value.items[0] == ItemJson(r.output[0]);
    MemberLength(c, EnvelopeJson(r), "output");
    FirstLength(c, output.value);
  }

  lemma CompletedLength(c: Codec, e: Event)
    requires Spells(c) && e.body.Completed?
    ensures |EventText.Wire(c, e)| >= |c.encode(EnvelopeJson(e.body.response))|
  {
    MemberLength(c, EventJson(e), "response");
    assert Get(EventJson(e), "response") == Some(EnvelopeJson(e.body.response));
  }

  // ----- one piece of upstream -----

  function Piece(choice: Value): Value { Obj(map["choices" := Arr([choice])]) }

  const LETTER: Value := Piece(Obj(map["delta" := Obj(map["content" := Str("x")])]))

  const STOP: Value := Piece(Obj(map["finish_reason" := Str("stop")]))

  function PieceFrame(c: Codec, v: Value): Bytes { "data: " + c.encode(v) + "\n" + "\n" }

  const LETTER_CHUNK := Chunk(None, "", "", None, "", "x", [], "")

  const STOP_CHUNK := Chunk(None, "", "", None, "", "", [], "stop")

  lemma LetterRead()
    ensures ReadChunk(LETTER) == LETTER_CHUNK
  {
  }

  lemma StopRead()
    ensures ReadChunk(STOP) == STOP_CHUNK
  {
  }

  lemma PiecesNotEmpty(c: Codec)
    requires Spells(c)
    ensures c.encode(LETTER) != "" && c.encode(STOP) != ""
  {
    var letter := Obj(map["delta" := Obj(map["content" := Str("x")])]);
    var stop := Obj(map["finish_reason" := Str("stop")]);
    MemberLength(c, LETTER, "choices");
    FirstLength(c, Arr([letter]));
    MemberLength(c, letter, "delta");
    MemberLength(c, Obj(map["content" := Str("x")]), "content");
    assert |c.encode(Str("x"))| >= |"x"|;
    MemberLength(c, STOP, "choices");
    FirstLength(c, Arr([stop]));
    MemberLength(c, stop, "finish_reason");
    assert |c.encode(Str("stop"))| >= |"stop"|;
  }

  lemma DataLine(text: Bytes)
    requires NoBreak(text)
    ensures var line := "data: " + text;
            '\n' !in line && StripCr(line) == line && AddLine("", line) == text
  {
    var line := "data: " + text;
    assert line[|line| - 1] != '\r';
    assert line[0] == 'd' && StripPrefix(line, BOM) == line;
    assert line == "data" + ": " + text;
    SseText.FieldLine("data", text);
  }

  lemma PieceData(text: Bytes)
    requires NoBreak(text)
    ensures DataOf("", "data: " + text + "\n" + "\n") == text
  {
    var line := "data: " + text;
    DataLine(text);
    C.DataOfSplit("", line + "\n", "\n");
    C.OneLine("", line);
    C.BlankEndsAlike(text);
  }

  lemma PieceIsUtf8(c: Codec, v: Value)
    requires Lawful(c)
    ensures c.utf8(PieceFrame(c, v))
  {
    var text := c.encode(v);
    SseText.AsciiPrefix(c, "data: ", text);
    SseText.AsciiSuffix(c, "data: " + text, "\n" + "\n");
    assert "data: " + text + "\n" + "\n" == "data: " + text + ("\n" + "\n");
  }

  lemma DataHandled(cfg: Config, s: State, data: Bytes, v: Value)
    requires data != "" && cfg.codec.trim(data) != "[DONE]" && cfg.codec.parse(data) == Some(v)
    ensures HandleData(cfg, s, data) == HandleChunk(cfg, s, ReadChunk(v))
  {
  }

  lemma PieceIsFrame(text: Bytes)
    requires NoBreak(text)
    ensures var b := "data: " + text + "\n" + "\n"; EagerFrameLen(b) == Some(|b|)
  {
    var line := "data: " + text;
    var b := line + "\n" + "\n";
    assert forall i :: 0 <= i < |line| ==> b[i] == line[i] && !IsBreak(line[i]);
    assert b[|line|] == '\n' && b[|line| + 1] == '\n';
    ScanSkips(b, 0, 0, |line|);
    assert Scan(b, |line| + 1, |line| + 1) == Some(|line| + 2);
    C.EagerAgrees(b, 0, 0);
  }

  lemma PieceHandled(cfg: Config, s: State, v: Value)
    requires Lawful(cfg.codec) && Spells(cfg.codec) && cfg.codec.encode(v) != ""
    ensures HandleFrame(cfg, s, PieceFrame(cfg.codec, v)) == HandleChunk(cfg, s, ReadChunk(v))
  {
    var c := cfg.codec;
    var text := c.encode(v);
    PieceData(text);
    PieceIsUtf8(c, v);
    assert text != "[DONE]" by { assert c.parse(text).Some?; }
    DataHandled(cfg, s, text, v);
  }

  lemma FrameDrained(cfg: Config, x: Intake)
    requires EagerFrameLen(x.buffer) == Some(|x.buffer|)
    ensures var r := Drain(cfg, x); r.state == HandleFrame(cfg, x.state, x.buffer) && r.buffer == ""
  {
    assert x.buffer[..|x.buffer|] == x.buffer && x.buffer[|x.buffer|..] == "";
    assert EagerFrameLen("").None?;
  }

  lemma PiecePushed(cfg: Config, x: Intake, v: Value)
    requires Lawful(cfg.codec) && Spells(cfg.codec) && cfg.codec.encode(v) != ""
    requires !x.state.terminated && x.buffer == "" && |PieceFrame(cfg.codec, v)| <= cfg.maxBuffered
    ensures var r := Push(cfg, x, PieceFrame(cfg.codec, v));
            r.state == HandleChunk(cfg, x.state, ReadChunk(v)) && r.buffer == ""
  {
    var frame := PieceFrame(cfg.codec, v);
    PieceIsFrame(cfg.codec.encode(v));
    PieceHandled(cfg, x.state, v);
    assert x.buffer + frame == frame;
    FrameDrained(cfg, x.(buffer := frame));
  }

  // ----- the answer grows -----

  /** One message is open and holds `n` characters; nothing else is there. */
  predicate Saying(s: State, n: nat) {
    && !s.terminated && !s.finished && s.reasoning.None? && s.calls == [] && s.output == []
    && if n == 0 then s.message.None? else s.started && s.message.Some? && |s.message.value.text| == n
  }

  lemma LetterSaid(cfg: Config, s: State, n: nat)
    requires Saying(s, n)
    ensures Saying(HandleChunk(cfg, s, LETTER_CHUNK), n + 1)
  {
    var begun := Metered(cfg, s, LETTER_CHUNK);
    assert Saying(begun, n) && begun.started;
    assert TakeDeltas(cfg, begun, LETTER_CHUNK) == PushText(begun, "x");
  }

  lemma Stopped(cfg: Config, s: State, n: nat)
    requires Saying(s, n) && n > 0
    ensures var r := HandleChunk(cfg, s, STOP_CHUNK);
            && r.finished && r.events != []
            && var body := r.events[|r.events| - 1].body;
               && body.Completed? && body.response.output != [] && body.response.output[0].Message?
               && body.response.output[0] == Message(body.response.output[0].id, true, body.response.output[0].content)
               && |body.response.output[0].content| == 1 && |body.response.output[0].content[0]| == n
  {
    assert Metered(cfg, s, STOP_CHUNK) == s;
    assert TakeDeltas(cfg, s, STOP_CHUNK) == s;
    var t := s.message.value;
    assert CloseAll(cfg.codec, s).output == [] + [Message(t.id, true, [t.text])];
  }

  /** `n` pieces of one character each, and the end. */
  function Pieces(c: Codec, n: nat): seq<Bytes> { Repeated(PieceFrame(c, LETTER), PieceFrame(c, STOP), n) }

  function Repeated(piece: Bytes, last: Bytes, n: nat): seq<Bytes> {
    if n == 0 then [last] else [piece] + Repeated(piece, last, n - 1)
  }

  /** The length of the longest of these pieces, however many there are. */
  function Longest(c: Codec): nat {
    if |PieceFrame(c, LETTER)| > |PieceFrame(c, STOP)| then |PieceFrame(c, LETTER)| else |PieceFrame(c, STOP)|
  }

  lemma {:induction false} PiecesFit(piece: Bytes, last: Bytes, n: nat, limit: nat)
    requires |piece| <= limit && |last| <= limit
    ensures forall i :: 0 <= i < |Repeated(piece, last, n)| ==> |Repeated(piece, last, n)[i]| <= limit
  {
    if n > 0 {
      PiecesFit(piece, last, n - 1, limit);
    }
  }

  /** The last event completes the response and its frame is as long as `n`. */
  predicate EndsLong(c: Codec, events: seq<Event>, n: nat) {
    events != [] && events[|events| - 1].body.Completed? && |EventText.Wire(c, events[|events| - 1])| >= n
  }

  lemma LastPieceAnswers(cfg: Config, s: State, n: nat)
    requires Spells(cfg.codec) && Saying(s, n) && n > 0
    ensures var r := HandleChunk(cfg, s, STOP_CHUNK); r.finished && EndsLong(cfg.codec, r.events, n)
  {
    Stopped(cfg, s, n);
    var r := HandleChunk(cfg, s, STOP_CHUNK);
    var e := r.events[|r.events| - 1];
    var item := e.body.response.output[0];
    CompletedLength(cfg.codec, e);
    EnvelopeLength(cfg.codec, e.body.response);
    assert item.content == [item.content[0]];
    MessageLength(cfg.codec, item.id, item.content[0]);
  }

  lemma LetterPushed(cfg: Config, x: Intake, n: nat)
    requires Lawful(cfg.codec) && Spells(cfg.codec) && Longest(cfg.codec) <= cfg.maxBuffered
    requires Saying(x.state, n) && x.buffer == ""
    ensures var r := Push(cfg, x, PieceFrame(cfg.codec, LETTER)); Saying(r.state, n + 1) && r.buffer == ""
  {
    PiecesNotEmpty(cfg.codec);
    PiecePushed(cfg, x, LETTER);
    LetterRead();
    LetterSaid(cfg, x.state, n);
  }

  lemma StopPushed(cfg: Config, x: Intake, n: nat)
    requires Lawful(cfg.codec) && Spells(cfg.codec) && Longest(cfg.codec) <= cfg.maxBuffered
    requires Saying(x.state, n) && x.buffer == "" && n > 0
    ensures var s := Push(cfg, x, PieceFrame(cfg.codec, STOP)).state; s.finished && EndsLong(cfg.codec, s.events, n)
  {
    PiecesNotEmpty(cfg.codec);
    PiecePushed(cfg, x, STOP);
    StopRead();
    LastPieceAnswers(cfg, x.state, n);
  }

  /** Fed these chunks, the translator finishes with a long last frame. */
  ghost predicate Answers(cfg: Config, x: Intake, chunks: seq<Bytes>, n: nat) {
    var s := PushAll(cfg, x, chunks).state;
    s.finished && EndsLong(cfg.codec, s.events, n)
  }

  lemma AnswersInTurn(cfg: Config, x: Intake, chunk: Bytes, rest: seq<Bytes>, n: nat)
    requires !x.state.finished && Answers(cfg, Push(cfg, x, chunk), rest, n)
    ensures Answers(cfg, x, [chunk] + rest, n)
  {
    assert ([chunk] + rest)[1..] == rest;
  }

  lemma AnswersNow(cfg: Config, x: Intake, n: nat)
    requires x.state.finished && EndsLong(cfg.codec, x.state.events, n)
    ensures Answers(cfg, x, [], n)
  {
  }

  predicate Ready(x: Intake, n: nat) { Saying(x.state, n) && x.buffer == "" }

  // What the two pieces do, for any notion of feeding them.

  ghost predicate Grows(push: Intake -> Intake) { forall x, n: nat :: Ready(x, n) ==> Ready(push(x), n + 1) }

  ghost predicate Stops(answers: (Intake, seq<Bytes>, nat) -> bool, stop: Bytes) {
    forall x, n: nat :: Ready(x, n) && n > 0 ==> answers(x, [stop], n)
  }

  ghost predicate Follows(push: Intake -> Intake, answers: (Intake, seq<Bytes>, nat) -> bool, letter: Bytes) {
    forall x, n: nat, rest, m: nat :: Ready(x, n) && answers(push(x), rest, m) ==> answers(x, [letter] + rest, m)
  }

  lemma LetterWorks(cfg: Config, x: Intake, n: nat)
    requires Lawful(cfg.codec) && Spells(cfg.codec) && Longest(cfg.codec) <= cfg.maxBuffered && Ready(x, n)
    ensures Ready(Push(cfg, x, PieceFrame(cfg.codec, LETTER)), n + 1)
  {
    LetterPushed(cfg, x, n);
  }

  lemma StopWorks(cfg: Config, x: Intake, n: nat)
    requires Lawful(cfg.codec) && Spells(cfg.codec) && Longest(cfg.codec) <= cfg.maxBuffered && Ready(x, n) && n > 0
    ensures Answers(cfg, x, [PieceFrame(cfg.codec, STOP)], n)
  {
    var stop := PieceFrame(cfg.codec, STOP);
    StopPushed(cfg, x, n);
    AnswersNow(cfg, Push(cfg, x, stop), n);
    AnswersInTurn(cfg, x, stop, [], n);
    assert [stop] + [] == [stop];
  }

  lemma {:induction false} PiecesAnswer(push: Intake -> Intake, answers: (Intake, seq<Bytes>, nat) -> bool,
                                        letter: Bytes, stop: Bytes, x: Intake, said: nat, n: nat, total: nat)
    requires Grows(push) && Stops(answers, stop) && Follows(push, answers, letter)
    requires Ready(x, said) && total == said + n > 0
    ensures answers(x, Repeated(letter, stop, n), total)
    decreases n
  {
    if n > 0 {
      PiecesAnswer(push, answers, letter, stop, push(x), said + 1, n - 1, total);
    }
  }

  function Pushing(cfg: Config, letter: Bytes): Intake -> Intake { x => Push(cfg, x, letter) }

  ghost function Answering(cfg: Config): (Intake, seq<Bytes>, nat) -> bool {
    (x: Intake, chunks: seq<Bytes>, n: nat) => Answers(cfg, x, chunks, n)
  }

  lemma LettersGrow(cfg: Config)
    requires Lawful(cfg.codec) && Spells(cfg.codec) && Longest(cfg.codec) <= cfg.maxBuffered
    ensures Grows(Pushing(cfg, PieceFrame(cfg.codec, LETTER)))
  {
    forall x, n: nat | Ready(x, n)
      ensures Ready(Pushing(cfg, PieceFrame(cfg.codec, LETTER))(x), n + 1)
    {
      LetterWorks(cfg, x, n);
    }
  }

  lemma StopStops(cfg: Config)
    requires Lawful(cfg.codec) && Spells(cfg.codec) && Longest(cfg.codec) <= cfg.maxBuffered
    ensures Stops(Answering(cfg), PieceFrame(cfg.codec, STOP))
  {
    forall x, n: nat | Ready(x, n) && n > 0
      ensures Answering(cfg)(x, [PieceFrame(cfg.codec, STOP)], n)
    {
      StopWorks(cfg, x, n);
    }
  }

  lemma LettersFollow(cfg: Config, letter: Bytes)
    ensures Follows(Pushing(cfg, letter), Answering(cfg), letter)
  {
    forall x, n: nat, rest, m: nat | Ready(x, n) && Answering(cfg)(Pushing(cfg, letter)(x), rest, m)
      ensures Answering(cfg)(x, [letter] + rest, m)
    {
      AnswersInTurn(cfg, x, letter, rest, m);
    }
  }

  lemma RunAnswers(cfg: Config, n: nat)
    requires Lawful(cfg.codec) && Spells(cfg.codec) && Longest(cfg.codec) <= cfg.maxBuffered && n > 0
    ensures Answering(cfg)(Begin(cfg), Repeated(PieceFrame(cfg.codec, LETTER), PieceFrame(cfg.codec, STOP), n), n)
  {
    var letter, stop := PieceFrame(cfg.codec, LETTER), PieceFrame(cfg.codec, STOP);
    LettersGrow(cfg);
    StopStops(cfg);
    LettersFollow(cfg, letter);
    PiecesAnswer(Pushing(cfg, letter), Answering(cfg), letter, stop, Begin(cfg), 0, n, n);
  }

  /** A finished run over pieces that fit the gateway's limit, whose last frame
      does not. */
  ghost predicate Outgrows(scfg: Config, cfg: V.Config, chunks: seq<Bytes>) {
    var events := Pipeline.Synthesized(scfg, chunks, Closed);
    && (forall i :: 0 <= i < |chunks| ==> |chunks[i]| <= cfg.maxEventBytes)
    && Pipeline.Finished(events) && |EventText.Wire(cfg.codec, events[|events| - 1])| > cfg.maxEventBytes
  }

  lemma AnswerOutgrows(scfg: Config, cfg: V.Config, chunks: seq<Bytes>)
    requires scfg.codec == cfg.codec && Answers(scfg, Begin(scfg), chunks, cfg.maxEventBytes + 1)
    requires forall i :: 0 <= i < |chunks| ==> |chunks[i]| <= cfg.maxEventBytes
    ensures Outgrows(scfg, cfg, chunks)
  {
    assert Pipeline.Synthesized(scfg, chunks, Closed) == PushAll(scfg, Begin(scfg), chunks).state.events;
  }

  /** Whatever the gateway's limit, if it admits such pieces at all, some run
      over pieces that all fit it finishes with a frame beyond it. */
  lemma FinalFrameTooLong(scfg: Config, cfg: V.Config)
    requires Lawful(cfg.codec) && Spells(cfg.codec) && scfg.codec == cfg.codec
    requires Longest(cfg.codec) <= scfg.maxBuffered && Longest(cfg.codec) <= cfg.maxEventBytes
    ensures exists chunks: seq<Bytes> :: Outgrows(scfg, cfg, chunks)
  {
    var n := cfg.maxEventBytes + 1;
    var letter, stop := PieceFrame(cfg.codec, LETTER), PieceFrame(cfg.codec, STOP);
    PiecesFit(letter, stop, n, cfg.maxEventBytes);
    RunAnswers(scfg, n);
    AnswerOutgrows(scfg, cfg, Repeated(letter, stop, n));
  }
}
