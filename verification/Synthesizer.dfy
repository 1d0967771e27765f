/** Z.ai chat-completion chunks in, Responses events out. */
module Synthesizer {
  import opened Prelude
  import opened Json
  import opened Framing
  import opened Responses
  import opened ToolNames

  datatype Config = Config(
    model: string,
    requestKey: string,
    tools: Names,
    codec: Codec,
    maxBuffered: nat)

  /** One element of a chunk's `tool_calls`; an absent text is empty. */
  datatype Fragment = Fragment(index: nat, id: string, name: string, arguments: string)

  /** What the synthesizer takes from one upstream chunk. */
  datatype Chunk = Chunk(
    error: Option<string>,
    id: string,
    model: string,
    usage: Option<Value>,
    reasoning: string,
    content: string,
    calls: seq<Fragment>,
    finish: string)

  /** One upstream contribution to the answer, in arrival order. */
  datatype Delta = Think(text: string) | Say(text: string) | Tool(fragment: Fragment)

  datatype TextItem = TextItem(id: string, index: nat, text: string)

  datatype Call = Call(
    id: string,
    index: nat,
    callId: string,
    encodedName: string,
    name: string,
    arguments: string,
    freeform: bool,
    announced: bool)

  const NEW_CALL := Call("", 0, "", "", "", "", false, false)

  /** The synthesizer's state besides its input buffer. `events` is everything
      emitted so far, and `heard` is the history of upstream contributions. */
  datatype State = State(
    model: string,
    responseId: string,
    idStem: string,
    events: seq<Event>,
    output: seq<Item>,
    calls: seq<Call>,
    reasoning: Option<TextItem>,
    message: Option<TextItem>,
    usage: Option<Value>,
    nextIndex: nat,
    sequence: nat,
    started: bool,
    finished: bool,
    terminated: bool,
    heard: seq<Delta>)

  function Initial(cfg: Config): State {
    State(cfg.model, "", "", [], [], [], None, None, None, 0, 0, false, false, false, [])
  }

  function Emit(s: State, body: Body): State {
    s.(events := s.events + [Event(s.sequence, body)], sequence := s.sequence + 1)
  }

  function Fail(s: State, message: string): State {
    if s.terminated then s.(finished := true)
    else
      var id := if s.responseId == "" then None else Some(s.responseId);
      Emit(s, Error(message, id)).(terminated := true, finished := true)
  }

  function EnvelopeOf(s: State, status: Status, withOutput: bool): Envelope {
    Envelope(s.responseId, status, s.model, if withOutput then s.output else [], s.usage)
  }

  predicate IdentifierChar(c: char) { IsAlphanumeric(c) || c == '_' || c == '-' }

  function KeepIdentifierChars(t: string): string {
    if t == "" then "" else (if IdentifierChar(t[0]) then [t[0]] else "") + KeepIdentifierChars(t[1..])
  }

  const MAX_IDENTIFIER: nat := 64

  function SanitizeIdentifier(t: string): string {
    var kept := KeepIdentifierChars(t);
    var filtered := if |kept| > MAX_IDENTIFIER then kept[..MAX_IDENTIFIER] else kept;
    if filtered == "" then "unknown" else filtered
  }

  function Start(cfg: Config, s: State, chunk: Chunk): State {
    if s.started then s
    else
      var stem := SanitizeIdentifier(if chunk.id != "" then chunk.id else cfg.requestKey);
      var named := s.(started := true, idStem := stem, responseId := "resp_" + stem,
                      model := if chunk.model != "" then chunk.model else s.model);
      var envelope := EnvelopeOf(named, Running, false);
      Emit(Emit(named, Created(envelope)), InProgress(envelope))
  }

  function ItemId(s: State, prefix: string, index: nat): string {
    prefix + "_" + s.idStem + "_" + Decimal(index)
  }

  function CloseReasoning(s: State): State {
    if s.reasoning.None? then s
    else
      var t := s.reasoning.value;
      var item := Reasoning(t.id, [t.text]);
      Emit(Emit(Emit(s.(reasoning := None), SummaryDone(t.id, t.index, t.text)),
                SummaryPartDone(t.id, t.index, t.text)),
           ItemDone(t.index, item)).(output := s.output + [item])
  }

  function CloseMessage(s: State): State {
    if s.message.None? then s
    else
      var t := s.message.value;
      var item := Message(t.id, true, [t.text]);
      Emit(Emit(Emit(s.(message := None), TextDone(t.id, t.index, t.text)), ContentPartDone(t.id, t.index, t.text)),
           ItemDone(t.index, item)).(output := s.output + [item])
  }

  function OpenReasoning(s: State): State {
    var id := ItemId(s, "rs", s.nextIndex);
    Emit(Emit(s.(nextIndex := s.nextIndex + 1), ItemAdded(s.nextIndex, Reasoning(id, []))),
         SummaryPartAdded(id, s.nextIndex)).(reasoning := Some(TextItem(id, s.nextIndex, "")))
  }

  function OpenMessage(s: State): State {
    var id := ItemId(s, "msg", s.nextIndex);
    Emit(Emit(s.(nextIndex := s.nextIndex + 1), ItemAdded(s.nextIndex, Message(id, false, []))),
         ContentPartAdded(id, s.nextIndex)).(message := Some(TextItem(id, s.nextIndex, "")))
  }

  function ExtendReasoning(s: State, delta: string): State
    requires s.reasoning.Some?
  {
    var t := s.reasoning.value;
    Emit(s.(reasoning := Some(t.(text := t.text + delta)), heard := s.heard + [Think(delta)]),
         SummaryDelta(t.id, t.index, delta))
  }

  function ExtendMessage(s: State, delta: string): State
    requires s.message.Some?
  {
    var t := s.message.value;
    Emit(s.(message := Some(t.(text := t.text + delta)), heard := s.heard + [Say(delta)]),
         TextDelta(t.id, t.index, delta))
  }

  function PushReasoning(s: State, delta: string): State {
    var closed := CloseMessage(s);
    ExtendReasoning(if closed.reasoning.None? then OpenReasoning(closed) else closed, delta)
  }

  function PushText(s: State, delta: string): State {
    var closed := CloseReasoning(s);
    ExtendMessage(if closed.message.None? then OpenMessage(closed) else closed, delta)
  }

  /** Makes room for call `index`. */
  function Grow(calls: seq<Call>, index: nat): (r: seq<Call>)
    ensures |r| > index && |r| >= |calls|
    ensures forall i :: 0 <= i < |r| ==> r[i] == if i < |calls| then calls[i] else NEW_CALL
    decreases index + 1 - |calls|
  {
    if |calls| > index then calls else Grow(calls + [NEW_CALL], index)
  }

  /** A call's output index is taken with its first fragment. */
  function Identify(s: State, i: nat): State
    requires i < |s.calls|
  {
    if s.calls[i].id != "" then s
    else s.(calls := s.calls[i := s.calls[i].(index := s.nextIndex,
                                              id := "fc_" + s.idStem + "_" + Decimal(s.nextIndex))],
            nextIndex := s.nextIndex + 1)
  }

  /** The first call id and the first name seen are the ones kept. */
  function Label(cfg: Config, call: Call, f: Fragment): Call {
    var withId := if f.id != "" && call.callId == "" then call.(callId := SanitizeIdentifier(f.id)) else call;
    if f.name != "" && withId.encodedName == "" then
      withId.(encodedName := f.name, name := Decode(cfg.tools, f.name), freeform := f.name in cfg.tools.freeform)
    else withId
  }

  predicate Announceable(call: Call) {
    !call.announced && call.encodedName != "" && call.callId != ""
  }

  function AddedItem(call: Call): Item {
    if call.freeform then CustomCall(call.id, false, call.callId, call.name, "")
    else FunctionCall(call.id, false, call.callId, call.name, "")
  }

  function Announce(s: State, i: nat): State
    requires i < |s.calls|
  {
    if Announceable(s.calls[i]) then
      Emit(s.(calls := s.calls[i := s.calls[i].(announced := true)]),
           ItemAdded(s.calls[i].index, AddedItem(s.calls[i])))
    else s
  }

  function AddArguments(s: State, i: nat, fragment: string): State
    requires i < |s.calls|
  {
    if fragment == "" then s
    else
      var call := s.calls[i].(arguments := s.calls[i].arguments + fragment);
      var grown := s.(calls := s.calls[i := call]);
      if !call.freeform && call.announced then Emit(grown, ArgumentsDelta(call.id, call.index, fragment)) else grown
  }

  /** A tool fragment first ends any open text. */
  function Arrive(s: State, f: Fragment): State {
    var closed := CloseMessage(CloseReasoning(s));
    closed.(calls := Grow(closed.calls, f.index), heard := s.heard + [Tool(f)])
  }

  function Relabel(cfg: Config, s: State, f: Fragment): State
    requires f.index < |s.calls|
  {
    s.(calls := s.calls[f.index := Label(cfg, s.calls[f.index], f)])
  }

  function PushCall(cfg: Config, s: State, f: Fragment): State {
    AddArguments(Announce(Relabel(cfg, Identify(Arrive(s, f), f.index), f), f.index), f.index, f.arguments)
  }

  function PushCalls(cfg: Config, s: State, fragments: seq<Fragment>): State
    decreases |fragments|
  {
    if fragments == [] then s else PushCalls(cfg, PushCall(cfg, s, fragments[0]), fragments[1..])
  }

  /** The input a free-form call's arguments wrap, or the arguments themselves
      when the model ignored the wrapping. */
  function FreeformInput(c: Codec, arguments: string): string {
    var input := AsStr(At(c.parse(arguments), "input"));
    if input.Some? then input.value else arguments
  }

  function FinalArguments(call: Call): string {
    if call.arguments == "" then "{}" else call.arguments
  }

  function DoneItem(c: Codec, call: Call): Item {
    if call.freeform then CustomCall(call.id, true, call.callId, call.name, FreeformInput(c, call.arguments))
    else FunctionCall(call.id, true, call.callId, call.name, FinalArguments(call))
  }

  function CloseCall(c: Codec, s: State, call: Call): State {
    var item := DoneItem(c, call);
    var said :=
      if call.freeform then
        Emit(Emit(s, InputDelta(call.id, call.index, item.input)), InputDone(call.id, call.index, item.input))
      else Emit(s, ArgumentsDone(call.id, call.index, item.arguments));
    Emit(said, ItemDone(call.index, item)).(output := s.output + [item])
  }

  /** Calls that were never announced are dropped. */
  function CloseCalls(c: Codec, s: State, calls: seq<Call>): State
    decreases |calls|
  {
    if calls == [] then s
    else CloseCalls(c, if calls[0].announced then CloseCall(c, s, calls[0]) else s, calls[1..])
  }

  const NO_CONTENT := "the Z.ai stream ended before any content arrived"

  function CloseAll(c: Codec, s: State): State {
    var quiet := CloseMessage(CloseReasoning(s));
    CloseCalls(c, quiet.(calls := []), quiet.calls)
  }

  function FinalEvent(s: State, truncated: bool): State {
    var envelope := EnvelopeOf(s, if truncated then Truncated else Finished, true);
    Emit(s, if truncated then Incomplete(envelope) else Completed(envelope)).(terminated := true, finished := true)
  }

  function Complete(cfg: Config, s: State, truncated: bool): State {
    if s.terminated then s
    else if !s.started then Fail(s, NO_CONTENT)
    else FinalEvent(CloseAll(cfg.codec, s), truncated)
  }

  function Metered(cfg: Config, s: State, chunk: Chunk): State {
    var begun := Start(cfg, s, chunk);
    if chunk.usage.Some? then begun.(usage := chunk.usage) else begun
  }

  // Empty texts are skipped, as absent ones are.

  function TakeReasoning(s: State, text: string): State {
    if text != "" then PushReasoning(s, text) else s
  }

  function TakeContent(s: State, text: string): State {
    if text != "" then PushText(s, text) else s
  }

  function TakeFinish(cfg: Config, s: State, reason: string): State {
    if reason != "" then Complete(cfg, s, reason == "length") else s
  }

  /** A chunk's reasoning, content and tool fragments, in this order. */
  function TakeDeltas(cfg: Config, s: State, chunk: Chunk): State {
    PushCalls(cfg, TakeContent(TakeReasoning(s, chunk.reasoning), chunk.content), chunk.calls)
  }

  function HandleChunk(cfg: Config, s: State, chunk: Chunk): State {
    if chunk.error.Some? then Fail(s, chunk.error.value)
    else TakeFinish(cfg, TakeDeltas(cfg, Metered(cfg, s, chunk), chunk), chunk.finish)
  }

  // ----- reading a chunk -----

  function ReadFragment(v: Value): Fragment {
    var call := Get(v, "function");
    var index := AsU64(Get(v, "index"));
    Fragment(if index.Some? then index.value else 0,
             TextOf(Get(v, "id")), TextOf(At(call, "name")), TextOf(At(call, "arguments")))
  }

  function MapUsage(usage: Value): Value {
    var input, output := AsU64(Get(usage, "prompt_tokens")), AsU64(Get(usage, "completion_tokens"));
    var stated := AsU64(Get(usage, "total_tokens"));
    var total := if stated.Some? then stated.value
                 else (if input.Some? then input.value else 0) + (if output.Some? then output.value else 0);
    var base := map["total_tokens" := Num(total)];
    var more := if input.Some? then base["input_tokens" := Num(input.value)] else base;
    Obj(if output.Some? then more["output_tokens" := Num(output.value)] else more)
  }

  function FirstOf(v: Option<Value>): Option<Value> {
    if v.Some? && v.value.Arr? && v.value.items != [] then Some(v.value.items[0]) else None
  }

  function ReadChunk(v: Value): Chunk {
    var error := Get(v, "error");
    var usage := Get(v, "usage");
    var choice := FirstOf(Get(v, "choices"));
    var delta := At(choice, "delta");
    var calls := At(delta, "tool_calls");
    Chunk(
      if error.Some? && error.value != Null then
        Some(if AsStr(At(error, "message")).Some? then AsStr(At(error, "message")).value
             else "the Z.ai stream reported an error")
      else None,
      TextOf(Get(v, "id")),
      TextOf(Get(v, "model")),
      if usage.Some? && usage.value.Obj? then Some(MapUsage(usage.value)) else None,
      TextOf(At(delta, "reasoning_content")),
      TextOf(At(delta, "content")),
      if calls.Some? && calls.value.Arr? then
        seq(|calls.value.items|, i requires 0 <= i < |calls.value.items| => ReadFragment(calls.value.items[i]))
      else [],
      TextOf(At(choice, "finish_reason")))
  }

  // ----- reading a frame -----

  function StripCr(line: Bytes): Bytes {
    if line != "" && line[|line| - 1] == '\r' then line[..|line| - 1] else line
  }

  /** Adds one line's `data` value. */
  function AddLine(data: Bytes, raw: Bytes): Bytes {
    var line := StripPrefix(raw, BOM);
    var colon := IndexOf(line, ':');
    if line == "" || line[0] == ':' || colon == |line| || line[..colon] != "data" then data
    else (if data == "" then "" else data + "\n") + StripPrefix(line[colon + 1..], " ")
  }

  /** The `data` value of a frame whose lines are cut at line feeds only, as
      `str::lines` does: a carriage return is taken off only before one. */
  function DataOf(data: Bytes, text: Bytes): Bytes
    decreases |text|
  {
    if text == "" then data
    else
      var end := IndexOf(text, '\n');
      if end == |text| then AddLine(data, text) else DataOf(AddLine(data, StripCr(text[..end])), text[end + 1..])
  }

  const BAD_JSON := "the Z.ai stream sent invalid JSON"

  const NOT_UTF8 := "the Z.ai stream was not UTF-8"

  function HandleDone(cfg: Config, s: State): State {
    (if s.terminated then s else if s.started then Complete(cfg, s, false) else Fail(s, NO_CONTENT)).(finished := true)
  }

  function HandleData(cfg: Config, s: State, data: Bytes): State {
    if data == "" then s
    else if cfg.codec.trim(data) == "[DONE]" then HandleDone(cfg, s)
    else
      match cfg.codec.parse(data)
      case None => Fail(s, BAD_JSON)
      case Some(v) => HandleChunk(cfg, s, ReadChunk(v))
  }

  function HandleFrame(cfg: Config, s: State, frame: Bytes): State {
    if !cfg.codec.utf8(frame) then Fail(s, NOT_UTF8) else HandleData(cfg, s, DataOf("", frame))
  }

  // ----- the byte stream -----

  /** How the upstream body ends. */
  datatype End = Closed | Broken(message: string)

  /** The state with its input: bytes not yet framed, and the history of the
      frames handled. */
  datatype Intake = Intake(state: State, buffer: Bytes, taken: seq<Bytes>)

  function Begin(cfg: Config): Intake { Intake(Initial(cfg), "", []) }

  function Drain(cfg: Config, x: Intake): Intake
    decreases |x.buffer|
  {
    match EagerFrameLen(x.buffer)
    case None => x
    case Some(n) =>
      var frame := x.buffer[..n];
      var next := Intake(HandleFrame(cfg, x.state, frame), x.buffer[n..], x.taken + [frame]);
      if next.state.terminated then next else Drain(cfg, next)
  }

  function Push(cfg: Config, x: Intake, chunk: Bytes): Intake {
    if x.state.terminated then x
    else if |x.buffer| + |chunk| > cfg.maxBuffered then x.(state := Fail(x.state, TOO_LARGE))
    else Drain(cfg, x.(buffer := x.buffer + chunk))
  }

  const TOO_LARGE := "the Z.ai stream exceeded the buffered event limit"

  const ENDED_EARLY := "the Z.ai stream ended before a terminal event"

  function PushAll(cfg: Config, x: Intake, chunks: seq<Bytes>): Intake
    decreases |chunks|
  {
    if chunks == [] || x.state.finished then x else PushAll(cfg, Push(cfg, x, chunks[0]), chunks[1..])
  }

  function Conclude(s: State, end: End): State {
    if s.finished then s
    else
      match end
      case Broken(message) => Fail(s, message)
      case Closed => Fail(s, ENDED_EARLY).(finished := true)
  }

  function RunFrom(cfg: Config, x: Intake, chunks: seq<Bytes>, end: End): Intake {
    var y := PushAll(cfg, x, chunks);
    y.(state := Conclude(y.state, end))
  }

  /** The whole run over an upstream body that arrives in `chunks`. */
  function Run(cfg: Config, chunks: seq<Bytes>, end: End): Intake { RunFrom(cfg, Begin(cfg), chunks, end) }
}
