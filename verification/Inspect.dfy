/** How the gateway reads one complete frame: fields, JSON, event kind, shape. */
module Inspect {
  import opened Prelude
  import opened Json

  datatype Inspected = Inspected(kind: string, sequence: Option<nat>, value: Value)

  /** Why the gateway gives up on a stream. */
  datatype Reason =
    | Oversized | StreamInterrupted | StreamIdle | EndedEarly | EndedInside
    | NotUtf8 | NoData | EarlyDone | BadJson | NoType | NameMismatch | UnknownEvent | BadSequence
    | NoResponse | BadResponseId | BadCancelledId | NoDelta | NoItem | NoMessage

  datatype Disposition = Keep(event: Inspected) | Drop(event: Inspected) | Reject(reason: Reason)

  /** The event kinds a validator tells apart. */
  datatype Events = Events(
    known: string -> bool,
    metadata: string -> bool,
    terminal: string -> bool,
    failing: string -> bool,
    lifecycle: string -> bool,
    delta: string -> bool,
    item: string -> bool)

  /** The kinds of the Responses protocol, as the gateway lists them. */
  const RESPONSES := Events(
    kind => kind in {
      "error",
      "response.created", "response.queued", "response.in_progress", "response.completed",
      "response.failed", "response.incomplete", "response.cancelled",
      "response.output_item.added", "response.output_item.done",
      "response.content_part.added", "response.content_part.done",
      "response.output_text.delta", "response.output_text.done", "response.output_text.annotation.added",
      "response.refusal.delta", "response.refusal.done",
      "response.function_call_arguments.delta", "response.function_call_arguments.done",
      "response.custom_tool_call_input.delta", "response.custom_tool_call_input.done",
      "response.reasoning_summary_part.added", "response.reasoning_summary_part.done",
      "response.reasoning_summary_text.delta", "response.reasoning_summary_text.done",
      "response.reasoning_text.delta", "response.reasoning_text.done",
      "response.audio.delta", "response.audio.done",
      "response.audio.transcript.delta", "response.audio.transcript.done",
      "response.output_audio.delta", "response.output_audio.done",
      "response.output_audio_transcript.delta", "response.output_audio_transcript.done",
      "response.file_search_call.in_progress", "response.file_search_call.searching",
      "response.file_search_call.completed",
      "response.web_search_call.in_progress", "response.web_search_call.searching",
      "response.web_search_call.completed",
      "response.code_interpreter_call.in_progress", "response.code_interpreter_call.interpreting",
      "response.code_interpreter_call.completed",
      "response.code_interpreter_call_code.delta", "response.code_interpreter_call_code.done",
      "response.mcp_call.in_progress", "response.mcp_call.completed", "response.mcp_call.failed",
      "response.mcp_call_arguments.delta", "response.mcp_call_arguments.done",
      "response.mcp_list_tools.in_progress", "response.mcp_list_tools.completed", "response.mcp_list_tools.failed",
      "response.image_generation_call.in_progress", "response.image_generation_call.generating",
      "response.image_generation_call.completed", "response.image_generation_call.partial_image"
    },
    kind => kind in {"response.metadata", "codex.response.metadata", "codex.rate_limits"},
    kind => kind in {"response.completed", "response.failed", "response.incomplete", "response.cancelled"},
    kind => kind in {"error", "response.failed", "response.cancelled"},
    kind => kind in {"response.created", "response.completed", "response.failed", "response.incomplete"},
    kind => kind in {
      "response.output_text.delta", "response.refusal.delta",
      "response.function_call_arguments.delta", "response.custom_tool_call_input.delta",
      "response.reasoning_summary_text.delta", "response.reasoning_text.delta",
      "response.audio.delta", "response.audio.transcript.delta",
      "response.output_audio.delta", "response.output_audio_transcript.delta",
      "response.code_interpreter_call_code.delta", "response.mcp_call_arguments.delta"
    },
    kind => kind in {"response.output_item.added", "response.output_item.done"})

  /** The `event` and `data` fields collected so far. */
  datatype Fields = Fields(event: Option<Bytes>, data: seq<Bytes>)

  /** Lines as cut by `split_terminator(['\r', '\n'])`: every break ends a
      line, so CR LF also yields an empty one. */
  function Lines(t: Bytes): seq<Bytes> {
    if t == "" then []
    else if IsBreak(t[0]) then [""] + Lines(t[1..])
    else
      var rest := Lines(t[1..]);
      if rest == [] || IsBreak(t[1]) then [[t[0]]] + (if rest == [] then [] else rest[1..])
      else [[t[0]] + rest[0]] + rest[1..]
  }

  function FieldOf(line: Bytes): Bytes { line[..IndexOf(line, ':')] }

  function ValueOf(line: Bytes): Bytes {
    var colon := IndexOf(line, ':');
    if colon == |line| then "" else StripPrefix(line[colon + 1..], " ")
  }

  function ReadLine(f: Fields, line: Bytes): Fields {
    if line == "" || line[0] == ':' then f
    else if FieldOf(line) == "event" then f.(event := Some(ValueOf(line)))
    else if FieldOf(line) == "data" then f.(data := f.data + [ValueOf(line)])
    else f
  }

  function ReadLines(lines: seq<Bytes>): Fields {
    if lines == [] then Fields(None, []) else ReadLine(ReadLines(lines[..|lines| - 1]), lines[|lines| - 1])
  }

  method CollectFields(text: Bytes) returns (f: Fields)
    ensures f == ReadLines(Lines(text))
  {
    var lines := Lines(text);
    var event: Option<Bytes>, data: seq<Bytes> := None, [];
    for i := 0 to |lines|
      invariant Fields(event, data) == ReadLines(lines[..i])
    {
      assert lines[..i + 1][..i] == lines[..i];
      var line := lines[i];
      if line == "" || line[0] == ':' {
        continue;
      }
      var field, value := FieldOf(line), ValueOf(line);
      if field == "event" {
        event := Some(value);
      } else if field == "data" {
        data := data + [value];
      }
    }
    assert lines[..|lines|] == lines;
    f := Fields(event, data);
  }

  function InspectFields(c: Codec, ev: Events, f: Fields): Disposition {
    if f.data == [] then
      if f.event.None? then Drop(Inspected("sse.comment", None, Null))
      else Reject(NoData)
    else
      var data := Join(f.data, "\n");
      if data == "[DONE]" then Reject(EarlyDone)
      else
        match c.parse(data)
        case None => Reject(BadJson)
        case Some(value) => InspectValue(c, ev, f.event, value)
  }

  function InspectValue(c: Codec, ev: Events, name: Option<Bytes>, value: Value): Disposition {
    match AsStr(Get(value, "type"))
    case None => Reject(NoType)
    case Some(kind) =>
      if name.Some? && name.value != "message" && name.value != kind then
        Reject(NameMismatch)
      else if !ev.metadata(kind) && !ev.known(kind) then
        Reject(UnknownEvent)
      else
        var sequence := Get(value, "sequence_number");
        if sequence.Some? && AsU64(sequence).None? then
          Reject(BadSequence)
        else
          match ShapeFault(c, ev, kind, value)
          case Some(reason) => Reject(reason)
          case None =>
            var event := Inspected(kind, AsU64(sequence), value);
            if ev.metadata(kind) then Drop(event) else Keep(event)
  }

  function InspectFrame(c: Codec, ev: Events, frame: Bytes): Disposition {
    if !c.utf8(frame) then Reject(NotUtf8)
    else InspectFields(c, ev, ReadLines(Lines(StripPrefix(frame, BOM))))
  }

  method Examine(c: Codec, ev: Events, frame: Bytes) returns (d: Disposition)
    ensures d == InspectFrame(c, ev, frame)
  {
    if !c.utf8(frame) {
      return Reject(NotUtf8);
    }
    var fields := CollectFields(StripPrefix(frame, BOM));
    return InspectFields(c, ev, fields);
  }

  predicate SafeIdentifier(c: Codec, id: string) {
    id != "" && |id| <= 512 && !c.blank(id)
  }

  predicate SafeText(c: Codec, v: Option<Value>) {
    AsStr(v).Some? && SafeIdentifier(c, AsStr(v).value)
  }

  /** The first shape rule the event breaks, if any. */
  function ShapeFault(c: Codec, ev: Events, kind: string, value: Value): Option<Reason> {
    var response := Get(value, "response");
    if ev.lifecycle(kind) && (response.None? || !response.value.Obj?) then
      Some(NoResponse)
    else if ev.lifecycle(kind) && !SafeText(c, At(response, "id")) then
      Some(BadResponseId)
    else if kind == "response.cancelled"
            && !SafeText(c, if At(response, "id").Some? then At(response, "id") else Get(value, "response_id")) then
      Some(BadCancelledId)
    else if ev.delta(kind) && AsStr(Get(value, "delta")).None? then
      Some(NoDelta)
    else if ev.item(kind) && (Get(value, "item").None? || !Get(value, "item").value.Obj?) then
      Some(NoItem)
    else if kind == "error" && TextOf(Get(value, "message")) == "" then
      Some(NoMessage)
    else None
  }

  // ----- the rules one by one, and which of them is reported -----

  /** The values of a field, in order. */
  function Values(lines: seq<Bytes>, field: Bytes): seq<Bytes> {
    if lines == [] then []
    else (if FieldOf(lines[0]) == field then [ValueOf(lines[0])] else []) + Values(lines[1..], field)
  }

  lemma {:induction false} ValuesAppend(lines: seq<Bytes>, line: Bytes, field: Bytes)
    ensures Values(lines + [line], field)
         == Values(lines, field) + if FieldOf(line) == field then [ValueOf(line)] else []
  {
    if lines == [] {
      assert [] + [line] == [line];
    } else {
      assert (lines + [line])[1..] == lines[1..] + [line];
      ValuesAppend(lines[1..], line, field);
    }
  }

  function LastOf(values: seq<Bytes>): Option<Bytes> {
    if values == [] then None else Some(values[|values| - 1])
  }

  /** Empty lines and comments need no rule of their own: they are fields
      without a name. */
  lemma {:induction false} FieldsRead(lines: seq<Bytes>)
    ensures ReadLines(lines) == Fields(LastOf(Values(lines, "event")), Values(lines, "data"))
    decreases |lines|
  {
    if lines != [] {
      var front, line := lines[..|lines| - 1], lines[|lines| - 1];
      FieldsRead(front);
      assert lines == front + [line];
      ValuesAppend(front, line, "event");
      ValuesAppend(front, line, "data");
      assert line == "" || line[0] == ':' ==> FieldOf(line) == "";
    }
  }

  function NamesOf(frame: Bytes): seq<Bytes> { Values(Lines(StripPrefix(frame, BOM)), "event") }

  function DataOf(frame: Bytes): seq<Bytes> { Values(Lines(StripPrefix(frame, BOM)), "data") }

  function PayloadOf(c: Codec, frame: Bytes): Option<Value> {
    if DataOf(frame) == [] then None else c.parse(Join(DataOf(frame), "\n"))
  }

  function KindOf(c: Codec, frame: Bytes): Option<string> {
    if PayloadOf(c, frame).Some? then AsStr(Get(PayloadOf(c, frame).value, "type")) else None
  }

  /** Whether a frame breaks a rule, whatever other rules it breaks. */
  predicate Breaks(c: Codec, ev: Events, frame: Bytes, rule: Reason) {
    var names, data, payload, kind := NamesOf(frame), DataOf(frame), PayloadOf(c, frame), KindOf(c, frame);
    match rule
    case NotUtf8 => !c.utf8(frame)
    case NoData => data == [] && names != []
    case EarlyDone => data != [] && Join(data, "\n") == "[DONE]"
    case BadJson => data != [] && payload.None?
    case NoType => payload.Some? && kind.None?
    case NameMismatch => names != [] && kind.Some? && LastOf(names) !in {Some("message"), kind}
    case UnknownEvent => kind.Some? && !ev.metadata(kind.value) && !ev.known(kind.value)
    case BadSequence => At(payload, "sequence_number").Some? && AsU64(At(payload, "sequence_number")).None?
    case _ => kind.Some? && Misshapen(c, ev, kind.value, payload.value, rule)
  }

  predicate Misshapen(c: Codec, ev: Events, kind: string, value: Value, rule: Reason) {
    var response, item := Get(value, "response"), Get(value, "item");
    match rule
    case NoResponse => ev.lifecycle(kind) && !(response.Some? && response.value.Obj?)
    case BadResponseId => ev.lifecycle(kind) && !SafeText(c, At(response, "id"))
    case BadCancelledId =>
      && kind == "response.cancelled"
      && !SafeText(c, if At(response, "id").Some? then At(response, "id") else Get(value, "response_id"))
    case NoDelta => ev.delta(kind) && AsStr(Get(value, "delta")).None?
    case NoItem => ev.item(kind) && !(item.Some? && item.value.Obj?)
    case NoMessage => kind == "error" && TextOf(Get(value, "message")) == ""
    case _ => false
  }

  /** The order in which the rules count. */
  function Rank(rule: Reason): nat {
    match rule
    case NotUtf8 => 0
    case NoData => 1
    case EarlyDone => 2
    case BadJson => 3
    case NoType => 4
    case NameMismatch => 5
    case UnknownEvent => 6
    case BadSequence => 7
    case NoResponse => 8
    case BadResponseId => 9
    case BadCancelledId => 10
    case NoDelta => 11
    case NoItem => 12
    case NoMessage => 13
    case _ => 14
  }

  /** The rule a frame breaks that counts first. */
  ghost predicate FirstBroken(c: Codec, ev: Events, frame: Bytes, rule: Reason) {
    && Breaks(c, ev, frame, rule)
    && forall other: Reason | Rank(other) < Rank(rule) :: !Breaks(c, ev, frame, other)
  }

  ghost predicate Unbroken(c: Codec, ev: Events, frame: Bytes) {
    forall rule: Reason :: !Breaks(c, ev, frame, rule)
  }

  lemma ShapeJudged(c: Codec, ev: Events, kind: string, value: Value)
    ensures match ShapeFault(c, ev, kind, value)
            case None => forall rule: Reason :: !Misshapen(c, ev, kind, value, rule)
            case Some(first) =>
              && 8 <= Rank(first) < 14 && Misshapen(c, ev, kind, value, first)
              && forall rule: Reason | Rank(rule) < Rank(first) :: !Misshapen(c, ev, kind, value, rule)
  {
  }

  function Judged(c: Codec, frame: Bytes, kind: string): Inspected
    requires PayloadOf(c, frame).Some?
  {
    var value := PayloadOf(c, frame).value;
    Inspected(kind, AsU64(Get(value, "sequence_number")), value)
  }

  lemma ReadAsFields(c: Codec, ev: Events, frame: Bytes)
    ensures InspectFrame(c, ev, frame)
         == if c.utf8(frame) then InspectFields(c, ev, Fields(LastOf(NamesOf(frame)), DataOf(frame)))
            else Reject(NotUtf8)
  {
    FieldsRead(Lines(StripPrefix(frame, BOM)));
  }

  lemma UnreadRejected(c: Codec, ev: Events, frame: Bytes, rule: Reason)
    requires InspectFrame(c, ev, frame) == Reject(rule) && Rank(rule) < 4
    ensures FirstBroken(c, ev, frame, rule)
  {
    ReadAsFields(c, ev, frame);
  }

  lemma MisreadRejected(c: Codec, ev: Events, frame: Bytes, rule: Reason)
    requires c.utf8(frame) && PayloadOf(c, frame).Some? && Join(DataOf(frame), "\n") != "[DONE]"
    requires InspectValue(c, ev, LastOf(NamesOf(frame)), PayloadOf(c, frame).value) == Reject(rule) && Rank(rule) < 8
    ensures FirstBroken(c, ev, frame, rule)
  {
    var kind := KindOf(c, frame);
    if kind.Some? {
      ShapeJudged(c, ev, kind.value, PayloadOf(c, frame).value);
    }
  }

  lemma MisshapenRejected(c: Codec, ev: Events, frame: Bytes, rule: Reason)
    requires c.utf8(frame) && PayloadOf(c, frame).Some? && Join(DataOf(frame), "\n") != "[DONE]"
    requires InspectValue(c, ev, LastOf(NamesOf(frame)), PayloadOf(c, frame).value) == Reject(rule) && Rank(rule) >= 8
    ensures FirstBroken(c, ev, frame, rule)
  {
    ShapeJudged(c, ev, KindOf(c, frame).value, PayloadOf(c, frame).value);
  }

  lemma ValueRejected(c: Codec, ev: Events, frame: Bytes, rule: Reason)
    requires c.utf8(frame) && PayloadOf(c, frame).Some? && Join(DataOf(frame), "\n") != "[DONE]"
    requires InspectValue(c, ev, LastOf(NamesOf(frame)), PayloadOf(c, frame).value) == Reject(rule)
    ensures FirstBroken(c, ev, frame, rule)
  {
    if Rank(rule) < 8 {
      MisreadRejected(c, ev, frame, rule);
    } else {
      MisshapenRejected(c, ev, frame, rule);
    }
  }

  lemma ValuePasses(c: Codec, ev: Events, frame: Bytes)
    requires c.utf8(frame) && PayloadOf(c, frame).Some? && Join(DataOf(frame), "\n") != "[DONE]"
    requires !InspectValue(c, ev, LastOf(NamesOf(frame)), PayloadOf(c, frame).value).Reject?
    ensures Unbroken(c, ev, frame) && KindOf(c, frame).Some?
    ensures var event := Judged(c, frame, KindOf(c, frame).value);
            InspectValue(c, ev, LastOf(NamesOf(frame)), PayloadOf(c, frame).value)
            == if ev.metadata(event.kind) then Drop(event) else Keep(event)
  {
    ShapeJudged(c, ev, KindOf(c, frame).value, PayloadOf(c, frame).value);
  }

  /** A frame that breaks no rule is dropped when it has no data or is metadata,
      and kept otherwise, with its kind, number and payload. */
  lemma FrameJudged(c: Codec, ev: Events, frame: Bytes)
    ensures match InspectFrame(c, ev, frame)
            case Reject(rule) => FirstBroken(c, ev, frame, rule)
            case Keep(event) =>
              && Unbroken(c, ev, frame)
              && KindOf(c, frame).Some? && event == Judged(c, frame, KindOf(c, frame).value) && !ev.metadata(event.kind)
            case Drop(event) =>
              && Unbroken(c, ev, frame)
              && if DataOf(frame) == [] then event == Inspected("sse.comment", None, Null)
                 else KindOf(c, frame).Some? && event == Judged(c, frame, KindOf(c, frame).value)
                      && ev.metadata(event.kind)
  {
    ReadAsFields(c, ev, frame);
    if InspectFrame(c, ev, frame) in {Reject(NotUtf8), Reject(NoData), Reject(EarlyDone), Reject(BadJson)} {
      UnreadRejected(c, ev, frame, InspectFrame(c, ev, frame).reason);
    } else {
      if PayloadOf(c, frame).Some? && Join(DataOf(frame), "\n") != "[DONE]" {
        var d := InspectFrame(c, ev, frame);
        if d.Reject? {
          ValueRejected(c, ev, frame, d.reason);
        } else {
          ValuePasses(c, ev, frame);
        }
      }
    }
  }

  lemma RankedBreaks(c: Codec, ev: Events, frame: Bytes, rule: Reason)
    requires Breaks(c, ev, frame, rule)
    ensures Rank(rule) < 14
  {
  }

  lemma OneRuleOfARank(a: Reason, b: Reason)
    requires Rank(a) == Rank(b) < 14
    ensures a == b
  {
  }

  /** A frame is rejected for the first rule it breaks, and for no other reason. */
  lemma RejectedExactly(c: Codec, ev: Events, frame: Bytes, rule: Reason)
    ensures InspectFrame(c, ev, frame) == Reject(rule) <==> FirstBroken(c, ev, frame, rule)
  {
    var d := InspectFrame(c, ev, frame);
    FrameJudged(c, ev, frame);
    if FirstBroken(c, ev, frame, rule) {
      RankedBreaks(c, ev, frame, rule);
      assert d.Reject?;
      OneRuleOfARank(d.reason, rule);
    }
  }

  lemma KeptExactly(c: Codec, ev: Events, frame: Bytes, event: Inspected)
    ensures InspectFrame(c, ev, frame) == Keep(event)
       <==> && Unbroken(c, ev, frame)
            && KindOf(c, frame).Some? && !ev.metadata(KindOf(c, frame).value)
            && event == Judged(c, frame, KindOf(c, frame).value)
  {
    FrameJudged(c, ev, frame);
  }

  // ----- the table of events -----

  function EndOf(kind: string): char { if kind == "" then ' ' else kind[|kind| - 1] }

  /** Every kind the gateway counts as a delta is known and named as one. */
  lemma DeltasAreKnown(kind: string)
    requires RESPONSES.delta(kind)
    ensures RESPONSES.known(kind) && EndOf(kind) == 'a'
  {
  }

  /** Known kinds named as deltas are counted as deltas. */
  lemma KnownDeltas(kind: string)
    requires RESPONSES.known(kind) && EndOf(kind) == 'a'
    ensures RESPONSES.delta(kind)
  {
  }

  lemma EndingsAreKnown(kind: string)
    requires RESPONSES.terminal(kind) || RESPONSES.failing(kind) || RESPONSES.lifecycle(kind) || RESPONSES.item(kind)
    ensures RESPONSES.known(kind) && !RESPONSES.delta(kind)
  {
  }

  /** The life of a response. */
  predicate OfResponseLife(kind: string) {
    kind == "response.created" || kind == "response.queued" || kind == "response.in_progress"
    || kind == "response.completed" || kind == "response.failed" || kind == "response.incomplete"
    || kind == "response.cancelled"
  }

  /** Items and parts that are opened and closed. */
  predicate OfPart(kind: string) {
    kind == "response.output_item.added" || kind == "response.output_item.done"
    || kind == "response.content_part.added" || kind == "response.content_part.done"
    || kind == "response.reasoning_summary_part.added" || kind == "response.reasoning_summary_part.done"
  }

  /** Texts and other contents that are streamed. */
  predicate OfText(kind: string) {
    kind == "response.output_text.delta" || kind == "response.output_text.done"
    || kind == "response.refusal.delta" || kind == "response.refusal.done"
    || kind == "response.function_call_arguments.delta" || kind == "response.function_call_arguments.done"
    || kind == "response.custom_tool_call_input.delta" || kind == "response.custom_tool_call_input.done"
    || kind == "response.reasoning_summary_text.delta" || kind == "response.reasoning_summary_text.done"
    || kind == "response.reasoning_text.delta" || kind == "response.reasoning_text.done"
    || kind == "response.audio.delta" || kind == "response.audio.done"
    || kind == "response.audio.transcript.delta" || kind == "response.audio.transcript.done"
    || kind == "response.output_audio.delta" || kind == "response.output_audio.done"
    || kind == "response.output_audio_transcript.delta" || kind == "response.output_audio_transcript.done"
    || kind == "response.code_interpreter_call_code.delta" || kind == "response.code_interpreter_call_code.done"
    || kind == "response.mcp_call_arguments.delta" || kind == "response.mcp_call_arguments.done"
    || kind == "response.output_text.annotation.added"
  }

  /** Calls that the provider runs itself. */
  predicate OfHostedCall(kind: string) {
    kind == "response.file_search_call.in_progress" || kind == "response.file_search_call.searching"
    || kind == "response.file_search_call.completed" || kind == "response.web_search_call.in_progress"
    || kind == "response.web_search_call.searching" || kind == "response.web_search_call.completed"
    || kind == "response.code_interpreter_call.in_progress"
    || kind == "response.code_interpreter_call.interpreting"
    || kind == "response.code_interpreter_call.completed" || kind == "response.mcp_call.in_progress"
    || kind == "response.mcp_call.completed" || kind == "response.mcp_call.failed"
    || kind == "response.mcp_list_tools.in_progress" || kind == "response.mcp_list_tools.completed"
    || kind == "response.mcp_list_tools.failed" || kind == "response.image_generation_call.in_progress"
    || kind == "response.image_generation_call.generating" || kind == "response.image_generation_call.completed"
    || kind == "response.image_generation_call.partial_image"
  }

  /** The kinds of event the gateway knows. */
  lemma KindsSpelled(kind: string)
    ensures RESPONSES.known(kind)
       <==> kind == "error" || OfResponseLife(kind) || OfPart(kind) || OfText(kind) || OfHostedCall(kind)
    ensures RESPONSES.metadata(kind)
       <==> kind == "response.metadata" || kind == "codex.response.metadata" || kind == "codex.rate_limits"
  {
  }

  /** Which kinds end a response, report its failure, or carry it whole. */
  lemma EndingsSpelled(kind: string)
    ensures RESPONSES.terminal(kind)
       <==> kind == "response.completed" || kind == "response.incomplete" || kind == "response.failed"
            || kind == "response.cancelled"
    ensures RESPONSES.failing(kind) <==> kind == "error" || kind == "response.failed" || kind == "response.cancelled"
    ensures RESPONSES.lifecycle(kind)
       <==> kind == "response.created" || kind == "response.completed" || kind == "response.incomplete"
            || kind == "response.failed"
    ensures RESPONSES.item(kind) <==> kind == "response.output_item.added" || kind == "response.output_item.done"
  {
  }
}
