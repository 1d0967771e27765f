/** The Responses events the Z.ai synthesizer emits, and their JSON form. */
module Responses {
  import opened Prelude
  import opened Json

  datatype Item =
    | Reasoning(id: string, summary: seq<string>)
    | Message(id: string, done: bool, content: seq<string>)
    | FunctionCall(id: string, done: bool, callId: string, name: string, arguments: string)
    | CustomCall(id: string, done: bool, callId: string, name: string, input: string)

  datatype Status = Running | Finished | Truncated

  datatype Envelope = Envelope(id: string, status: Status, model: string, output: seq<Item>, usage: Option<Value>)

  datatype Body =
    | Created(response: Envelope)
    | InProgress(response: Envelope)
    | Completed(response: Envelope)
    | Incomplete(response: Envelope)
    | Error(message: string, responseId: Option<string>)
    | ItemAdded(index: nat, item: Item)
    | ItemDone(index: nat, item: Item)
    | SummaryPartAdded(itemId: string, index: nat)
    | SummaryDelta(itemId: string, index: nat, delta: string)
    | SummaryDone(itemId: string, index: nat, text: string)
    | SummaryPartDone(itemId: string, index: nat, text: string)
    | ContentPartAdded(itemId: string, index: nat)
    | TextDelta(itemId: string, index: nat, delta: string)
    | TextDone(itemId: string, index: nat, text: string)
    | ContentPartDone(itemId: string, index: nat, text: string)
    | ArgumentsDelta(itemId: string, index: nat, delta: string)
    | ArgumentsDone(itemId: string, index: nat, arguments: string)
    | InputDelta(itemId: string, index: nat, delta: string)
    | InputDone(itemId: string, index: nat, input: string)

  datatype Event = Event(sequence: nat, body: Body)

  /** Events after which nothing may follow. */
  predicate Ending(body: Body) { body.Completed? || body.Incomplete? || body.Error? }

  function Kind(body: Body): string {
    match body
    case Created(_) => "response.created"
    case InProgress(_) => "response.in_progress"
    case Completed(_) => "response.completed"
    case Incomplete(_) => "response.incomplete"
    case Error(_, _) => "error"
    case ItemAdded(_, _) => "response.output_item.added"
    case ItemDone(_, _) => "response.output_item.done"
    case SummaryPartAdded(_, _) => "response.reasoning_summary_part.added"
    case SummaryDelta(_, _, _) => "response.reasoning_summary_text.delta"
    case SummaryDone(_, _, _) => "response.reasoning_summary_text.done"
    case SummaryPartDone(_, _, _) => "response.reasoning_summary_part.done"
    case ContentPartAdded(_, _) => "response.content_part.added"
    case TextDelta(_, _, _) => "response.output_text.delta"
    case TextDone(_, _, _) => "response.output_text.done"
    case ContentPartDone(_, _, _) => "response.content_part.done"
    case ArgumentsDelta(_, _, _) => "response.function_call_arguments.delta"
    case ArgumentsDone(_, _, _) => "response.function_call_arguments.done"
    case InputDelta(_, _, _) => "response.custom_tool_call_input.delta"
    case InputDone(_, _, _) => "response.custom_tool_call_input.done"
  }

  function StatusText(status: Status): string {
    match status
    case Running => "in_progress"
    case Finished => "completed"
    case Truncated => "incomplete"
  }

  function SummaryJson(text: string): Value {
    Obj(map["type" := Str("summary_text"), "text" := Str(text)])
  }

  function ContentJson(text: string): Value {
    Obj(map["type" := Str("output_text"), "text" := Str(text), "annotations" := Arr([])])
  }

  function CallJson(kind: string, payloadKey: string, item: Item, payload: string): Value
    requires item.FunctionCall? || item.CustomCall?
  {
    Obj(map[
      "id" := Str(item.id), "type" := Str(kind), "status" := Str(StatusText(if item.done then Finished else Running)),
      "call_id" := Str(item.callId), "name" := Str(item.name), payloadKey := Str(payload)])
  }

  function ItemJson(item: Item): Value {
    match item
    case Reasoning(id, summary) =>
      Obj(map["id" := Str(id), "type" := Str("reasoning"),
              "summary" := Arr(seq(|summary|, i requires 0 <= i < |summary| => SummaryJson(summary[i])))])
    case Message(id, done, content) =>
      Obj(map["id" := Str(id), "type" := Str("message"), "role" := Str("assistant"),
              "status" := Str(StatusText(if done then Finished else Running)),
              "content" := Arr(seq(|content|, i requires 0 <= i < |content| => ContentJson(content[i])))])
    case FunctionCall(_, _, _, _, arguments) => CallJson("function_call", "arguments", item, arguments)
    case CustomCall(_, _, _, _, input) => CallJson("custom_tool_call", "input", item, input)
  }

  function EnvelopeJson(e: Envelope): Value {
    var common := map[
      "id" := Str(e.id), "object" := Str("response"), "status" := Str(StatusText(e.status)), "model" := Str(e.model),
      "output" := Arr(seq(|e.output|, i requires 0 <= i < |e.output| => ItemJson(e.output[i])))];
    var metered := if e.usage.Some? then common["usage" := e.usage.value] else common;
    Obj(if e.status == Truncated then metered["incomplete_details" := Obj(map["reason" := Str("max_output_tokens")])]
        else metered)
  }

  function PartFields(itemId: string, index: nat, partKey: string): map<string, Value> {
    map["item_id" := Str(itemId), "output_index" := Num(index), partKey := Num(0)]
  }

  /** The members of an event besides its type and sequence number. */
  function BodyFields(body: Body): map<string, Value> {
    match body
    case Created(response) => map["response" := EnvelopeJson(response)]
    case InProgress(response) => map["response" := EnvelopeJson(response)]
    case Completed(response) => map["response" := EnvelopeJson(response)]
    case Incomplete(response) => map["response" := EnvelopeJson(response)]
    case Error(message, id) =>
      var base := map["message" := Str(message), "code" := Str("invalid_request")];
      if id.Some? then base["response_id" := Str(id.value)] else base
    case ItemAdded(index, item) => map["output_index" := Num(index), "item" := ItemJson(item)]
    case ItemDone(index, item) => map["output_index" := Num(index), "item" := ItemJson(item)]
    case SummaryPartAdded(id, index) => PartFields(id, index, "summary_index")["part" := SummaryJson("")]
    case SummaryDelta(id, index, delta) => PartFields(id, index, "summary_index")["delta" := Str(delta)]
    case SummaryDone(id, index, text) => PartFields(id, index, "summary_index")["text" := Str(text)]
    case SummaryPartDone(id, index, text) => PartFields(id, index, "summary_index")["part" := SummaryJson(text)]
    case ContentPartAdded(id, index) => PartFields(id, index, "content_index")["part" := ContentJson("")]
    case TextDelta(id, index, delta) => PartFields(id, index, "content_index")["delta" := Str(delta)]
    case TextDone(id, index, text) => PartFields(id, index, "content_index")["text" := Str(text)]
    case ContentPartDone(id, index, text) => PartFields(id, index, "content_index")["part" := ContentJson(text)]
    case ArgumentsDelta(id, index, delta) =>
      map["item_id" := Str(id), "output_index" := Num(index), "delta" := Str(delta)]
    case ArgumentsDone(id, index, arguments) =>
      map["item_id" := Str(id), "output_index" := Num(index), "arguments" := Str(arguments)]
    case InputDelta(id, index, delta) => map["item_id" := Str(id), "output_index" := Num(index), "delta" := Str(delta)]
    case InputDone(id, index, input) => map["item_id" := Str(id), "output_index" := Num(index), "input" := Str(input)]
  }

  function EventJson(e: Event): Value {
    Obj(BodyFields(e.body)["type" := Str(Kind(e.body))]["sequence_number" := Num(e.sequence)])
  }
}
