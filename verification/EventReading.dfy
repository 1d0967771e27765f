/** Reading a Responses event back from its JSON: a client's reader, which asks
    for every member by name and for every fixed member's value. */
module EventReading {
  import opened Prelude
  import opened Json
  import opened Responses

  function StrAt(v: Value, key: string): Option<string> { AsStr(Get(v, key)) }

  function NatAt(v: Value, key: string): Option<nat> {
    var n := Get(v, key);
    if n.Some? && n.value.Num? && n.value.n >= 0 then Some(n.value.n) else None
  }

  predicate Is(v: Value, key: string, text: string) { StrAt(v, key) == Some(text) }

  // ----- parts, items, envelopes -----

  /** The text of a part of the given type. */
  function ReadPart(v: Option<Value>, kind: string): Option<string> {
    if v.None? || !Is(v.value, "type", kind) then None
    else if kind == "output_text" && Get(v.value, "annotations") != Some(Arr([])) then None
    else StrAt(v.value, "text")
  }

  function ReadParts(parts: seq<Value>, kind: string): Option<seq<string>>
    decreases |parts|
  {
    if parts == [] then Some([])
    else
      var first, rest := ReadPart(Some(parts[0]), kind), ReadParts(parts[1..], kind);
      if first.None? || rest.None? then None else Some([first.value] + rest.value)
  }

  function PartsAt(v: Value, key: string, kind: string): Option<seq<string>> {
    var parts := Get(v, key);
    if parts.Some? && parts.value.Arr? then ReadParts(parts.value.items, kind) else None
  }

  /** Whether an item is finished. */
  function DoneAt(v: Value): Option<bool> {
    if Is(v, "status", "completed") then Some(true) else if Is(v, "status", "in_progress") then Some(false) else None
  }

  function ReadCall(v: Value, payload: string): Option<(bool, string, string, string)> {
    var done, callId, name, text := DoneAt(v), StrAt(v, "call_id"), StrAt(v, "name"), StrAt(v, payload);
    if done.None? || callId.None? || name.None? || text.None? then None
    else Some((done.value, callId.value, name.value, text.value))
  }

  function ReadItem(v: Value): Option<Item> {
    var id := StrAt(v, "id");
    if id.None? then None
    else if Is(v, "type", "reasoning") then
      var summary := PartsAt(v, "summary", "summary_text");
      if summary.None? then None else Some(Reasoning(id.value, summary.value))
    else if Is(v, "type", "message") then
      var done, content := DoneAt(v), PartsAt(v, "content", "output_text");
      if done.None? || content.None? || !Is(v, "role", "assistant") then None
      else Some(Message(id.value, done.value, content.value))
    else if Is(v, "type", "function_call") then
      match ReadCall(v, "arguments")
      case None => None
      case Some((done, callId, name, text)) => Some(FunctionCall(id.value, done, callId, name, text))
    else if Is(v, "type", "custom_tool_call") then
      match ReadCall(v, "input")
      case None => None
      case Some((done, callId, name, text)) => Some(CustomCall(id.value, done, callId, name, text))
    else None
  }

  function ReadItems(items: seq<Value>): Option<seq<Item>>
    decreases |items|
  {
    if items == [] then Some([])
    else
      var first, rest := ReadItem(items[0]), ReadItems(items[1..]);
      if first.None? || rest.None? then None else Some([first.value] + rest.value)
  }

  /** The status, with the reason that goes with a truncated response. */
  function StatusAt(v: Value): Option<Status> {
    var details := Get(v, "incomplete_details");
    if Is(v, "status", "incomplete") then
      if details.Some? && Is(details.value, "reason", "max_output_tokens") then Some(Truncated) else None
    else if details.Some? then None
    else if Is(v, "status", "completed") then Some(Finished)
    else if Is(v, "status", "in_progress") then Some(Running)
    else None
  }

  function ReadEnvelope(v: Value): Option<Envelope> {
    var id, status, model, output := StrAt(v, "id"), StatusAt(v), StrAt(v, "model"), Get(v, "output");
    if id.None? || status.None? || model.None? || output.None? || !output.value.Arr? || !Is(v, "object", "response")
    then None
    else
      var items := ReadItems(output.value.items);
      if items.None? then None else Some(Envelope(id.value, status.value, model.value, items.value, Get(v, "usage")))
  }

  // ----- bodies -----

  datatype Tag =
    | TCreated | TInProgress | TCompleted | TIncomplete | TError | TAdded | TDone
    | TSummaryAdded | TSummaryDelta | TSummaryText | TSummaryDone
    | TPartAdded | TTextDelta | TText | TPartDone
    | TArgumentsDelta | TArguments | TInputDelta | TInput

  function TagOf(kind: string): Option<Tag> {
    if |kind| < 20 then ShortTag(kind)
    else if "response.reasoning_summary" <= kind then SummaryTag(kind)
    else LongTag(kind)
  }

  function ShortTag(kind: string): Option<Tag> {
    if kind == "response.created" then Some(TCreated)
    else if kind == "response.completed" then Some(TCompleted)
    else if kind == "response.incomplete" then Some(TIncomplete)
    else if kind == "error" then Some(TError)
    else None
  }

  function SummaryTag(kind: string): Option<Tag> {
    if kind == "response.reasoning_summary_part.added" then Some(TSummaryAdded)
    else if kind == "response.reasoning_summary_text.delta" then Some(TSummaryDelta)
    else if kind == "response.reasoning_summary_text.done" then Some(TSummaryText)
    else if kind == "response.reasoning_summary_part.done" then Some(TSummaryDone)
    else None
  }

  function LongTag(kind: string): Option<Tag> {
    if kind == "response.in_progress" then Some(TInProgress)
    else if kind == "response.output_item.added" then Some(TAdded)
    else if kind == "response.output_item.done" then Some(TDone)
    else if kind == "response.content_part.added" then Some(TPartAdded)
    else if kind == "response.output_text.delta" then Some(TTextDelta)
    else if kind == "response.output_text.done" then Some(TText)
    else if kind == "response.content_part.done" then Some(TPartDone)
    else if kind == "response.function_call_arguments.delta" then Some(TArgumentsDelta)
    else if kind == "response.function_call_arguments.done" then Some(TArguments)
    else if kind == "response.custom_tool_call_input.delta" then Some(TInputDelta)
    else if kind == "response.custom_tool_call_input.done" then Some(TInput)
    else None
  }

  function TagFor(body: Body): Tag {
    match body
    case Created(_) => TCreated
    case InProgress(_) => TInProgress
    case Completed(_) => TCompleted
    case Incomplete(_) => TIncomplete
    case Error(_, _) => TError
    case ItemAdded(_, _) => TAdded
    case ItemDone(_, _) => TDone
    case SummaryPartAdded(_, _) => TSummaryAdded
    case SummaryDelta(_, _, _) => TSummaryDelta
    case SummaryDone(_, _, _) => TSummaryText
    case SummaryPartDone(_, _, _) => TSummaryDone
    case ContentPartAdded(_, _) => TPartAdded
    case TextDelta(_, _, _) => TTextDelta
    case TextDone(_, _, _) => TText
    case ContentPartDone(_, _, _) => TPartDone
    case ArgumentsDelta(_, _, _) => TArgumentsDelta
    case ArgumentsDone(_, _, _) => TArguments
    case InputDelta(_, _, _) => TInputDelta
    case InputDone(_, _, _) => TInput
  }

  function ReadResponse(tag: Tag, v: Value): Option<Body> {
    var response := Get(v, "response");
    if response.None? || ReadEnvelope(response.value).None? then None
    else
      var e := ReadEnvelope(response.value).value;
      match tag
      case TCreated => Some(Created(e))
      case TInProgress => Some(InProgress(e))
      case TCompleted => Some(Completed(e))
      case _ => Some(Incomplete(e))
  }

  function ReadError(v: Value): Option<Body> {
    var message := StrAt(v, "message");
    if message.None? || !Is(v, "code", "invalid_request") then None
    else if Get(v, "response_id").None? then Some(Error(message.value, None))
    else if StrAt(v, "response_id").None? then None
    else Some(Error(message.value, StrAt(v, "response_id")))
  }

  function ReadItemEvent(tag: Tag, v: Value): Option<Body> {
    var index, item := NatAt(v, "output_index"), Get(v, "item");
    if index.None? || item.None? || ReadItem(item.value).None? then None
    else if tag.TAdded? then Some(ItemAdded(index.value, ReadItem(item.value).value))
    else Some(ItemDone(index.value, ReadItem(item.value).value))
  }

  /** Events about one part of a text item; all parts have the index 0. */
  function ReadPartEvent(tag: Tag, v: Value): Option<Body> {
    var id, index := StrAt(v, "item_id"), NatAt(v, "output_index");
    var summary := tag.TSummaryAdded? || tag.TSummaryDelta? || tag.TSummaryText? || tag.TSummaryDone?;
    var part := ReadPart(Get(v, "part"), if summary then "summary_text" else "output_text");
    if id.None? || index.None? || NatAt(v, if summary then "summary_index" else "content_index") != Some(0) then None
    else
      match tag
      case TSummaryAdded => if part == Some("") then Some(SummaryPartAdded(id.value, index.value)) else None
      case TPartAdded => if part == Some("") then Some(ContentPartAdded(id.value, index.value)) else None
      case TSummaryDone => if part.Some? then Some(SummaryPartDone(id.value, index.value, part.value)) else None
      case TPartDone => if part.Some? then Some(ContentPartDone(id.value, index.value, part.value)) else None
      case TSummaryDelta =>
        if StrAt(v, "delta").Some? then Some(SummaryDelta(id.value, index.value, StrAt(v, "delta").value)) else None
      case TTextDelta =>
        if StrAt(v, "delta").Some? then Some(TextDelta(id.value, index.value, StrAt(v, "delta").value)) else None
      case TSummaryText =>
        if StrAt(v, "text").Some? then Some(SummaryDone(id.value, index.value, StrAt(v, "text").value)) else None
      case _ =>
        if StrAt(v, "text").Some? then Some(TextDone(id.value, index.value, StrAt(v, "text").value)) else None
  }

  function ReadCallEvent(tag: Tag, v: Value): Option<Body> {
    var id, index := StrAt(v, "item_id"), NatAt(v, "output_index");
    var key := if tag.TArguments? then "arguments" else if tag.TInput? then "input" else "delta";
    var text := StrAt(v, key);
    if id.None? || index.None? || text.None? then None
    else
      match tag
      case TArgumentsDelta => Some(ArgumentsDelta(id.value, index.value, text.value))
      case TArguments => Some(ArgumentsDone(id.value, index.value, text.value))
      case TInputDelta => Some(InputDelta(id.value, index.value, text.value))
      case _ => Some(InputDone(id.value, index.value, text.value))
  }

  function ReadBody(tag: Tag, v: Value): Option<Body> {
    match tag
    case TCreated => ReadResponse(tag, v)
    case TInProgress => ReadResponse(tag, v)
    case TCompleted => ReadResponse(tag, v)
    case TIncomplete => ReadResponse(tag, v)
    case TError => ReadError(v)
    case TAdded => ReadItemEvent(tag, v)
    case TDone => ReadItemEvent(tag, v)
    case TArgumentsDelta => ReadCallEvent(tag, v)
    case TArguments => ReadCallEvent(tag, v)
    case TInputDelta => ReadCallEvent(tag, v)
    case TInput => ReadCallEvent(tag, v)
    case _ => ReadPartEvent(tag, v)
  }

  function ReadEvent(v: Value): Option<Event> {
    var kind, sequence := StrAt(v, "type"), NatAt(v, "sequence_number");
    if kind.None? || sequence.None? || TagOf(kind.value).None? then None
    else
      var body := ReadBody(TagOf(kind.value).value, v);
      if body.None? then None else Some(Event(sequence.value, body.value))
  }

  // ----- round trips -----

  lemma {:induction false} PartsRead(texts: seq<string>, parts: seq<Value>, kind: string)
    requires |parts| == |texts| && forall i :: 0 <= i < |texts| ==> ReadPart(Some(parts[i]), kind) == Some(texts[i])
    ensures ReadParts(parts, kind) == Some(texts)
    decreases |texts|
  {
    if texts != [] {
      PartsRead(texts[1..], parts[1..], kind);
      assert texts == [texts[0]] + texts[1..];
    }
  }

  lemma SummaryReads(text: string)
    ensures ReadPart(Some(SummaryJson(text)), "summary_text") == Some(text)
  {
  }

  lemma ContentReads(text: string)
    ensures ReadPart(Some(ContentJson(text)), "output_text") == Some(text)
  {
    assert Get(ContentJson(text), "annotations") == Some(Arr([]));
    assert Is(ContentJson(text), "type", "output_text") && StrAt(ContentJson(text), "text") == Some(text);
  }

  lemma ReasoningReads(item: Item)
    requires item.Reasoning?
    ensures ReadItem(ItemJson(item)) == Some(item)
  {
    var parts := seq(|item.summary|, i requires 0 <= i < |item.summary| => SummaryJson(item.summary[i]));
    forall i | 0 <= i < |item.summary|
      ensures ReadPart(Some(parts[i]), "summary_text") == Some(item.summary[i])
    {
      SummaryReads(item.summary[i]);
    }
    PartsRead(item.summary, parts, "summary_text");
    assert Get(ItemJson(item), "summary") == Some(Arr(parts));
  }

  lemma MessageReads(item: Item)
    requires item.Message?
    ensures ReadItem(ItemJson(item)) == Some(item)
  {
    var parts := seq(|item.content|, i requires 0 <= i < |item.content| => ContentJson(item.content[i]));
    forall i | 0 <= i < |item.content|
      ensures ReadPart(Some(parts[i]), "output_text") == Some(item.content[i])
    {
      ContentReads(item.content[i]);
    }
    PartsRead(item.content, parts, "output_text");
    var v := ItemJson(item);
    assert Get(v, "content") == Some(Arr(parts));
    assert Is(v, "type", "message") && Is(v, "role", "assistant") && StrAt(v, "id") == Some(item.id);
    assert DoneAt(v) == Some(item.done);
  }

  lemma CallReads(v: Value, kind: string, payload: string, item: Item, text: string)
    requires item.FunctionCall? || item.CustomCall?
    requires payload in {"arguments", "input"} && v == CallJson(kind, payload, item, text)
    ensures StrAt(v, "id") == Some(item.id) && StrAt(v, "type") == Some(kind)
    ensures ReadCall(v, payload) == Some((item.done, item.callId, item.name, text))
  {
    assert "arguments"[0] == 'a' && "input"[0] == 'i' && |"input"| == 5;
  }

  lemma ItemReads(item: Item)
    ensures ReadItem(ItemJson(item)) == Some(item)
  {
    match item
    case Reasoning(_, _) => ReasoningReads(item);
    case Message(_, _, _) => MessageReads(item);
    case FunctionCall(_, _, _, _, text) => CallReads(ItemJson(item), "function_call", "arguments", item, text);
    case CustomCall(_, _, _, _, text) => CallReads(ItemJson(item), "custom_tool_call", "input", item, text);
  }

  lemma {:induction false} ItemsRead(items: seq<Item>, values: seq<Value>)
    requires |values| == |items| && forall i :: 0 <= i < |items| ==> values[i] == ItemJson(items[i])
    ensures ReadItems(values) == Some(items)
    decreases |items|
  {
    if items != [] {
      ItemReads(items[0]);
      ItemsRead(items[1..], values[1..]);
      assert items == [items[0]] + items[1..];
    }
  }

  lemma EnvelopeNames(e: Envelope)
    ensures var v := EnvelopeJson(e);
            && StrAt(v, "id") == Some(e.id) && StrAt(v, "model") == Some(e.model) && Is(v, "object", "response")
            && Get(v, "output") == Some(Arr(seq(|e.output|, i requires 0 <= i < |e.output| => ItemJson(e.output[i]))))
  {
  }

  lemma EnvelopeUsage(e: Envelope)
    ensures Get(EnvelopeJson(e), "usage") == e.usage
  {
    assert "usage"[0] == 'u' && "incomplete_details"[0] == 'i';
  }

  lemma EnvelopeStatus(e: Envelope)
    ensures StatusAt(EnvelopeJson(e)) == Some(e.status)
  {
    var v := EnvelopeJson(e);
    assert StrAt(v, "status") == Some(StatusText(e.status));
    assert |"completed"| == 9 && |"incomplete"| == 10 && |"in_progress"| == 11;
    assert Get(v, "incomplete_details")
        == if e.status == Truncated then Some(Obj(map["reason" := Str("max_output_tokens")])) else None;
  }

  lemma EnvelopeReads(e: Envelope)
    ensures ReadEnvelope(EnvelopeJson(e)) == Some(e)
  {
    EnvelopeNames(e);
    EnvelopeUsage(e);
    EnvelopeStatus(e);
    ItemsRead(e.output, seq(|e.output|, i requires 0 <= i < |e.output| => ItemJson(e.output[i])));
  }

  // ----- round trips of bodies -----

  lemma TagReadsShort(body: Body)
    requires body.Created? || body.Completed? || body.Incomplete? || body.Error?
    ensures TagOf(Kind(body)) == Some(TagFor(body))
  {
    assert |"response.created"| == 16 && |"response.completed"| == 18 && |"response.incomplete"| == 19
           && |"error"| == 5;
  }

  lemma TagReadsSummary(body: Body)
    requires body.SummaryPartAdded? || body.SummaryDelta? || body.SummaryDone? || body.SummaryPartDone?
    ensures TagOf(Kind(body)) == Some(TagFor(body))
  {
    var kind := Kind(body);
    assert "response.reasoning_summary" <= kind && |kind| >= 20;
    assert kind[27] == if body.SummaryPartAdded? || body.SummaryPartDone? then 'p' else 't';
    assert kind[|kind| - 2] == if body.SummaryPartAdded? then 'e' else if body.SummaryDelta? then 't' else 'n';
  }

  lemma LongTagReads(body: Body)
    requires body.InProgress? || body.ItemAdded? || body.ItemDone? || body.ContentPartAdded? || body.TextDelta?
             || body.TextDone? || body.ContentPartDone?
    ensures LongTag(Kind(body)) == Some(TagFor(body))
  {
  }

  lemma LongCallTagReads(body: Body)
    requires body.ArgumentsDelta? || body.ArgumentsDone? || body.InputDelta? || body.InputDone?
    ensures LongTag(Kind(body)) == Some(TagFor(body))
  {
  }

  lemma NoSummaryTag(kind: string)
    requires |kind| >= 20 && kind[9] != 'r'
    ensures TagOf(kind) == LongTag(kind)
  {
    assert "response.reasoning_summary"[9] == 'r';
  }

  lemma KindIsLong(body: Body)
    requires body.InProgress? || body.ItemAdded? || body.ItemDone? || body.ContentPartAdded? || body.TextDelta?
             || body.TextDone? || body.ContentPartDone?
    ensures |Kind(body)| >= 20 && Kind(body)[9] != 'r'
  {
  }

  lemma CallKindIsLong(body: Body)
    requires OfCall(body)
    ensures |Kind(body)| >= 20 && Kind(body)[9] != 'r'
  {
  }

  lemma TagReads(body: Body)
    ensures TagOf(Kind(body)) == Some(TagFor(body))
  {
    if body.Created? || body.Completed? || body.Incomplete? || body.Error? {
      TagReadsShort(body);
    } else if body.SummaryPartAdded? || body.SummaryDelta? || body.SummaryDone? || body.SummaryPartDone? {
      TagReadsSummary(body);
    } else {
      if OfCall(body) {
        CallKindIsLong(body);
        LongCallTagReads(body);
      } else {
        KindIsLong(body);
        LongTagReads(body);
      }
      NoSummaryTag(Kind(body));
    }
  }

  /** The members of a body as they stand in its event. */
  lemma MemberOf(e: Event, key: string)
    requires key != "type" && key != "sequence_number"
    ensures Get(EventJson(e), key) == Get(Obj(BodyFields(e.body)), key)
  {
    var fields := BodyFields(e.body);
    assert fields["type" := Str(Kind(e.body))]["sequence_number" := Num(e.sequence)].Keys
        == fields.Keys + {"type", "sequence_number"};
  }

  lemma ResponseReads(e: Event)
    requires e.body.Created? || e.body.InProgress? || e.body.Completed? || e.body.Incomplete?
    ensures ReadBody(TagFor(e.body), EventJson(e)) == Some(e.body)
  {
    MemberOf(e, "response");
    EnvelopeReads(e.body.response);
    assert Get(Obj(BodyFields(e.body)), "response") == Some(EnvelopeJson(e.body.response));
  }

  lemma ErrorMembers(body: Body)
    requires body.Error?
    ensures var v := Obj(BodyFields(body));
            && StrAt(v, "message") == Some(body.message) && Is(v, "code", "invalid_request")
            && Get(v, "response_id") == if body.responseId.Some? then Some(Str(body.responseId.value)) else None
  {
  }

  lemma ErrorReads(e: Event)
    requires e.body.Error?
    ensures ReadBody(TagFor(e.body), EventJson(e)) == Some(e.body)
  {
    MemberOf(e, "message");
    MemberOf(e, "code");
    MemberOf(e, "response_id");
    ErrorMembers(e.body);
  }

  lemma ItemMembers(body: Body)
    requires body.ItemAdded? || body.ItemDone?
    ensures NatAt(Obj(BodyFields(body)), "output_index") == Some(body.index)
    ensures Get(Obj(BodyFields(body)), "item") == Some(ItemJson(body.item))
  {
  }

  lemma ItemEventReads(e: Event)
    requires e.body.ItemAdded? || e.body.ItemDone?
    ensures ReadBody(TagFor(e.body), EventJson(e)) == Some(e.body)
  {
    MemberOf(e, "output_index");
    MemberOf(e, "item");
    ItemMembers(e.body);
    ItemReads(e.body.item);
  }

  predicate OfSummary(body: Body) {
    body.SummaryPartAdded? || body.SummaryDelta? || body.SummaryDone? || body.SummaryPartDone?
  }

  predicate OfContent(body: Body) {
    body.ContentPartAdded? || body.TextDelta? || body.TextDone? || body.ContentPartDone?
  }

  function PartOf(body: Body): Option<Value> {
    match body
    case SummaryPartAdded(_, _) => Some(SummaryJson(""))
    case SummaryPartDone(_, _, text) => Some(SummaryJson(text))
    case ContentPartAdded(_, _) => Some(ContentJson(""))
    case ContentPartDone(_, _, text) => Some(ContentJson(text))
    case _ => None
  }

  lemma PartPlace(body: Body)
    requires OfSummary(body) || OfContent(body)
    ensures var v := Obj(BodyFields(body));
            && StrAt(v, "item_id") == Some(body.itemId) && NatAt(v, "output_index") == Some(body.index)
            && NatAt(v, if OfSummary(body) then "summary_index" else "content_index") == Some(0)
  {
    assert |"item_id"| == 7 && |"output_index"| == 12 && |"summary_index"| == 13 && |"content_index"| == 13;
    assert |"part"| == 4 && |"text"| == 4 && |"delta"| == 5;
  }

  lemma PartText(body: Body)
    requires OfSummary(body) || OfContent(body)
    ensures var v := Obj(BodyFields(body));
            && (body.SummaryDelta? || body.TextDelta? ==> StrAt(v, "delta") == Some(body.delta))
            && (body.SummaryDone? || body.TextDone? ==> StrAt(v, "text") == Some(body.text))
            && (PartOf(body).Some? ==> Get(v, "part") == PartOf(body))
  {
  }

  lemma PartReads(body: Body)
    requires PartOf(body).Some?
    ensures ReadPart(PartOf(body), if OfSummary(body) then "summary_text" else "output_text")
         == Some(if body.SummaryPartDone? || body.ContentPartDone? then body.text else "")
  {
    var text := if body.SummaryPartDone? || body.ContentPartDone? then body.text else "";
    SummaryReads(text);
    ContentReads(text);
  }

  /** A value with the members a part event has. */
  predicate HasPart(v: Value, body: Body)
    requires OfSummary(body) || OfContent(body)
  {
    && StrAt(v, "item_id") == Some(body.itemId) && NatAt(v, "output_index") == Some(body.index)
    && NatAt(v, if OfSummary(body) then "summary_index" else "content_index") == Some(0)
    && (body.SummaryDelta? || body.TextDelta? ==> StrAt(v, "delta") == Some(body.delta))
    && (body.SummaryDone? || body.TextDone? ==> StrAt(v, "text") == Some(body.text))
    && (PartOf(body).Some? ==> Get(v, "part") == PartOf(body))
  }

  lemma PartEventRead(v: Value, body: Body)
    requires (OfSummary(body) || OfContent(body)) && HasPart(v, body)
    ensures ReadPartEvent(TagFor(body), v) == Some(body)
  {
    if PartOf(body).Some? {
      PartReads(body);
    }
  }

  lemma EventHasPart(e: Event)
    requires OfSummary(e.body) || OfContent(e.body)
    ensures HasPart(EventJson(e), e.body)
  {
    MemberOf(e, "item_id");
    MemberOf(e, "output_index");
    MemberOf(e, if OfSummary(e.body) then "summary_index" else "content_index");
    MemberOf(e, "part");
    MemberOf(e, "delta");
    MemberOf(e, "text");
    PartPlace(e.body);
    PartText(e.body);
  }

  lemma PartEventReads(e: Event)
    requires OfSummary(e.body) || OfContent(e.body)
    ensures ReadBody(TagFor(e.body), EventJson(e)) == Some(e.body)
  {
    EventHasPart(e);
    PartEventRead(EventJson(e), e.body);
  }

  predicate OfCall(body: Body) { body.ArgumentsDelta? || body.ArgumentsDone? || body.InputDelta? || body.InputDone? }

  /** A value with the members a call event has. */
  predicate HasCall(v: Value, body: Body)
    requires OfCall(body)
  {
    && StrAt(v, "item_id") == Some(body.itemId) && NatAt(v, "output_index") == Some(body.index)
    && (body.ArgumentsDelta? || body.InputDelta? ==> StrAt(v, "delta") == Some(body.delta))
    && (body.ArgumentsDone? ==> StrAt(v, "arguments") == Some(body.arguments))
    && (body.InputDone? ==> StrAt(v, "input") == Some(body.input))
  }

  lemma CallMembers(body: Body)
    requires OfCall(body)
    ensures HasCall(Obj(BodyFields(body)), body)
  {
  }

  lemma EventHasCall(e: Event)
    requires OfCall(e.body)
    ensures HasCall(EventJson(e), e.body)
  {
    CallMembers(e.body);
    MemberOf(e, "item_id");
    MemberOf(e, "output_index");
    MemberOf(e, "delta");
    MemberOf(e, "arguments");
    MemberOf(e, "input");
  }

  lemma CallEventRead(v: Value, body: Body)
    requires OfCall(body) && HasCall(v, body)
    ensures ReadCallEvent(TagFor(body), v) == Some(body)
  {
  }

  lemma CallEventReads(e: Event)
    requires OfCall(e.body)
    ensures ReadBody(TagFor(e.body), EventJson(e)) == Some(e.body)
  {
    EventHasCall(e);
    CallEventRead(EventJson(e), e.body);
  }

  lemma BodyReads(e: Event)
    ensures ReadBody(TagFor(e.body), EventJson(e)) == Some(e.body)
  {
    match e.body
    case Created(_) => ResponseReads(e);
    case InProgress(_) => ResponseReads(e);
    case Completed(_) => ResponseReads(e);
    case Incomplete(_) => ResponseReads(e);
    case Error(_, _) => ErrorReads(e);
    case ItemAdded(_, _) => ItemEventReads(e);
    case ItemDone(_, _) => ItemEventReads(e);
    case ArgumentsDelta(_, _, _) => CallEventReads(e);
    case ArgumentsDone(_, _, _) => CallEventReads(e);
    case InputDelta(_, _, _) => CallEventReads(e);
    case InputDone(_, _, _) => CallEventReads(e);
    case _ => PartEventReads(e);
  }

  lemma HeadReads(e: Event)
    ensures StrAt(EventJson(e), "type") == Some(Kind(e.body))
            && NatAt(EventJson(e), "sequence_number") == Some(e.sequence)
  {
    assert "type"[0] != "sequence_number"[0];
  }

  /** A client that reads by member names gets the event that was written. */
  lemma EventRoundTrip(e: Event)
    ensures ReadEvent(EventJson(e)) == Some(e)
  {
    HeadReads(e);
    TagReads(e.body);
    BodyReads(e);
  }
}
