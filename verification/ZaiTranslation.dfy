/** A whole Responses request as the body of a Z.ai chat request. */
module ZaiTranslation {
  import opened Prelude
  import opened Json
  import opened ToolNames
  import opened ZaiRequest
  import opened ChatHistory
  import opened ZaiWire

  // ----- the members read -----

  /** An optional list, where absent and null are empty. */
  function ListOf(v: Option<Value>): Option<seq<Value>> {
    if v.None? || v == Some(Null) then Some([]) else if v.value.Arr? then Some(v.value.items) else None
  }

  predicate Unset(v: Option<Value>) { v.None? || v == Some(Null) }

  /** No handle to a history kept elsewhere. */
  predicate Stateless(request: Value) {
    Unset(Get(request, "previous_response_id")) && Unset(Get(request, "conversation"))
  }

  datatype Effort = Unstated | Disabled | Level(name: string)

  function MapEffort(stated: string): Option<Effort> {
    if stated == "none" then Some(Disabled)
    else if stated in {"minimal", "low", "medium", "high"} then Some(Level(stated))
    else if stated in {"xhigh", "max", "ultra"} then Some(Level("xhigh"))
    else None
  }

  function ReadEffort(request: Value): Option<Effort> {
    var stated := AsStr(At(Get(request, "reasoning"), "effort"));
    if stated.None? then Some(Unstated) else MapEffort(stated.value)
  }

  function Clamp(n: nat, limit: nat): nat
    requires limit >= 1
  {
    if n < 1 then 1 else if n > limit then limit else n
  }

  // ----- the body written -----

  function ToolMembers(body: map<string, Value>, tools: seq<Value>): map<string, Value> {
    if tools == [] then body
    else body["tools" := Arr(tools)]["tool_choice" := Str("auto")]["tool_stream" := Bool(true)]
  }

  function EffortMembers(body: map<string, Value>, effort: Effort): map<string, Value> {
    match effort
    case Unstated => body
    case Disabled => body["thinking" := Obj(map["type" := Str("disabled")])]
    case Level(name) => body["reasoning_effort" := Str(name)]
  }

  function TokenMembers(body: map<string, Value>, limit: nat, asked: Option<nat>): map<string, Value>
    requires limit >= 1
  {
    if asked.Some? then body["max_tokens" := Num(Clamp(asked.value, limit))] else body
  }

  function BodyOf(model: string, t: Translation, effort: Effort, limit: nat, asked: Option<nat>): Value
    requires limit >= 1
  {
    var start := map["model" := Str(model), "messages" := Arr(ChatsJson(t.messages))];
    Obj(TokenMembers(EffortMembers(ToolMembers(start, t.tools), effort), limit, asked)["stream" := Bool(true)])
  }

  /** The name table and body for a request, with the model's output limit. */
  function TranslateRequest(cfg: Config, limit: nat, request: Value): Option<(Names, Value)>
    requires limit >= 1
  {
    var model := NonEmptyText(Get(request, "model"));
    var tools, items := ListOf(Get(request, "tools")), ListOf(Get(request, "input"));
    var effort := ReadEffort(request);
    if model.None? || !Stateless(request) || tools.None? || items.None? || effort.None? then None
    else
      match Translate(cfg, TextOf(Get(request, "instructions")), tools.value, items.value)
      case None => None
      case Some(t) =>
        Some((t.names, BodyOf(model.value, t, effort.value, limit, AsU64(Get(request, "max_output_tokens")))))
  }

  /** The translator: tools, then instructions and history, over one table that
      is filled in place, then the body member by member. */
  method BuildBody(t: Translator, limit: nat, request: Value) returns (r: Option<Value>)
    requires limit >= 1 && t.table.View() == NO_NAMES
    modifies t.table
    ensures match TranslateRequest(t.cfg, limit, request)
            case None => r.None?
            case Some((names, body)) => r == Some(body) && t.table.View() == names
  {
    var model := NonEmptyText(Get(request, "model"));
    if !request.Obj? || model.None? || !Stateless(request) {
      return None;
    }
    var tools := ListOf(Get(request, "tools"));
    if tools.None? {
      return None;
    }
    var translated := t.TranslateTools(tools.value);
    if translated.None? {
      return None;
    }
    var instructions := TextOf(Get(request, "instructions"));
    var messages: seq<Chat> := if instructions != "" then [System(instructions)] else [];
    var items := ListOf(Get(request, "input"));
    if items.None? {
      return None;
    }
    var folded := t.TranslateItems(messages, items.value);
    if folded.None? {
      return None;
    }
    var body := map["model" := Str(model.value), "messages" := Arr(ChatsJson(folded.value))];
    body := ToolMembers(body, translated.value);
    var effort := ReadEffort(request);
    if effort.None? {
      return None;
    }
    body := EffortMembers(body, effort.value);
    body := TokenMembers(body, limit, AsU64(Get(request, "max_output_tokens")));
    return Some(Obj(body["stream" := Bool(true)]));
  }

  // ----- which requests translate -----

  /** A stated effort Z.ai has a level for, or none at all. */
  predicate EffortKnown(request: Value) {
    var stated := AsStr(At(Get(request, "reasoning"), "effort"));
    stated.Some? ==> stated.value in {"none", "minimal", "low", "medium", "high", "xhigh", "max", "ultra"}
  }

  predicate ListOrUnset(v: Option<Value>) { v.Some? && v.value != Null ==> v.value.Arr? }

  /** The elements of a list, if it is one. */
  function ElementsOf(v: Option<Value>): seq<Value> { if v.Some? && v.value.Arr? then v.value.items else [] }

  lemma ListRead(v: Option<Value>)
    ensures ListOf(v) == if ListOrUnset(v) then Some(ElementsOf(v)) else None
  {
  }

  /** The tool names a request uses, on offer or replayed. */
  function NamesUsed(request: Value): seq<Use> {
    OfferUses(Offers(ElementsOf(Get(request, "tools")))) + ItemsUses(ElementsOf(Get(request, "input")))
  }

  ghost predicate Translatable(images: bool, request: Value) {
    var tools, items := ElementsOf(Get(request, "tools")), ElementsOf(Get(request, "input"));
    && TextOf(Get(request, "model")) != "" && EffortKnown(request)
    && (Get(request, "previous_response_id").Some? ==> Get(request, "previous_response_id").value == Null)
    && (Get(request, "conversation").Some? ==> Get(request, "conversation").value == Null)
    && ListOrUnset(Get(request, "tools")) && ListOrUnset(Get(request, "input"))
    && ToolsKnown(tools) && (forall i :: 0 <= i < |items| ==> KnownItem(images, items[i]))
    && Clashless(NO_NAMES, NamesUsed(request))
  }

  /** A request translates exactly when it names a model, keeps no state
      elsewhere, its tools and its input are lists or unset, each tool on offer
      and each item is known, its effort is known, and every tool name, on offer
      or replayed, fits the wire grammar and shares its wire name with no
      other. */
  lemma RequestTranslates(cfg: Config, limit: nat, request: Value)
    requires limit >= 1 && Lawful(cfg.codec)
    ensures TranslateRequest(cfg, limit, request).Some? <==> Translatable(cfg.images, request)
  {
    var tools, items := ElementsOf(Get(request, "tools")), ElementsOf(Get(request, "input"));
    EffortRead(request);
    ListRead(Get(request, "tools"));
    ListRead(Get(request, "input"));
    TurnTranslates(cfg, TextOf(Get(request, "instructions")), tools, items);
    ToolsDeclared(tools);
    ItemsRead(cfg, items);
    if DeclareTools(tools).Some? {
      DeclaredUses(DeclareTools(tools).value, Offers(tools));
    }
  }

  lemma EffortRead(request: Value)
    ensures ReadEffort(request).Some? <==> EffortKnown(request)
  {
  }

  // ----- what the body holds -----

  /** The model, the conversation and the tools. */
  predicate ContentHeld(body: Value, model: string, messages: seq<Chat>, tools: seq<Value>) {
    && Get(body, "model") == Some(Str(model)) && Get(body, "stream") == Some(Bool(true))
    && Get(body, "messages") == Some(Arr(ChatsJson(messages)))
    && ToolsHeld(body, tools)
  }

  predicate ToolsHeld(body: Value, tools: seq<Value>) {
    && Get(body, "tools") == (if tools == [] then None else Some(Arr(tools)))
    && Get(body, "tool_choice") == (if tools == [] then None else Some(Str("auto")))
    && Get(body, "tool_stream") == (if tools == [] then None else Some(Bool(true)))
  }

  /** The effort as Z.ai knows it: switched off, its deepest level for the
      three deepest of Muse, or as stated. */
  predicate SaysEffort(body: Value, stated: Option<string>) {
    if stated == Some("none") then
      At(Get(body, "thinking"), "type") == Some(Str("disabled")) && Get(body, "reasoning_effort").None?
    else
      && Get(body, "thinking").None?
      && Get(body, "reasoning_effort")
         == if stated.None? then None
            else if stated == Some("max") || stated == Some("ultra") then Some(Str("xhigh"))
            else Some(Str(stated.value))
  }

  /** The token count asked for, brought between one and the limit. */
  predicate SaysTokens(body: Value, limit: nat, asked: Option<nat>) {
    var tokens := Get(body, "max_tokens");
    if asked.None? then tokens.None?
    else
      && tokens.Some? && tokens.value.Num? && 1 <= tokens.value.n <= limit
      && (1 <= asked.value <= limit ==> tokens.value.n == asked.value)
      && (asked.value > limit ==> tokens.value.n == limit) && (asked.value < 1 ==> tokens.value.n == 1)
  }

  predicate OptionsHeld(body: Value, effort: Effort, limit: nat, asked: Option<nat>) {
    && Get(body, "reasoning_effort") == (if effort.Level? then Some(Str(effort.name)) else None)
    && Get(body, "thinking") == (if effort.Disabled? then Some(Obj(map["type" := Str("disabled")])) else None)
    && SaysTokens(body, limit, asked)
  }

  /** Nothing else of the request reaches the provider. */
  predicate NothingElse(body: Value) {
    && body.Obj?
    && body.fields.Keys <= {"model", "messages", "tools", "tool_choice", "tool_stream",
                            "thinking", "reasoning_effort", "max_tokens", "stream"}
  }

  lemma ToolsAreHeld(model: string, t: Translation, effort: Effort, limit: nat, asked: Option<nat>)
    requires limit >= 1
    ensures ToolsHeld(BodyOf(model, t, effort, limit, asked), t.tools)
  {
    assert "tool_choice"[5] != "tool_stream"[5] && "model"[0] != "tools"[0];
  }

  lemma ContentIsHeld(model: string, t: Translation, effort: Effort, limit: nat, asked: Option<nat>)
    requires limit >= 1
    ensures ContentHeld(BodyOf(model, t, effort, limit, asked), model, t.messages, t.tools)
  {
    ToolsAreHeld(model, t, effort, limit, asked);
    assert "messages"[0] != "thinking"[0] && "model"[0] != "tools"[0];
  }

  lemma OptionsAreHeld(model: string, t: Translation, effort: Effort, limit: nat, asked: Option<nat>)
    requires limit >= 1
    ensures OptionsHeld(BodyOf(model, t, effort, limit, asked), effort, limit, asked)
  {
    assert "messages"[0] != "thinking"[0];
  }

  lemma NothingElseIsHeld(model: string, t: Translation, effort: Effort, limit: nat, asked: Option<nat>)
    requires limit >= 1
    ensures NothingElse(BodyOf(model, t, effort, limit, asked))
  {
  }

  /** The tools say what is on offer, in order. */
  predicate SaysTools(body: Value, offers: seq<Offer>) {
    var tools := Get(body, "tools");
    if offers == [] then tools.None? && Get(body, "tool_choice").None? && Get(body, "tool_stream").None?
    else
      && tools.Some? && tools.value.Arr? && |tools.value.items| == |offers|
      && (forall i :: 0 <= i < |offers| ==> SaysTool(tools.value.items[i], offers[i]))
      && Get(body, "tool_choice") == Some(Str("auto")) && Get(body, "tool_stream") == Some(Bool(true))
  }

  predicate SaysMessages(c: Codec, body: Value, instructions: string, items: seq<Value>) {
    var messages := Get(body, "messages");
    && messages.Some? && messages.value.Arr? && CallsTogether(messages.value.items)
    && SaysHistory(c, messages.value.items, instructions, items)
  }

  lemma EffortSaid(request: Value, body: Value)
    requires ReadEffort(request).Some?
    requires Get(body, "reasoning_effort")
          == (if ReadEffort(request).value.Level? then Some(Str(ReadEffort(request).value.name)) else None)
    requires Get(body, "thinking")
          == (if ReadEffort(request).value.Disabled? then Some(Obj(map["type" := Str("disabled")])) else None)
    ensures SaysEffort(body, AsStr(At(Get(request, "reasoning"), "effort")))
  {
  }

  lemma ToolsSaid(body: Value, declared: seq<Declaration>, offers: seq<Offer>, uses: seq<Use>)
    requires Declares(declared, offers) && ToolsHeld(body, WireTools(declared))
    requires OfferUses(offers) <= uses && forall i :: 0 <= i < |uses| ==> Encode(uses[i].name).Some?
    ensures SaysTools(body, offers)
  {
    OfferNames(offers);
    forall i | 0 <= i < |offers|
      ensures Encode(FullName(offers[i])).Some?
    {
      assert OfferUses(offers)[i] == uses[i];
    }
    WireToolsSay(declared, offers);
  }

  lemma {:induction false} OfferNames(offers: seq<Offer>)
    ensures |OfferUses(offers)| == |offers|
    ensures forall i :: 0 <= i < |offers| ==> OfferUses(offers)[i].name == FullName(offers[i])
  {
    if offers != [] {
      OfferNames(offers[1..]);
    }
  }

  /** What a translated request carries: the model; the instructions first and
      then what each item says, in order, tool calls side by side in one
      message; what each tool on offer says, in order; the effort and the
      clamped token count; nothing else. Each tool name used decodes from its
      wire name. */
  lemma TranslationKeeps(cfg: Config, limit: nat, request: Value)
    requires limit >= 1 && Lawful(cfg.codec) && TranslateRequest(cfg, limit, request).Some?
    ensures var (names, body) := TranslateRequest(cfg, limit, request).value;
            var uses := NamesUsed(request);
            && NothingElse(body) && Get(body, "model") == Get(request, "model")
               && Get(body, "stream") == Some(Bool(true))
            && SaysMessages(cfg.codec, body, TextOf(Get(request, "instructions")), ElementsOf(Get(request, "input")))
            && SaysTools(body, Offers(ElementsOf(Get(request, "tools"))))
            && SaysEffort(body, AsStr(At(Get(request, "reasoning"), "effort")))
            && SaysTokens(body, limit, AsU64(Get(request, "max_output_tokens")))
            && Consistent(names) && RecordAll(NO_NAMES, uses) == Some(names)
            && forall i :: 0 <= i < |uses| ==>
                 Encode(uses[i].name).Some? && Decode(names, Encode(uses[i].name).value) == uses[i].name
  {
    var tools, items := ElementsOf(Get(request, "tools")), ElementsOf(Get(request, "input"));
    var instructions := TextOf(Get(request, "instructions"));
    RequestTranslates(cfg, limit, request);
    ListRead(Get(request, "tools"));
    ListRead(Get(request, "input"));
    ItemsRead(cfg, items);
    ToolsDeclared(tools);
    var declared := DeclareTools(tools).value;
    DeclaredUses(declared, Offers(tools));
    TurnKeeps(cfg, instructions, tools, items);
    var t := Translate(cfg, instructions, tools, items).value;
    BodySays(cfg, limit, request, t);
    HistorySaid(cfg, t.messages, instructions, items);
    ToolsSaid(TranslateRequest(cfg, limit, request).value.1, declared, Offers(tools), NamesUsed(request));
  }

  /** The members of the body, with the translated tools and messages. */
  lemma BodySays(cfg: Config, limit: nat, request: Value, t: Translation)
    requires limit >= 1 && TranslateRequest(cfg, limit, request).Some?
    requires ListOf(Get(request, "tools")).Some? && ListOf(Get(request, "input")).Some?
    requires Translate(cfg, TextOf(Get(request, "instructions")), ListOf(Get(request, "tools")).value,
                       ListOf(Get(request, "input")).value) == Some(t)
    ensures var (names, body) := TranslateRequest(cfg, limit, request).value;
            && names == t.names && NothingElse(body) && ToolsHeld(body, t.tools)
            && Get(body, "model") == Get(request, "model") && Get(body, "stream") == Some(Bool(true))
            && Get(body, "messages") == Some(Arr(ChatsJson(t.messages)))
            && SaysEffort(body, AsStr(At(Get(request, "reasoning"), "effort")))
            && SaysTokens(body, limit, AsU64(Get(request, "max_output_tokens")))
  {
    var model, effort, asked :=
      TextOf(Get(request, "model")), ReadEffort(request).value, AsU64(Get(request, "max_output_tokens"));
    ContentIsHeld(model, t, effort, limit, asked);
    OptionsAreHeld(model, t, effort, limit, asked);
    NothingElseIsHeld(model, t, effort, limit, asked);
    EffortSaid(request, BodyOf(model, t, effort, limit, asked));
  }
}
