/** A request's tools and history, and the body made of them, member by member
    of their JSON. */
module ZaiWire {
  import opened Prelude
  import opened Json
  import opened ToolNames
  import opened ChatMessages
  import opened ZaiRequest
  import opened ChatHistory

  // ----- the messages written -----

  function CallJson(call: Called): Value {
    Obj(map["id" := Str(call.callId), "type" := Str("function"),
            "function" := Obj(map["name" := Str(call.wire), "arguments" := Str(call.arguments)])])
  }

  function CallsJson(calls: seq<Called>): seq<Value> {
    if calls == [] then [] else [CallJson(calls[0])] + CallsJson(calls[1..])
  }

  function ChatJson(chat: Chat): Value {
    match chat
    case System(text) => Obj(map["role" := Str("system"), "content" := Str(text)])
    case Spoken(message) => message
    case Calls(calls) => Obj(map["role" := Str("assistant"), "content" := Null, "tool_calls" := Arr(CallsJson(calls))])
    case Result(callId, content) =>
      Obj(map["role" := Str("tool"), "tool_call_id" := Str(callId), "content" := Str(content)])
  }

  function ChatsJson(chats: seq<Chat>): seq<Value> {
    if chats == [] then [] else [ChatJson(chats[0])] + ChatsJson(chats[1..])
  }

  predicate Typed(v: Value, kind: string) { AsStr(Get(v, "type")) == Some(kind) }

  // ----- tools -----

  /** A tool on offer, with the name of its namespace if it has one. */
  datatype Offer = Offer(namespace: Option<string>, tool: Value)

  function OffersIn(namespace: string, nested: seq<Value>): seq<Offer>
    decreases |nested|
  {
    if nested == [] then [] else [Offer(Some(namespace), nested[0])] + OffersIn(namespace, nested[1..])
  }

  function OffersOf(tool: Value): seq<Offer> {
    if Typed(tool, "namespace") then
      var nested := Get(tool, "tools");
      OffersIn(TextOf(Get(tool, "name")), if nested.Some? && nested.value.Arr? then nested.value.items else [])
    else [Offer(None, tool)]
  }

  /** All tools on offer, namespaces taken apart, in order. */
  function Offers(tools: seq<Value>): seq<Offer>
    decreases |tools|
  {
    if tools == [] then [] else OffersOf(tools[0]) + Offers(tools[1..])
  }

  function FullName(offer: Offer): string {
    var name := TextOf(Get(offer.tool, "name"));
    if offer.namespace.Some? then offer.namespace.value + "." + name else name
  }

  function UseOf(offer: Offer): Use { Use(FullName(offer), Typed(offer.tool, "custom")) }

  predicate KnownOffer(offer: Offer) {
    && (Typed(offer.tool, "function") || Typed(offer.tool, "custom")) && TextOf(Get(offer.tool, "name")) != ""
  }

  /** A namespace has a name and a list of tools. */
  predicate KnownNamespace(tool: Value) {
    Typed(tool, "namespace") ==>
      TextOf(Get(tool, "name")) != "" && Get(tool, "tools").Some? && Get(tool, "tools").value.Arr?
  }

  predicate ToolsKnown(tools: seq<Value>) {
    && (forall i :: 0 <= i < |tools| ==> KnownNamespace(tools[i]))
    && (forall i :: 0 <= i < |Offers(tools)| ==> KnownOffer(Offers(tools)[i]))
  }

  /** A wire tool says what is on offer: a function under its wire name, with
      the given description; its parameters as given or none, or for a custom
      tool one string, `input`. */
  predicate SaysTool(wire: Value, offer: Offer) {
    var said, description, parameters :=
      Get(wire, "function"), Get(offer.tool, "description"), Get(offer.tool, "parameters");
    && Typed(wire, "function") && Encode(FullName(offer)).Some?
    && At(said, "name") == Some(Str(Encode(FullName(offer)).value))
    && At(said, "description") == (if AsStr(description).Some? then description else None)
    && if Typed(offer.tool, "custom") then TakesInput(At(said, "parameters"))
       else if parameters.Some? then At(said, "parameters") == parameters
       else TakesNothing(At(said, "parameters"))
  }

  predicate TakesInput(parameters: Option<Value>) {
    && At(parameters, "type") == Some(Str("object"))
    && At(At(At(parameters, "properties"), "input"), "type") == Some(Str("string"))
    && At(parameters, "required") == Some(Arr([Str("input")]))
  }

  predicate TakesNothing(parameters: Option<Value>) {
    At(parameters, "type") == Some(Str("object")) && At(parameters, "properties") == Some(Obj(map[]))
  }

  /** Declarations are the offers. */
  predicate Declares(declared: seq<Declaration>, offers: seq<Offer>) {
    |declared| == |offers|
    && forall i :: 0 <= i < |declared| ==>
         KnownOffer(offers[i]) && declared[i] == Declaration(UseOf(offers[i]), offers[i].tool)
  }

  lemma OfferDeclared(offer: Offer)
    ensures Declare(offer.tool, offer.namespace)
         == if KnownOffer(offer) then Some(Declaration(UseOf(offer), offer.tool)) else None
  {
  }

  lemma DeclaresMore(a: seq<Declaration>, offersA: seq<Offer>, b: seq<Declaration>, offersB: seq<Offer>)
    requires Declares(a, offersA) && Declares(b, offersB)
    ensures Declares(a + b, offersA + offersB)
  {
  }

  lemma {:induction false} NestedDeclared(namespace: string, nested: seq<Value>)
    ensures var r, offers := DeclareNested(nested, namespace), OffersIn(namespace, nested);
            if r.Some? then Declares(r.value, offers) else exists i :: 0 <= i < |offers| && !KnownOffer(offers[i])
    decreases |nested|
  {
    if nested != [] {
      var first := Offer(Some(namespace), nested[0]);
      var offers, rest := OffersIn(namespace, nested), OffersIn(namespace, nested[1..]);
      OfferDeclared(first);
      NestedDeclared(namespace, nested[1..]);
      assert offers[0] == first;
      if KnownOffer(first) {
        var more := DeclareNested(nested[1..], namespace);
        if more.Some? {
          DeclaresMore([Declaration(UseOf(first), first.tool)], [first], more.value, rest);
        } else {
          var i :| 0 <= i < |rest| && !KnownOffer(rest[i]);
          assert offers[i + 1] == rest[i];
        }
      }
    }
  }

  lemma ToolDeclared(tool: Value)
    ensures var r, offers := DeclareTool(tool), OffersOf(tool);
            if r.Some? then KnownNamespace(tool) && Declares(r.value, offers)
            else !KnownNamespace(tool) || exists i :: 0 <= i < |offers| && !KnownOffer(offers[i])
  {
    if Typed(tool, "namespace") {
      if KnownNamespace(tool) {
        NestedDeclared(TextOf(Get(tool, "name")), Get(tool, "tools").value.items);
      }
    } else {
      var offer := Offer(None, tool);
      OfferDeclared(offer);
      assert OffersOf(tool)[0] == offer;
    }
  }

  /** Declaring succeeds exactly when all on offer is known, and declares it. */
  lemma {:induction false} ToolsDeclared(tools: seq<Value>)
    ensures DeclareTools(tools).Some? <==> ToolsKnown(tools)
    ensures DeclareTools(tools).Some? ==> Declares(DeclareTools(tools).value, Offers(tools))
    decreases |tools|
  {
    if tools != [] {
      var first, rest := tools[0], tools[1..];
      ToolDeclared(first);
      ToolsDeclared(rest);
      assert forall i :: 0 <= i < |rest| ==> rest[i] == tools[i + 1];
      KnownAppend(tools);
      var a, b := DeclareTool(first), DeclareTools(rest);
      if a.Some? && b.Some? {
        DeclaresMore(a.value, OffersOf(first), b.value, Offers(rest));
      }
    }
  }

  lemma KnownAppend(tools: seq<Value>)
    requires tools != []
    ensures ToolsKnown(tools)
       <==> KnownNamespace(tools[0])
            && (forall i :: 0 <= i < |OffersOf(tools[0])| ==> KnownOffer(OffersOf(tools[0])[i]))
            && ToolsKnown(tools[1..])
  {
    var a, b, rest := OffersOf(tools[0]), Offers(tools[1..]), tools[1..];
    assert forall i :: 0 <= i < |rest| ==> rest[i] == tools[i + 1];
    assert forall i :: 0 <= i < |a| ==> (a + b)[i] == a[i];
    assert forall i :: 0 <= i < |b| ==> (a + b)[|a| + i] == b[i];
    if ToolsKnown(tools) {
      forall i | 0 <= i < |b|
        ensures KnownOffer(b[i])
      {
        assert Offers(tools)[|a| + i] == b[i];
      }
      forall i | 0 <= i < |a|
        ensures KnownOffer(a[i])
      {
        assert Offers(tools)[i] == a[i];
      }
    }
  }

  /** The names on offer. */
  function OfferUses(offers: seq<Offer>): seq<Use> {
    if offers == [] then [] else [UseOf(offers[0])] + OfferUses(offers[1..])
  }

  lemma {:induction false} DeclaredUses(declared: seq<Declaration>, offers: seq<Offer>)
    requires Declares(declared, offers)
    ensures UsesOf(declared) == OfferUses(offers)
    decreases |declared|
  {
    if declared != [] {
      DeclaredUses(declared[1..], offers[1..]);
    }
  }

  lemma WireToolSays(declaration: Declaration, offer: Offer)
    requires declaration == Declaration(UseOf(offer), offer.tool) && Encode(FullName(offer)).Some?
    ensures SaysTool(WireTool(declaration), offer)
  {
    var wire := WireTool(declaration);
    var description := AsStr(Get(offer.tool, "description"));
    FunctionMembers(wire, declaration);
    assert Get(INPUT_PARAMETERS, "required") == Some(Arr([Str("input")]));
    assert Get(NO_PARAMETERS, "properties") == Some(Obj(map[]));
  }

  lemma FunctionMembers(wire: Value, declaration: Declaration)
    requires wire == WireTool(declaration)
    ensures var description, parameters :=
      AsStr(Get(declaration.tool, "description")), Get(declaration.tool, "parameters");
            var said, encoded := Get(wire, "function"), Encode(declaration.use.name);
            && AsStr(Get(wire, "type")) == Some("function")
            && At(said, "name") == Some(Str(if encoded.Some? then encoded.value else ""))
            && At(said, "description") == (if description.Some? then Some(Str(description.value)) else None)
            && At(said, "parameters") == Some(if declaration.use.freeform then INPUT_PARAMETERS
                                              else if parameters.Some? then parameters.value else NO_PARAMETERS)
  {
  }

  lemma {:induction false} WireToolsSay(declared: seq<Declaration>, offers: seq<Offer>)
    requires Declares(declared, offers) && forall i :: 0 <= i < |offers| ==> Encode(FullName(offers[i])).Some?
    ensures |WireTools(declared)| == |offers|
    ensures forall i :: 0 <= i < |offers| ==> SaysTool(WireTools(declared)[i], offers[i])
    decreases |declared|
  {
    if declared != [] {
      WireToolSays(declared[0], offers[0]);
      WireToolsSay(declared[1..], offers[1..]);
    }
  }

  // ----- messages -----

  /** A message of the body, or one call of a message that holds calls. */
  datatype Piece = Message(v: Value) | Call(v: Value)

  function CallList(calls: seq<Value>): seq<Piece> {
    if calls == [] then [] else [Call(calls[0])] + CallList(calls[1..])
  }

  function PiecesOf(message: Value): seq<Piece> {
    var calls := Get(message, "tool_calls");
    if calls.Some? && calls.value.Arr? then CallList(calls.value.items) else [Message(message)]
  }

  function Pieces(messages: seq<Value>): seq<Piece> {
    if messages == [] then [] else Pieces(messages[..|messages| - 1]) + PiecesOf(messages[|messages| - 1])
  }

  /** A call says the item's id, its name's wire name and the given arguments. */
  predicate SaysCall(piece: Piece, item: Value) {
    && piece.Call? && Typed(piece.v, "function") && Get(piece.v, "id") == Get(item, "call_id")
    && Encode(TextOf(Get(item, "name"))).Some?
    && At(Get(piece.v, "function"), "name") == Some(Str(Encode(TextOf(Get(item, "name"))).value))
  }

  function ArgumentsAt(piece: Piece): string { TextOf(At(Get(piece.v, "function"), "arguments")) }

  /** A result says the item's id and its output, as JSON text unless a text. */
  predicate SaysResult(c: Codec, piece: Piece, item: Value) {
    var output := Get(item, "output");
    && piece.Message? && Get(piece.v, "role") == Some(Str("tool"))
       && Get(piece.v, "tool_call_id") == Get(item, "call_id")
    && Get(piece.v, "content")
       == Some(Str(if output.None? then "" else if output.value.Str? then output.value.s else c.encode(output.value)))
  }

  predicate SaysMessage(piece: Piece, item: Value) {
    && piece.Message? && piece.v.Obj? && piece.v.fields.Keys == {"role", "content"}
    && SaysRole(Get(piece.v, "role"), AsStr(Get(item, "role")))
    && SaysContent(Get(piece.v, "content"), AsStr(Get(item, "role")), Get(item, "content"))
  }

  /** A piece says what a history item says. */
  predicate SaysItem(c: Codec, piece: Piece, item: Value) {
    if Typed(item, "message") then SaysMessage(piece, item)
    else if Typed(item, "function_call") then
      var given := TextOf(Get(item, "arguments"));
      SaysCall(piece, item) && ArgumentsAt(piece) == if given == "" then "{}" else given
    else if Typed(item, "custom_tool_call") then
      SaysCall(piece, item) && c.parse(ArgumentsAt(piece)) == Some(Obj(map["input" := Str(TextOf(Get(item, "input")))]))
    else (Typed(item, "function_call_output") || Typed(item, "custom_tool_call_output")) && SaysResult(c, piece, item)
  }

  /** One piece for each item, in order; reasoning is not replayed. */
  predicate SaysItems(c: Codec, pieces: seq<Piece>, items: seq<Value>)
    decreases |items|
  {
    if items == [] then pieces == []
    else if Typed(items[0], "reasoning") then SaysItems(c, pieces, items[1..])
    else pieces != [] && SaysItem(c, pieces[0], items[0]) && SaysItems(c, pieces[1..], items[1..])
  }

  predicate KnownCall(item: Value) {
    TextOf(Get(item, "call_id")) != "" && TextOf(Get(item, "name")) != "" && Encode(TextOf(Get(item, "name"))).Some?
  }

  /** Items that can be replayed. */
  predicate KnownItem(images: bool, item: Value) {
    if Typed(item, "message") then KnownRole(AsStr(Get(item, "role"))) && KnownContent(images, Get(item, "content"))
    else if Typed(item, "function_call") || Typed(item, "custom_tool_call") then KnownCall(item)
    else if Typed(item, "function_call_output") || Typed(item, "custom_tool_call_output") then
      TextOf(Get(item, "call_id")) != ""
    else Typed(item, "reasoning")
  }

  function PieceOf(chat: Chat): Piece
    requires chat.Calls? ==> |chat.calls| == 1
  {
    if chat.Calls? then Call(CallJson(chat.calls[0])) else Message(ChatJson(chat))
  }

  lemma CallJsonSays(call: Called)
    ensures var v := CallJson(call);
            && Typed(v, "function") && Get(v, "id") == Some(Str(call.callId))
            && At(Get(v, "function"), "name") == Some(Str(call.wire))
            && At(Get(v, "function"), "arguments") == Some(Str(call.arguments))
  {
  }

  lemma ResultJsonSays(callId: string, content: string)
    ensures var v := ChatJson(Result(callId, content));
            && Get(v, "role") == Some(Str("tool")) && Get(v, "tool_call_id") == Some(Str(callId))
            && Get(v, "content") == Some(Str(content)) && Get(v, "tool_calls").None?
  {
  }

  lemma CallItemKnown(c: Codec, item: Value, freeform: bool)
    ensures ReadCall(c, item, freeform).Uses? <==> KnownCall(item)
    ensures !ReadCall(c, item, freeform).Uses? ==> ReadCall(c, item, freeform).Refused?
    ensures ReadCall(c, item, freeform).Uses? ==>
              ReadCall(c, item, freeform).use == Use(TextOf(Get(item, "name")), freeform)
  {
  }

  lemma CallItemSaid(c: Codec, item: Value, freeform: bool)
    requires Lawful(c) && Typed(item, if freeform then "custom_tool_call" else "function_call")
    requires ReadCall(c, item, freeform).Uses?
    ensures SaysItem(c, Call(CallJson(ReadCall(c, item, freeform).call)), item)
  {
    var call := ReadCall(c, item, freeform).call;
    CallJsonSays(call);
    if freeform {
      WrappedSaid(c, item, call);
    }
  }

  lemma WrappedSaid(c: Codec, item: Value, call: Called)
    requires Lawful(c) && ReadCall(c, item, true).Uses? && call == ReadCall(c, item, true).call
    ensures c.parse(call.arguments) == Some(Obj(map["input" := Str(TextOf(Get(item, "input")))]))
  {
    var input := Obj(map["input" := Str(TextOf(Get(item, "input")))]);
    assert c.parse(c.encode(input)) == Some(input);
  }

  lemma ResultItemSaid(c: Codec, item: Value)
    requires Typed(item, "function_call_output") || Typed(item, "custom_tool_call_output")
    ensures ReadResult(c, item).Adds? <==> TextOf(Get(item, "call_id")) != ""
    ensures ReadResult(c, item).Adds? ==>
              ReadResult(c, item).chat.Result? && SaysItem(c, Message(ChatJson(ReadResult(c, item).chat)), item)
    ensures !ReadResult(c, item).Adds? ==> ReadResult(c, item).Refused?
  {
    var step := ReadResult(c, item);
    if step.Adds? {
      ResultJsonSays(step.chat.callId, step.chat.content);
    }
  }

  /** The use of a name a replayed item makes. */
  function ItemUse(item: Value): seq<Use> {
    if Typed(item, "function_call") then [Use(TextOf(Get(item, "name")), false)]
    else if Typed(item, "custom_tool_call") then [Use(TextOf(Get(item, "name")), true)]
    else []
  }

  /** Reading gives `step` for the item exactly as it should. */
  predicate ItemFits(cfg: Config, item: Value, step: Step) {
    && (!step.Refused? <==> KnownItem(cfg.images, item))
    && (step.Nothing? <==> Typed(item, "reasoning"))
    && (step.Uses? ==> SaysItem(cfg.codec, Call(CallJson(step.call)), item))
    && (step.Adds? ==>
          && !step.chat.Calls? && !step.chat.System? && SaysItem(cfg.codec, Message(ChatJson(step.chat)), item)
          && Get(ChatJson(step.chat), "tool_calls").None?)
    && (!step.Refused? ==> StepUses(step) == ItemUse(item))
  }

  lemma MessageItemFits(cfg: Config, item: Value)
    requires Typed(item, "message")
    ensures ItemFits(cfg, item, ReadItem(cfg, item))
  {
    MessageByPlace(cfg.images, item);
  }

  lemma CallItemRead(cfg: Config, item: Value, freeform: bool)
    requires Typed(item, if freeform then "custom_tool_call" else "function_call")
    ensures ReadItem(cfg, item) == ReadCall(cfg.codec, item, freeform)
  {
  }

  lemma CallItemKind(images: bool, item: Value, freeform: bool)
    requires Typed(item, if freeform then "custom_tool_call" else "function_call")
    ensures KnownItem(images, item) == KnownCall(item) && !Typed(item, "reasoning")
    ensures ItemUse(item) == [Use(TextOf(Get(item, "name")), freeform)]
  {
    assert "function_call"[0] == 'f' && "custom_tool_call"[0] == 'c' && "message"[0] == 'm' && "reasoning"[0] == 'r';
  }

  lemma CallItemFits(cfg: Config, item: Value, freeform: bool)
    requires Lawful(cfg.codec) && Typed(item, if freeform then "custom_tool_call" else "function_call")
    ensures ItemFits(cfg, item, ReadItem(cfg, item))
  {
    CallItemRead(cfg, item, freeform);
    CallItemKind(cfg.images, item, freeform);
    CallItemKnown(cfg.codec, item, freeform);
    if KnownCall(item) {
      CallItemSaid(cfg.codec, item, freeform);
    }
  }

  lemma ResultItemFits(cfg: Config, item: Value)
    requires Typed(item, "function_call_output") || Typed(item, "custom_tool_call_output")
    ensures ItemFits(cfg, item, ReadItem(cfg, item))
  {
    ResultItemSaid(cfg.codec, item);
    var step := ReadResult(cfg.codec, item);
    assert ReadItem(cfg, item) == step;
    if step.Adds? {
      ResultJsonSays(step.chat.callId, step.chat.content);
    }
  }

  lemma ItemSaid(cfg: Config, item: Value)
    requires Lawful(cfg.codec)
    ensures ItemFits(cfg, item, ReadItem(cfg, item))
  {
    if Typed(item, "message") {
      MessageItemFits(cfg, item);
    } else if Typed(item, "function_call") {
      CallItemFits(cfg, item, false);
    } else if Typed(item, "custom_tool_call") {
      CallItemFits(cfg, item, true);
    } else if Typed(item, "function_call_output") || Typed(item, "custom_tool_call_output") {
      ResultItemFits(cfg, item);
    }
  }

  // ----- whole histories -----

  function ItemsUses(items: seq<Value>): seq<Use>
    decreases |items|
  {
    if items == [] then [] else ItemUse(items[0]) + ItemsUses(items[1..])
  }

  lemma {:induction false} ItemsRead(cfg: Config, items: seq<Value>)
    requires Lawful(cfg.codec)
    ensures AllRead(cfg, items) <==> forall i :: 0 <= i < |items| ==> KnownItem(cfg.images, items[i])
    ensures AllRead(cfg, items) ==> ItemUses(cfg, items) == ItemsUses(items)
    decreases |items|
  {
    if items != [] {
      ItemSaid(cfg, items[0]);
      ItemsRead(cfg, items[1..]);
      assert forall i :: 0 <= i < |items[1..]| ==> items[1..][i] == items[i + 1];
      if forall i :: 0 <= i < |items[1..]| ==> KnownItem(cfg.images, items[1..][i]) {
        assert forall i :: 0 < i < |items| ==> items[i] == items[1..][i - 1];
      }
    }
  }

  function PiecesFor(chats: seq<Chat>): seq<Piece>
    requires forall i :: 0 <= i < |chats| ==> chats[i].Calls? ==> |chats[i].calls| == 1
  {
    if chats == [] then [] else [PieceOf(chats[0])] + PiecesFor(chats[1..])
  }

  predicate Single(chats: seq<Chat>) { forall i :: 0 <= i < |chats| ==> chats[i].Calls? ==> |chats[i].calls| == 1 }

  lemma {:induction false} ContributionsSay(cfg: Config, items: seq<Value>)
    requires Lawful(cfg.codec) && AllRead(cfg, items)
    ensures Single(Contributions(cfg, items)) && SaysItems(cfg.codec, PiecesFor(Contributions(cfg, items)), items)
    ensures forall chat :: chat in Contributions(cfg, items) && !chat.Calls? ==> Get(ChatJson(chat), "tool_calls").None?
    decreases |items|
  {
    if items != [] {
      ItemSaid(cfg, items[0]);
      ContributionsSay(cfg, items[1..]);
      var first, rest := Contribution(ReadItem(cfg, items[0])), Contributions(cfg, items[1..]);
      if first == [] {
        assert [] + rest == rest;
      } else {
        assert ([first[0]] + rest)[1..] == rest;
      }
    }
  }

  lemma SingleRest(chats: seq<Chat>)
    requires chats != [] && Single(chats)
    ensures Single(chats[1..])
  {
    assert forall i :: 0 <= i < |chats[1..]| ==> chats[1..][i] == chats[i + 1];
  }

  lemma SingleAppend(a: seq<Chat>, b: seq<Chat>)
    requires Single(a) && Single(b)
    ensures Single(a + b)
  {
  }

  lemma {:induction false} PiecesForAppend(a: seq<Chat>, b: seq<Chat>)
    requires Single(a) && Single(b)
    ensures Single(a + b) && PiecesFor(a + b) == PiecesFor(a) + PiecesFor(b)
  {
    SingleAppend(a, b);
    if a == [] {
      assert a + b == b;
    } else {
      SingleRest(a);
      assert (a + b)[0] == a[0] && (a + b)[1..] == a[1..] + b;
      PiecesForAppend(a[1..], b);
      Reassociate([PieceOf(a[0])], PiecesFor(a[1..]), PiecesFor(b));
    }
  }

  lemma {:induction false} SinglesSay(calls: seq<Called>)
    ensures Single(Singles(calls)) && CallList(CallsJson(calls)) == PiecesFor(Singles(calls))
  {
    if calls != [] {
      SinglesSay(calls[1..]);
    }
  }

  lemma ApartSays(chat: Chat)
    requires !chat.Calls? ==> Get(ChatJson(chat), "tool_calls").None?
    ensures Single(Apart(chat)) && PiecesOf(ChatJson(chat)) == PiecesFor(Apart(chat))
  {
    if chat.Calls? {
      SinglesSay(chat.calls);
      assert Get(ChatJson(chat), "tool_calls") == Some(Arr(CallsJson(chat.calls)));
    } else {
      assert [chat][1..] == [];
    }
  }

  predicate PlainApart(chats: seq<Chat>) {
    forall i :: 0 <= i < |chats| ==> !chats[i].Calls? ==> Get(ChatJson(chats[i]), "tool_calls").None?
  }

  lemma {:induction false} ChatsJsonAppend(chats: seq<Chat>, chat: Chat)
    ensures ChatsJson(chats + [chat]) == ChatsJson(chats) + [ChatJson(chat)]
  {
    if chats == [] {
      assert [] + [chat] == [chat];
    } else {
      assert (chats + [chat])[1..] == chats[1..] + [chat];
      ChatsJsonAppend(chats[1..], chat);
    }
  }

  /** Taking the written messages apart gives a piece for each chat. */
  lemma {:induction false} PiecesUnmerged(chats: seq<Chat>)
    requires PlainApart(chats)
    ensures Single(Unmerged(chats)) && Pieces(ChatsJson(chats)) == PiecesFor(Unmerged(chats))
  {
    if chats != [] {
      var front, last := chats[..|chats| - 1], chats[|chats| - 1];
      assert chats == front + [last];
      PiecesUnmerged(front);
      ApartSays(last);
      ChatsJsonAppend(front, last);
      PiecesForAppend(Unmerged(front), Apart(last));
      assert (ChatsJson(front) + [ChatJson(last)])[..|ChatsJson(front)|] == ChatsJson(front);
    }
  }

  predicate CallMessage(v: Value) { Get(v, "tool_calls").Some? }

  /** Calls stand in assistant messages without content, those side by side in
      one. */
  predicate CallsTogether(messages: seq<Value>) {
    && (forall i :: 0 <= i < |messages| && CallMessage(messages[i]) ==>
          && Get(messages[i], "role") == Some(Str("assistant")) && Get(messages[i], "content") == Some(Null)
          && Get(messages[i], "tool_calls").value.Arr? && Get(messages[i], "tool_calls").value.items != [])
    && (forall i :: 0 <= i < |messages| - 1 ==> !(CallMessage(messages[i]) && CallMessage(messages[i + 1])))
  }

  lemma {:induction false} ChatsJsonAt(chats: seq<Chat>)
    ensures |ChatsJson(chats)| == |chats| && forall i :: 0 <= i < |chats| ==> ChatsJson(chats)[i] == ChatJson(chats[i])
  {
    if chats != [] {
      ChatsJsonAt(chats[1..]);
    }
  }

  lemma CallsJsonSays(chat: Chat)
    requires chat.Calls? && chat.calls != []
    ensures var v := ChatJson(chat);
            && Get(v, "role") == Some(Str("assistant")) && Get(v, "content") == Some(Null)
            && Get(v, "tool_calls").Some? && Get(v, "tool_calls").value.Arr? && Get(v, "tool_calls").value.items != []
  {
    assert CallsJson(chat.calls) != [];
  }

  lemma FoldedWritten(chats: seq<Chat>)
    requires Folded(chats) && PlainApart(chats)
    ensures CallsTogether(ChatsJson(chats))
  {
    var messages := ChatsJson(chats);
    ChatsJsonAt(chats);
    forall i | 0 <= i < |messages|
      ensures CallMessage(messages[i]) <==> chats[i].Calls?
      ensures CallMessage(messages[i]) ==>
                && Get(messages[i], "role") == Some(Str("assistant")) && Get(messages[i], "content") == Some(Null)
                && Get(messages[i], "tool_calls").value.Arr? && Get(messages[i], "tool_calls").value.items != []
    {
      if chats[i].Calls? {
        CallsJsonSays(chats[i]);
      }
    }
  }

  // ----- merged and apart -----

  lemma {:induction false} ApartOf(chats: seq<Chat>, i: nat)
    requires i < |chats| && !chats[i].Calls?
    ensures chats[i] in Unmerged(chats)
    decreases |chats|
  {
    var n := |chats| - 1;
    if i < n {
      ApartOf(chats[..n], i);
    }
  }

  /** The written messages of a folded history say its instructions, if any, and
      then its items. */
  predicate SaysHistory(c: Codec, messages: seq<Value>, instructions: string, items: seq<Value>) {
    var pieces := Pieces(messages);
    if instructions == "" then SaysItems(c, pieces, items)
    else
      && pieces != [] && pieces[0].Message?
      && Get(pieces[0].v, "role") == Some(Str("system")) && Get(pieces[0].v, "content") == Some(Str(instructions))
      && SaysItems(c, pieces[1..], items)
  }

  lemma SystemJsonSays(text: string)
    ensures var v := ChatJson(System(text));
            && Get(v, "role") == Some(Str("system")) && Get(v, "content") == Some(Str(text))
            && Get(v, "tool_calls").None?
  {
  }

  lemma MergedPlain(chats: seq<Chat>, start: seq<Chat>, rest: seq<Chat>)
    requires Unmerged(chats) == start + rest
    requires forall chat :: chat in start && !chat.Calls? ==> Get(ChatJson(chat), "tool_calls").None?
    requires forall chat :: chat in rest && !chat.Calls? ==> Get(ChatJson(chat), "tool_calls").None?
    ensures PlainApart(chats)
  {
    forall i | 0 <= i < |chats| && !chats[i].Calls?
      ensures Get(ChatJson(chats[i]), "tool_calls").None?
    {
      ApartOf(chats, i);
      assert chats[i] in start || chats[i] in rest;
    }
  }

  lemma HistorySaid(cfg: Config, chats: seq<Chat>, instructions: string, items: seq<Value>)
    requires Lawful(cfg.codec) && AllRead(cfg, items) && Folded(chats)
    requires Unmerged(chats)
          == (if instructions != "" then [System(instructions)] else []) + Contributions(cfg, items)
    ensures CallsTogether(ChatsJson(chats)) && SaysHistory(cfg.codec, ChatsJson(chats), instructions, items)
  {
    var start: seq<Chat> := if instructions != "" then [System(instructions)] else [];
    var rest := Contributions(cfg, items);
    ContributionsSay(cfg, items);
    SystemJsonSays(instructions);
    MergedPlain(chats, start, rest);
    FoldedWritten(chats);
    PiecesUnmerged(chats);
    PiecesForAppend(start, rest);
    assert instructions == "" ==> [] + PiecesFor(rest) == PiecesFor(rest);
    assert [System(instructions)][1..] == [];
  }
}
