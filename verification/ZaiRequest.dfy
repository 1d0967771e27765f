/** A Responses request's tools and history as a Z.ai chat request. */
module ZaiRequest {
  import opened Prelude
  import opened Json
  import opened ToolNames
  import opened ChatMessages
  import S = Synthesizer
  import Responses

  /** The text codec, and whether the model takes images. */
  datatype Config = Config(codec: Codec, images: bool)

  function NonEmptyText(v: Option<Value>): Option<string> {
    if AsStr(v).Some? && AsStr(v).value != "" then AsStr(v) else None
  }

  // ----- declared tools -----

  /** A declared tool with its full name. */
  datatype Declaration = Declaration(use: Use, tool: Value)

  function QualifiedName(tool: Value, namespace: Option<string>): Option<string> {
    match NonEmptyText(Get(tool, "name"))
    case None => None
    case Some(name) => Some(if namespace.Some? then namespace.value + "." + name else name)
  }

  /** A function or custom tool, alone or in a namespace. */
  function Declare(tool: Value, namespace: Option<string>): Option<Declaration> {
    var kind := AsStr(Get(tool, "type"));
    if !tool.Obj? || (kind != Some("function") && kind != Some("custom")) then None
    else
      match QualifiedName(tool, namespace)
      case None => None
      case Some(name) => Some(Declaration(Use(name, kind == Some("custom")), tool))
  }

  function DeclareNested(nested: seq<Value>, namespace: string): Option<seq<Declaration>>
    decreases |nested|
  {
    if nested == [] then Some([])
    else
      match Declare(nested[0], Some(namespace))
      case None => None
      case Some(first) =>
        match DeclareNested(nested[1..], namespace)
        case None => None
        case Some(rest) => Some([first] + rest)
  }

  function DeclareTool(tool: Value): Option<seq<Declaration>> {
    if AsStr(Get(tool, "type")) == Some("namespace") then
      var namespace, nested := NonEmptyText(Get(tool, "name")), Get(tool, "tools");
      if namespace.None? || nested.None? || !nested.value.Arr? then None
      else DeclareNested(nested.value.items, namespace.value)
    else
      match Declare(tool, None)
      case None => None
      case Some(declaration) => Some([declaration])
  }

  /** All tools a request declares, namespaces flattened, in order. */
  function DeclareTools(tools: seq<Value>): Option<seq<Declaration>>
    decreases |tools|
  {
    if tools == [] then Some([])
    else
      match DeclareTool(tools[0])
      case None => None
      case Some(first) =>
        match DeclareTools(tools[1..])
        case None => None
        case Some(rest) => Some(first + rest)
  }

  function UsesOf(declarations: seq<Declaration>): seq<Use> {
    if declarations == [] then [] else [declarations[0].use] + UsesOf(declarations[1..])
  }

  const NO_PARAMETERS: Value := Obj(map["type" := Str("object"), "properties" := Obj(map[])])

  const INPUT_PARAMETERS: Value := Obj(map[
    "type" := Str("object"),
    "properties" := Obj(map["input" := Obj(map["type" := Str("string")])]),
    "required" := Arr([Str("input")])])

  /** A tool as Z.ai is told of it. A free-form tool becomes a function of one
      string, `input`. */
  function WireTool(declaration: Declaration): Value {
    var parameters :=
      if declaration.use.freeform then INPUT_PARAMETERS
      else if Get(declaration.tool, "parameters").Some? then Get(declaration.tool, "parameters").value
      else NO_PARAMETERS;
    var wire := Encode(declaration.use.name);
    var named := map["name" := Str(if wire.Some? then wire.value else ""), "parameters" := parameters];
    var description := AsStr(Get(declaration.tool, "description"));
    Obj(map["type" := Str("function"),
            "function" := Obj(if description.Some? then named["description" := Str(description.value)] else named)])
  }

  function WireTools(declarations: seq<Declaration>): seq<Value> {
    if declarations == [] then [] else [WireTool(declarations[0])] + WireTools(declarations[1..])
  }

  /** The name table and wire tools after one more declaration. */
  function TakeTool(names: Names, wires: seq<Value>, declaration: Option<Declaration>): Option<(Names, seq<Value>)> {
    if declaration.None? then None
    else
      match Record(names, declaration.value.use)
      case None => None
      case Some(next) => Some((next, wires + [WireTool(declaration.value)]))
  }

  function TakeNested(names: Names, wires: seq<Value>, nested: seq<Value>,
                      namespace: string): Option<(Names, seq<Value>)>
    decreases |nested|
  {
    if nested == [] then Some((names, wires))
    else
      match TakeTool(names, wires, Declare(nested[0], Some(namespace)))
      case None => None
      case Some((next, more)) => TakeNested(next, more, nested[1..], namespace)
  }

  function TakeDeclared(names: Names, wires: seq<Value>, tool: Value): Option<(Names, seq<Value>)> {
    if AsStr(Get(tool, "type")) == Some("namespace") then
      var namespace, nested := NonEmptyText(Get(tool, "name")), Get(tool, "tools");
      if namespace.None? || nested.None? || !nested.value.Arr? then None
      else TakeNested(names, wires, nested.value.items, namespace.value)
    else TakeTool(names, wires, Declare(tool, None))
  }

  function TakeTools(names: Names, wires: seq<Value>, tools: seq<Value>): Option<(Names, seq<Value>)>
    decreases |tools|
  {
    if tools == [] then Some((names, wires))
    else
      match TakeDeclared(names, wires, tools[0])
      case None => None
      case Some((next, more)) => TakeTools(next, more, tools[1..])
  }

  // ----- history -----

  /** A chat message; consecutive tool calls share one. */
  datatype Chat =
    | System(text: string)
    | Spoken(message: Value)
    | Calls(calls: seq<Called>)
    | Result(callId: string, content: string)

  datatype Called = Called(callId: string, wire: string, arguments: string)

  /** What one history item contributes, besides the use of a tool name. */
  datatype Step = Nothing | Adds(chat: Chat) | Uses(use: Use, call: Called) | Refused

  function WrapInput(c: Codec, input: string): string { c.encode(Obj(map["input" := Str(input)])) }

  function CallArguments(c: Codec, item: Value, freeform: bool): string {
    var raw := TextOf(Get(item, if freeform then "input" else "arguments"));
    if freeform then WrapInput(c, raw) else if raw == "" then "{}" else raw
  }

  function ReadCall(c: Codec, item: Value, freeform: bool): Step {
    var callId, name := NonEmptyText(Get(item, "call_id")), NonEmptyText(Get(item, "name"));
    if callId.None? || name.None? || Encode(name.value).None? then Refused
    else Uses(Use(name.value, freeform),
              Called(callId.value, Encode(name.value).value, CallArguments(c, item, freeform)))
  }

  function ReadResult(c: Codec, item: Value): Step {
    var callId, output := NonEmptyText(Get(item, "call_id")), Get(item, "output");
    if callId.None? then Refused
    else
      var content := if output.None? then "" else if output.value.Str? then output.value.s else c.encode(output.value);
      Adds(Result(callId.value, content))
  }

  function ReadItem(cfg: Config, item: Value): Step {
    var kind := AsStr(Get(item, "type"));
    if !item.Obj? || kind.None? then Refused
    else if kind.value == "message" then
      (match TranslateMessage(cfg.images, item) case None => Refused case Some(message) => Adds(Spoken(message)))
    else if kind.value == "reasoning" then Nothing
    else if kind.value == "function_call" then ReadCall(cfg.codec, item, false)
    else if kind.value == "custom_tool_call" then ReadCall(cfg.codec, item, true)
    else if kind.value == "function_call_output" || kind.value == "custom_tool_call_output"
    then ReadResult(cfg.codec, item)
    else Refused
  }

  /** A tool call joins the tool calls just before it. */
  function PushToolCall(messages: seq<Chat>, call: Called): seq<Chat> {
    if messages != [] && messages[|messages| - 1].Calls? then
      messages[|messages| - 1 := Calls(messages[|messages| - 1].calls + [call])]
    else messages + [Calls([call])]
  }

  /** The message list and name table after one more item. */
  function TakeStep(names: Names, messages: seq<Chat>, step: Step): Option<(Names, seq<Chat>)> {
    match step
    case Refused => None
    case Nothing => Some((names, messages))
    case Adds(chat) => Some((names, messages + [chat]))
    case Uses(use, call) =>
      match Record(names, use)
      case None => None
      case Some(next) => Some((next, PushToolCall(messages, call)))
  }

  function TakeItems(cfg: Config, names: Names, messages: seq<Chat>, items: seq<Value>): Option<(Names, seq<Chat>)>
    decreases |items|
  {
    if items == [] then Some((names, messages))
    else
      match TakeStep(names, messages, ReadItem(cfg, items[0]))
      case None => None
      case Some((next, more)) => TakeItems(cfg, next, more, items[1..])
  }

  // ----- the loops -----

  class Translator {
    const cfg: Config
    const table: ToolTable

    constructor (cfg: Config)
      ensures this.cfg == cfg && fresh(table) && table.View() == NO_NAMES
    {
      this.cfg := cfg;
      table := new ToolTable();
    }

    method TranslateTool(declaration: Option<Declaration>, before: seq<Value>) returns (r: Option<seq<Value>>)
      modifies table
      ensures match TakeTool(old(table.View()), before, declaration)
              case None => r.None?
              case Some((names, wires)) => r == Some(wires) && table.View() == names
    {
      if declaration.None? {
        return None;
      }
      var recorded := table.RecordUse(declaration.value.use.name, declaration.value.use.freeform);
      return if recorded.None? then None else Some(before + [WireTool(declaration.value)]);
    }

    method TranslateNested(nested: seq<Value>, namespace: string, before: seq<Value>) returns (r: Option<seq<Value>>)
      modifies table
      ensures match TakeNested(old(table.View()), before, nested, namespace)
              case None => r.None?
              case Some((names, wires)) => r == Some(wires) && table.View() == names
    {
      var wires := before;
      for i := 0 to |nested|
        invariant TakeNested(table.View(), wires, nested[i..], namespace)
                  == TakeNested(old(table.View()), before, nested, namespace)
      {
        assert nested[i..][0] == nested[i] && nested[i..][1..] == nested[i + 1..];
        var more := TranslateTool(Declare(nested[i], Some(namespace)), wires);
        if more.None? {
          return None;
        }
        wires := more.value;
      }
      return Some(wires);
    }

    method TranslateTools(tools: seq<Value>) returns (r: Option<seq<Value>>)
      modifies table
      ensures match TakeTools(old(table.View()), [], tools)
              case None => r.None?
              case Some((names, wires)) => r == Some(wires) && table.View() == names
    {
      var translated: seq<Value> := [];
      for i := 0 to |tools|
        invariant TakeTools(table.View(), translated, tools[i..]) == TakeTools(old(table.View()), [], tools)
      {
        assert tools[i..][0] == tools[i] && tools[i..][1..] == tools[i + 1..];
        var more: Option<seq<Value>>;
        if AsStr(Get(tools[i], "type")) == Some("namespace") {
          var namespace, nested := NonEmptyText(Get(tools[i], "name")), Get(tools[i], "tools");
          if namespace.None? || nested.None? || !nested.value.Arr? {
            return None;
          }
          more := TranslateNested(nested.value.items, namespace.value, translated);
        } else {
          more := TranslateTool(Declare(tools[i], None), translated);
        }
        if more.None? {
          return None;
        }
        translated := more.value;
      }
      return Some(translated);
    }

    method TranslateItems(before: seq<Chat>, items: seq<Value>) returns (r: Option<seq<Chat>>)
      modifies table
      ensures match TakeItems(cfg, old(table.View()), before, items)
              case None => r.None?
              case Some((names, messages)) => r == Some(messages) && table.View() == names
    {
      var messages := before;
      for i := 0 to |items|
        invariant TakeItems(cfg, table.View(), messages, items[i..]) == TakeItems(cfg, old(table.View()), before, items)
      {
        assert items[i..][0] == items[i] && items[i..][1..] == items[i + 1..];
        match ReadItem(cfg, items[i]) {
          case Refused => return None;
          case Nothing =>
          case Adds(chat) => messages := messages + [chat];
          case Uses(use, call) =>
            var recorded := table.RecordUse(use.name, use.freeform);
            if recorded.None? {
              return None;
            }
            if messages != [] && messages[|messages| - 1].Calls? {
              var last := messages[|messages| - 1];
              messages := messages[|messages| - 1 := Calls(last.calls + [call])];
            } else {
              messages := messages + [Calls([call])];
            }
        }
      }
      return Some(messages);
    }
  }

  // ----- the tools theorem -----

  lemma TakeToolAt(names: Names, wires: seq<Value>, declaration: Declaration, rest: seq<Declaration>)
    ensures RecordAll(names, UsesOf([declaration] + rest))
         == match Record(names, declaration.use) case None => None case Some(next) => RecordAll(next, UsesOf(rest))
    ensures wires + WireTools([declaration] + rest) == (wires + [WireTool(declaration)]) + WireTools(rest)
  {
    assert ([declaration] + rest)[1..] == rest;
  }

  lemma {:induction false} UsesAppend(a: seq<Declaration>, b: seq<Declaration>)
    ensures UsesOf(a + b) == UsesOf(a) + UsesOf(b)
  {
    if a == [] {
      assert a + b == b;
    } else {
      assert (a + b)[1..] == a[1..] + b;
      UsesAppend(a[1..], b);
    }
  }

  lemma {:induction false} WireToolsAppend(a: seq<Declaration>, b: seq<Declaration>)
    ensures WireTools(a + b) == WireTools(a) + WireTools(b)
  {
    if a == [] {
      assert a + b == b;
    } else {
      assert (a + b)[1..] == a[1..] + b;
      WireToolsAppend(a[1..], b);
    }
  }

  lemma {:induction false} RecordAppend(names: Names, a: seq<Use>, b: seq<Use>)
    ensures RecordAll(names, a + b)
         == match RecordAll(names, a) case None => None case Some(next) => RecordAll(next, b)
    decreases |a|
  {
    if a == [] {
      assert a + b == b;
    } else {
      assert (a + b)[1..] == a[1..] + b;
      if Record(names, a[0]).Some? {
        RecordAppend(Record(names, a[0]).value, a[1..], b);
      }
    }
  }

  /** Wire tools for a list of declarations, when all its names can be recorded. */
  function Translated(names: Names, wires: seq<Value>,
                      declared: Option<seq<Declaration>>): Option<(Names, seq<Value>)> {
    if declared.None? then None
    else
      match RecordAll(names, UsesOf(declared.value))
      case None => None
      case Some(after) => Some((after, wires + WireTools(declared.value)))
  }

  lemma {:induction false} NestedTranslated(names: Names, wires: seq<Value>, nested: seq<Value>, namespace: string)
    ensures TakeNested(names, wires, nested, namespace) == Translated(names, wires, DeclareNested(nested, namespace))
    decreases |nested|
  {
    if nested == [] {
      assert wires + [] == wires;
    } else {
      var declaration := Declare(nested[0], Some(namespace));
      if declaration.Some? {
        var rest := DeclareNested(nested[1..], namespace);
        if rest.Some? {
          TakeToolAt(names, wires, declaration.value, rest.value);
        }
        var taken := TakeTool(names, wires, declaration);
        if taken.Some? {
          NestedTranslated(taken.value.0, taken.value.1, nested[1..], namespace);
        }
      }
    }
  }

  lemma ToolTranslated(names: Names, wires: seq<Value>, tool: Value)
    ensures TakeDeclared(names, wires, tool) == Translated(names, wires, DeclareTool(tool))
  {
    if AsStr(Get(tool, "type")) == Some("namespace") {
      var namespace, nested := NonEmptyText(Get(tool, "name")), Get(tool, "tools");
      if namespace.Some? && nested.Some? && nested.value.Arr? {
        NestedTranslated(names, wires, nested.value.items, namespace.value);
      }
    } else if Declare(tool, None).Some? {
      TakeToolAt(names, wires, Declare(tool, None).value, []);
      var declaration := Declare(tool, None).value;
      assert [declaration] + [] == [declaration];
      assert (wires + [WireTool(declaration)]) + [] == wires + [WireTool(declaration)];
    }
  }

  lemma TranslatedAppend(names: Names, wires: seq<Value>, a: seq<Declaration>, b: seq<Declaration>)
    ensures Translated(names, wires, Some(a + b))
         == match Translated(names, wires, Some(a))
            case None => None
            case Some((next, more)) => Translated(next, more, Some(b))
  {
    UsesAppend(a, b);
    WireToolsAppend(a, b);
    RecordAppend(names, UsesOf(a), UsesOf(b));
    assert wires + (WireTools(a) + WireTools(b)) == (wires + WireTools(a)) + WireTools(b);
  }

  /** Translating tools succeeds exactly when each is well formed and their
      full names can all be recorded; the wire tools then stand in the order
      of the declarations, namespaces flattened. */
  lemma {:induction false} ToolsTranslated(names: Names, wires: seq<Value>, tools: seq<Value>)
    ensures TakeTools(names, wires, tools) == Translated(names, wires, DeclareTools(tools))
    decreases |tools|
  {
    if tools == [] {
      assert wires + [] == wires;
    } else {
      ToolTranslated(names, wires, tools[0]);
      var first, rest := DeclareTool(tools[0]), DeclareTools(tools[1..]);
      if first.Some? && rest.Some? {
        TranslatedAppend(names, wires, first.value, rest.value);
      }
      var taken := TakeDeclared(names, wires, tools[0]);
      if taken.Some? {
        ToolsTranslated(taken.value.0, taken.value.1, tools[1..]);
      }
    }
  }
}
