/** What folding a history into chat messages keeps, and what survives from one
    turn to the next. */
module ChatHistory {
  import opened Prelude
  import opened Json
  import opened ToolNames
  import opened ZaiRequest
  import S = Synthesizer
  import T = ToolCalls
  import Conservation
  import Responses

  // ----- folding -----

  function Singles(calls: seq<Called>): seq<Chat> {
    if calls == [] then [] else [Calls([calls[0]])] + Singles(calls[1..])
  }

  function Apart(message: Chat): seq<Chat> { if message.Calls? then Singles(message.calls) else [message] }

  /** The messages with every shared tool-call message taken apart again. */
  function Unmerged(messages: seq<Chat>): seq<Chat> {
    if messages == [] then [] else Unmerged(messages[..|messages| - 1]) + Apart(messages[|messages| - 1])
  }

  function Contribution(step: Step): seq<Chat> {
    match step
    case Adds(chat) => [chat]
    case Uses(_, call) => [Calls([call])]
    case _ => []
  }

  /** One message per history item that has one, in order. */
  function Contributions(cfg: Config, items: seq<Value>): seq<Chat>
    decreases |items|
  {
    if items == [] then [] else Contribution(ReadItem(cfg, items[0])) + Contributions(cfg, items[1..])
  }

  function StepUses(step: Step): seq<Use> { if step.Uses? then [step.use] else [] }

  function ItemUses(cfg: Config, items: seq<Value>): seq<Use>
    decreases |items|
  {
    if items == [] then [] else StepUses(ReadItem(cfg, items[0])) + ItemUses(cfg, items[1..])
  }

  /** Tool calls stand together: a shared message is never empty and never
      next to another. */
  predicate Folded(messages: seq<Chat>) {
    && (forall i :: 0 <= i < |messages| ==> messages[i].Calls? ==> messages[i].calls != [])
    && (forall i :: 0 <= i < |messages| - 1 ==> !(messages[i].Calls? && messages[i + 1].Calls?))
  }

  lemma {:induction false} SinglesAppend(calls: seq<Called>, call: Called)
    ensures Singles(calls + [call]) == Singles(calls) + [Calls([call])]
  {
    if calls == [] {
      assert [] + [call] == [call];
    } else {
      assert (calls + [call])[1..] == calls[1..] + [call];
      SinglesAppend(calls[1..], call);
    }
  }

  lemma UnmergedAppend(messages: seq<Chat>, message: Chat)
    ensures Unmerged(messages + [message]) == Unmerged(messages) + Apart(message)
  {
    assert (messages + [message])[..|messages|] == messages;
  }

  lemma PushFolds(messages: seq<Chat>, call: Called)
    requires Folded(messages)
    ensures Folded(PushToolCall(messages, call))
    ensures Unmerged(PushToolCall(messages, call)) == Unmerged(messages) + [Calls([call])]
  {
    if messages != [] && messages[|messages| - 1].Calls? {
      var before, last := messages[..|messages| - 1], messages[|messages| - 1];
      SinglesAppend(last.calls, call);
      assert PushToolCall(messages, call) == before + [Calls(last.calls + [call])];
      UnmergedAppend(before, Calls(last.calls + [call]));
      assert before + [last] == messages;
    } else {
      UnmergedAppend(messages, Calls([call]));
      assert Singles([call]) == [Calls([call])];
    }
  }

  lemma ItemAddsNoCalls(cfg: Config, item: Value)
    ensures ReadItem(cfg, item).Adds? ==> !ReadItem(cfg, item).chat.Calls?
  {
  }

  /** No item is refused. */
  predicate AllRead(cfg: Config, items: seq<Value>)
    decreases |items|
  {
    items == [] || (!ReadItem(cfg, items[0]).Refused? && AllRead(cfg, items[1..]))
  }

  lemma StepFolds(cfg: Config, names: Names, messages: seq<Chat>, item: Value)
    requires Folded(messages)
    ensures var step := ReadItem(cfg, item);
            match TakeStep(names, messages, step)
            case None => step.Refused? || RecordAll(names, StepUses(step)).None?
            case Some((next, more)) =>
              Folded(more) && Unmerged(more) == Unmerged(messages) + Contribution(step)
              && !step.Refused? && RecordAll(names, StepUses(step)) == Some(next)
  {
    ItemAddsNoCalls(cfg, item);
    match ReadItem(cfg, item)
    case Adds(chat) => UnmergedAppend(messages, chat);
    case Uses(use, call) =>
      PushFolds(messages, call);
      assert [use][1..] == [];
    case _ => assert Unmerged(messages) + [] == Unmerged(messages);
  }

  /** Folding keeps every item's message, in order, and keeps tool calls
      together. It fails exactly when an item is refused or the tool names
      cannot all be recorded. */
  lemma {:induction false} HistoryFolds(cfg: Config, names: Names, messages: seq<Chat>, items: seq<Value>)
    requires Folded(messages)
    ensures TakeItems(cfg, names, messages, items).Some?
            <==> AllRead(cfg, items) && RecordAll(names, ItemUses(cfg, items)).Some?
    ensures match TakeItems(cfg, names, messages, items)
            case None => true
            case Some((after, out)) =>
              Folded(out) && Unmerged(out) == Unmerged(messages) + Contributions(cfg, items)
              && RecordAll(names, ItemUses(cfg, items)) == Some(after)
    decreases |items|
  {
    if items == [] {
      assert Unmerged(messages) + [] == Unmerged(messages);
    } else {
      var step := ReadItem(cfg, items[0]);
      StepFolds(cfg, names, messages, items[0]);
      RecordAppend(names, StepUses(step), ItemUses(cfg, items[1..]));
      var taken := TakeStep(names, messages, step);
      if taken.Some? {
        HistoryFolds(cfg, taken.value.0, taken.value.1, items[1..]);
        Reassociate(Unmerged(messages), Contribution(step), Contributions(cfg, items[1..]));
      }
    }
  }

  lemma Reassociate<T>(a: seq<T>, b: seq<T>, c: seq<T>)
    ensures (a + b) + c == a + (b + c)
  {
  }

  // ----- a whole request -----

  datatype Translation = Translation(names: Names, tools: seq<Value>, messages: seq<Chat>)

  /** Tools first, then instructions and history, over one name table. */
  function Translate(cfg: Config, instructions: string, tools: seq<Value>, items: seq<Value>): Option<Translation> {
    match TakeTools(NO_NAMES, [], tools)
    case None => None
    case Some((names, wires)) =>
      match TakeItems(cfg, names, if instructions != "" then [System(instructions)] else [], items)
      case None => None
      case Some((after, messages)) => Some(Translation(after, wires, messages))
  }

  /** The tool names a request uses, declared and replayed. */
  function RequestUses(cfg: Config, declared: seq<Declaration>, items: seq<Value>): seq<Use> {
    UsesOf(declared) + ItemUses(cfg, items)
  }

  /** A request translates exactly when its tools are well formed, its items
      are all understood, every tool name fits the wire grammar and no two
      distinct names share a wire name. */
  lemma TurnTranslates(cfg: Config, instructions: string, tools: seq<Value>, items: seq<Value>)
    ensures Translate(cfg, instructions, tools, items).Some?
       <==> && DeclareTools(tools).Some? && AllRead(cfg, items)
            && Clashless(NO_NAMES, RequestUses(cfg, DeclareTools(tools).value, items))
  {
    var declared := DeclareTools(tools);
    ToolsTranslated(NO_NAMES, [], tools);
    if declared.Some? {
      var uses := RequestUses(cfg, declared.value, items);
      RecordAppend(NO_NAMES, UsesOf(declared.value), ItemUses(cfg, items));
      RecordingSucceeds(NO_NAMES, uses);
      var taken := TakeTools(NO_NAMES, [], tools);
      if taken.Some? {
        HistoryFolds(cfg, taken.value.0, if instructions != "" then [System(instructions)] else [], items);
      }
    }
  }

  /** What a translated request carries: the declared tools in order, every
      item's message in order with tool calls folded, and a table in which
      each name used decodes from its wire name. */
  lemma TurnKeeps(cfg: Config, instructions: string, tools: seq<Value>, items: seq<Value>)
    requires Translate(cfg, instructions, tools, items).Some? && DeclareTools(tools).Some?
    ensures var t := Translate(cfg, instructions, tools, items).value;
            var uses := RequestUses(cfg, DeclareTools(tools).value, items);
            && t.tools == WireTools(DeclareTools(tools).value)
            && Folded(t.messages)
            && Unmerged(t.messages)
               == (if instructions != "" then [System(instructions)] else []) + Contributions(cfg, items)
            && RecordAll(NO_NAMES, uses) == Some(t.names) && Consistent(t.names)
            && forall i :: 0 <= i < |uses| ==>
                 Encode(uses[i].name).Some? && Decode(t.names, Encode(uses[i].name).value) == uses[i].name
  {
    var declared := DeclareTools(tools).value;
    var start: seq<Chat> := if instructions != "" then [System(instructions)] else [];
    ToolsTranslated(NO_NAMES, [], tools);
    assert [] + WireTools(declared) == WireTools(declared);
    RecordAppend(NO_NAMES, UsesOf(declared), ItemUses(cfg, items));
    HistoryFolds(cfg, TakeTools(NO_NAMES, [], tools).value.0, start, items);
    RecordedNamesDecode(NO_NAMES, RequestUses(cfg, declared, items));
    assert Unmerged(start) == start by {
      if start != [] {
        assert start[..0] == [];
      }
    }
  }

  // ----- from turn to turn -----

  /** What a free-form tool is given comes back as it was. */
  lemma WrappedInputUnwraps(c: Codec, input: string)
    requires Lawful(c)
    ensures S.FreeformInput(c, WrapInput(c, input)) == input
  {
    assert c.parse(WrapInput(c, input)) == Some(Obj(map["input" := Str(input)]));
  }

  /** What the model is given of a call item it once made. */
  function ReplayedArguments(c: Codec, item: Responses.Item): string
    requires item.FunctionCall? || item.CustomCall?
  {
    if item.CustomCall? then WrapInput(c, item.input) else item.arguments
  }

  /** A call item, named from a tool name on the wire, returns under that wire
      name if and only if the name was recorded or is one of the grammar. */
  lemma ItemReplays(c: Codec, images: bool, names: Names, item: Responses.Item, wire: string)
    requires item.CustomCall? || (item.FunctionCall? && item.arguments != "")
    requires Consistent(names) && wire != "" && item.callId != "" && item.name == Decode(names, wire)
    ensures ReadItem(Config(c, images), Responses.ItemJson(item))
            == Uses(Use(item.name, item.CustomCall?), Called(item.callId, wire, ReplayedArguments(c, item)))
       <==> wire in names.decoded || WireName(wire)
  {
    WireKept(names, wire);
    if item.CustomCall? {
      CustomItemRead(c, images, item);
    } else {
      FunctionItemRead(c, images, item);
    }
  }

  lemma WireKept(names: Names, wire: string)
    requires Consistent(names) && wire != ""
    ensures Encode(Decode(names, wire)) == Some(wire) <==> wire in names.decoded || WireName(wire)
    ensures Decode(names, wire) != ""
  {
    if wire in names.decoded || WireName(wire) {
      ReplayedNameKeepsWire(names, wire);
    }
  }

  lemma FunctionItemRead(c: Codec, images: bool, item: Responses.Item)
    requires item.FunctionCall? && item.callId != "" && item.name != "" && item.arguments != ""
    ensures ReadItem(Config(c, images), Responses.ItemJson(item))
         == if Encode(item.name).None? then Refused
            else Uses(Use(item.name, false), Called(item.callId, Encode(item.name).value, item.arguments))
  {
    var json := Responses.ItemJson(item);
    assert Get(json, "type") == Some(Str("function_call"));
    assert Get(json, "arguments") == Some(Str(item.arguments));
    assert Get(json, "call_id") == Some(Str(item.callId)) && Get(json, "name") == Some(Str(item.name));
  }

  lemma CustomItemRead(c: Codec, images: bool, item: Responses.Item)
    requires item.CustomCall? && item.callId != "" && item.name != ""
    ensures ReadItem(Config(c, images), Responses.ItemJson(item))
         == if Encode(item.name).None? then Refused
            else Uses(Use(item.name, true), Called(item.callId, Encode(item.name).value, WrapInput(c, item.input)))
  {
    var json := Responses.ItemJson(item);
    assert Get(json, "type") == Some(Str("custom_tool_call"));
    assert Get(json, "input") == Some(Str(item.input));
    assert Get(json, "call_id") == Some(Str(item.callId)) && Get(json, "name") == Some(Str(item.name));
  }

  /** A name nobody declared, with a dot in it, returns under another wire
      name. */
  lemma InventedNameChanges(c: Codec, images: bool)
    ensures ReadItem(Config(c, images),
                     Responses.ItemJson(Responses.FunctionCall("", true, "c", Decode(NO_NAMES, "a.b"), "{}")))
         == Uses(Use("a.b", false), Called("c", "a__b", "{}"))
  {
    FunctionItemRead(c, images, Responses.FunctionCall("", true, "c", "a.b", "{}"));
    assert ReplaceDots("a.b") == "a__b" by {
      assert "a.b"[1..] == ".b" && ".b"[1..] == "b" && "b"[1..] == "";
    }
  }

  // ----- the calls of a whole run -----

  function CallItems(items: seq<Responses.Item>): seq<Responses.Item> {
    if items == [] then []
    else
      var item := items[|items| - 1];
      CallItems(items[..|items| - 1]) + if item.FunctionCall? || item.CustomCall? then [item] else []
  }

  /** The indices of the known calls from `i` on. */
  function KnownCalls(heard: seq<S.Delta>, i: nat): (known: seq<nat>)
    ensures forall n :: 0 <= n < |known| ==> T.Known(heard, known[n])
    decreases T.CallCount(heard) - i
  {
    if i >= T.CallCount(heard) then [] else (if T.Known(heard, i) then [i] else []) + KnownCalls(heard, i + 1)
  }

  lemma {:induction false} CallItemsAreCallsIn(items: seq<Responses.Item>)
    ensures var calls := CallItems(items);
            && |calls| == |T.CallsIn(items)|
            && forall n :: 0 <= n < |calls| ==>
                 && (calls[n].FunctionCall? || calls[n].CustomCall?)
                 && T.CallsIn(items)[n] == T.WithoutId(calls[n])
  {
    if items != [] {
      CallItemsAreCallsIn(items[..|items| - 1]);
    }
  }

  lemma {:induction false} ExpectedAreKnown(cfg: S.Config, heard: seq<S.Delta>, i: nat)
    ensures var known := KnownCalls(heard, i);
            && |T.ExpectedCalls(cfg, heard, i)| == |known|
            && forall n :: 0 <= n < |known| ==>
                 T.ExpectedCalls(cfg, heard, i)[n] == T.CallItem(cfg, heard, known[n], "")
    decreases T.CallCount(heard) - i
  {
    if i < T.CallCount(heard) {
      ExpectedAreKnown(cfg, heard, i + 1);
    }
  }

  /** A later turn's request says of call `i` what the upstream said of it: its
      id and wire name, and the arguments the client got. */
  ghost predicate Replays(cfg: S.Config, images: bool, heard: seq<S.Delta>, i: nat,
                          item: Responses.Item)
    requires item.FunctionCall? || item.CustomCall?
  {
    ReadItem(Config(cfg.codec, images), Responses.ItemJson(item))
    == Uses(Use(Decode(cfg.tools, T.FirstName(heard, i)), T.Freeform(cfg, heard, i)),
            Called(S.SanitizeIdentifier(T.FirstId(heard, i)), T.FirstName(heard, i),
                   ReplayedArguments(cfg.codec, item)))
  }

  lemma KnownCallReplays(cfg: S.Config, images: bool, heard: seq<S.Delta>, i: nat,
                         item: Responses.Item)
    requires Lawful(cfg.codec) && Consistent(cfg.tools) && T.Known(heard, i)
    requires item.FunctionCall? || item.CustomCall?
    requires T.WithoutId(item) == T.CallItem(cfg, heard, i, "")
    ensures Replays(cfg, images, heard, i, item)
       <==> T.FirstName(heard, i) in cfg.tools.decoded || WireName(T.FirstName(heard, i))
    ensures item.CustomCall? ==> S.FreeformInput(cfg.codec, ReplayedArguments(cfg.codec, item)) == item.input
  {
    T.SanitizedNotEmpty(T.FirstId(heard, i));
    ItemReplays(cfg.codec, images, cfg.tools, item, T.FirstName(heard, i));
    if item.CustomCall? {
      WrappedInputUnwraps(cfg.codec, item.input);
    }
  }

  /** The calls of a completed run are the upstream's known calls, in order.
      Replayed in the next turn's history, each reaches the model under the id
      and wire name it came with, function arguments unchanged and a free-form
      input recoverable, if and only if that wire name was handed out for a
      tool or is a name of the grammar. */
  lemma CallsReplay(cfg: S.Config, images: bool, chunks: seq<Bytes>, end: S.End,
                    response: Responses.Envelope)
    requires Lawful(cfg.codec) && Consistent(cfg.tools)
    requires Conservation.CompletedWith(S.Run(cfg, chunks, end).state.events, response)
    ensures var heard := Conservation.FramesDeltas(cfg, S.Run(cfg, chunks, end).taken);
            var calls, known := CallItems(response.output), KnownCalls(heard, 0);
            && |calls| == |known|
            && forall n :: 0 <= n < |calls| ==>
                 && (calls[n].FunctionCall? || calls[n].CustomCall?)
                 && (Replays(cfg, images, heard, known[n], calls[n])
                     <==> T.FirstName(heard, known[n]) in cfg.tools.decoded || WireName(T.FirstName(heard, known[n])))
                 && (calls[n].CustomCall? ==>
                       S.FreeformInput(cfg.codec, ReplayedArguments(cfg.codec, calls[n])) == calls[n].input)
  {
    var heard := Conservation.FramesDeltas(cfg, S.Run(cfg, chunks, end).taken);
    T.ToolCallReassembly(cfg, chunks, end, response);
    CallItemsAreCallsIn(response.output);
    ExpectedAreKnown(cfg, heard, 0);
    forall n | 0 <= n < |CallItems(response.output)|
      ensures var item, i := CallItems(response.output)[n], KnownCalls(heard, 0)[n];
              && (Replays(cfg, images, heard, i, item)
                  <==> T.FirstName(heard, i) in cfg.tools.decoded || WireName(T.FirstName(heard, i)))
              && (item.CustomCall? ==> S.FreeformInput(cfg.codec, ReplayedArguments(cfg.codec, item)) == item.input)
    {
      KnownCallReplays(cfg, images, heard, KnownCalls(heard, 0)[n], CallItems(response.output)[n]);
    }
  }
}
