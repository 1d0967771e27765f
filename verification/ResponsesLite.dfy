/** Grouping tools for Responses Lite: hosted tools go, function tools gather in
    one `functions` namespace where the first of them stood. */
module ResponsesLite {
  import opened Prelude
  import opened Json

  predicate Hosted(kind: string) {
    kind in {"web_search", "web_search_preview", "file_search", "computer_use", "computer_use_preview",
             "code_interpreter", "image_generation"}
  }

  /** What grouping makes of one tool. */
  datatype Role =
    | Dropped
    | Function
    | Namespace(description: Option<string>, nested: seq<Value>)
    | Kept
    | Malformed

  /** `empty` tells whether a text is white space only. */
  function RoleOf(empty: string -> bool, tool: Value): Role {
    match AsStr(Get(tool, "type"))
    case None => Malformed
    case Some(kind) =>
      if Hosted(kind) then Dropped
      else if kind == "function" || kind == "custom" then Function
      else if kind == "namespace" && AsStr(Get(tool, "name")) == Some("functions") then
        var description, nested := AsStr(Get(tool, "description")), Get(tool, "tools");
        if nested.None? || !nested.value.Arr? then Malformed
        else Namespace(if description.Some? && !empty(description.value) then description else None, nested.value.items)
      else Kept
  }

  /** The grouping so far; `at` is where the namespace will stand. */
  datatype Grouping = Grouping(functions: seq<Value>, description: string, at: Option<nat>, grouped: seq<Value>)

  const NOTHING := Grouping([], "", None, [])

  function Placed(g: Grouping): Option<nat> { if g.at.Some? then g.at else Some(|g.grouped|) }

  function TakeRole(g: Grouping, tool: Value, role: Role): Option<Grouping> {
    match role
    case Malformed => None
    case Dropped => Some(g)
    case Function => Some(g.(at := Placed(g), functions := g.functions + [tool]))
    case Namespace(description, nested) =>
      Some(g.(at := Placed(g), functions := g.functions + nested,
              description := if description.Some? then description.value else g.description))
    case Kept => Some(g.(grouped := g.grouped + [tool]))
  }

  function TakeAll(empty: string -> bool, g: Grouping, tools: seq<Value>): Option<Grouping>
    decreases |tools|
  {
    if tools == [] then Some(g)
    else
      match TakeRole(g, tools[0], RoleOf(empty, tools[0]))
      case None => None
      case Some(next) => TakeAll(empty, next, tools[1..])
  }

  function FunctionsNamespace(description: string, functions: seq<Value>): Value {
    Obj(map["type" := Str("namespace"), "name" := Str("functions"), "description" := Str(description),
            "tools" := Arr(functions)])
  }

  function Finish(g: Grouping): seq<Value>
    requires g.at.Some? ==> g.at.value <= |g.grouped|
  {
    if g.at.Some? && g.functions != [] then
      g.grouped[..g.at.value] + [FunctionsNamespace(g.description, g.functions)] + g.grouped[g.at.value..]
    else g.grouped
  }

  method GroupTools(empty: string -> bool, tools: seq<Value>) returns (r: Option<seq<Value>>)
    ensures r == Group(empty, tools)
  {
    var functions: seq<Value>, description, at: Option<nat>, grouped: seq<Value> := [], "", None, [];
    for i := 0 to |tools|
      invariant at.Some? ==> at.value <= |grouped|
      invariant TakeAll(empty, Grouping(functions, description, at, grouped), tools[i..])
                == TakeAll(empty, NOTHING, tools)
    {
      assert tools[i..][0] == tools[i] && tools[i..][1..] == tools[i + 1..];
      match RoleOf(empty, tools[i]) {
        case Malformed => return None;
        case Dropped =>
        case Function =>
          if at.None? {
            at := Some(|grouped|);
          }
          functions := functions + [tools[i]];
        case Namespace(text, nested) =>
          if at.None? {
            at := Some(|grouped|);
          }
          if text.Some? {
            description := text.value;
          }
          functions := functions + nested;
        case Kept => grouped := grouped + [tools[i]];
      }
    }
    if at.Some? && functions != [] {
      grouped := grouped[..at.value] + [FunctionsNamespace(description, functions)] + grouped[at.value..];
    }
    return Some(grouped);
  }

  lemma {:induction false} PlaceStaysInside(empty: string -> bool, g: Grouping, tools: seq<Value>)
    requires g.at.Some? ==> g.at.value <= |g.grouped|
    ensures var r := TakeAll(empty, g, tools); r.Some? && r.value.at.Some? ==> r.value.at.value <= |r.value.grouped|
    decreases |tools|
  {
    if tools != [] {
      var next := TakeRole(g, tools[0], RoleOf(empty, tools[0]));
      if next.Some? {
        PlaceStaysInside(empty, next.value, tools[1..]);
      }
    }
  }

  function Group(empty: string -> bool, tools: seq<Value>): Option<seq<Value>> {
    PlaceStaysInside(empty, NOTHING, tools);
    match TakeAll(empty, NOTHING, tools)
    case None => None
    case Some(g) => Some(Finish(g))
  }

  // ----- the result, described without the loop -----

  /** The tools that stay as they are, in order. */
  function Others(empty: string -> bool, tools: seq<Value>): seq<Value>
    decreases |tools|
  {
    if tools == [] then []
    else (if RoleOf(empty, tools[0]).Kept? then [tools[0]] else []) + Others(empty, tools[1..])
  }

  function FunctionsIn(tool: Value, role: Role): seq<Value> {
    match role
    case Function => [tool]
    case Namespace(_, nested) => nested
    case _ => []
  }

  /** Function and custom tools and those already in the namespace, in order. */
  function Functions(empty: string -> bool, tools: seq<Value>): seq<Value>
    decreases |tools|
  {
    if tools == [] then [] else FunctionsIn(tools[0], RoleOf(empty, tools[0])) + Functions(empty, tools[1..])
  }

  predicate FunctionLike(role: Role) { role.Function? || role.Namespace? }

  /** How many tools that stay come before the first function-like one. */
  function Before(empty: string -> bool, tools: seq<Value>): nat
    decreases |tools|
  {
    if tools == [] || FunctionLike(RoleOf(empty, tools[0])) then 0
    else (if RoleOf(empty, tools[0]).Kept? then 1 else 0) + Before(empty, tools[1..])
  }

  predicate HasFunctionLike(empty: string -> bool, tools: seq<Value>)
    decreases |tools|
  {
    tools != [] && (FunctionLike(RoleOf(empty, tools[0])) || HasFunctionLike(empty, tools[1..]))
  }

  /** The last description given to a `functions` namespace. */
  function Described(empty: string -> bool, otherwise: string, tools: seq<Value>): string
    decreases |tools|
  {
    if tools == [] then otherwise
    else
      var role := RoleOf(empty, tools[0]);
      Described(empty, if role.Namespace? && role.description.Some? then role.description.value else otherwise,
                tools[1..])
  }

  predicate WellFormed(empty: string -> bool, tools: seq<Value>)
    decreases |tools|
  {
    tools == [] || (!RoleOf(empty, tools[0]).Malformed? && WellFormed(empty, tools[1..]))
  }

  lemma Shift<T>(a: seq<T>, b: seq<T>, c: seq<T>)
    ensures (a + b) + c == a + (b + c)
  {
  }

  lemma {:induction false} TakenPlace(empty: string -> bool, g: Grouping, tools: seq<Value>)
    requires TakeAll(empty, g, tools).Some?
    ensures TakeAll(empty, g, tools).value.at
         == if g.at.Some? then g.at
            else if HasFunctionLike(empty, tools) then Some(|g.grouped| + Before(empty, tools)) else None
    decreases |tools|
  {
    if tools != [] {
      TakenPlace(empty, TakeRole(g, tools[0], RoleOf(empty, tools[0])).value, tools[1..]);
    }
  }

  lemma {:induction false} TakenAll(empty: string -> bool, g: Grouping, tools: seq<Value>)
    ensures TakeAll(empty, g, tools).Some? <==> WellFormed(empty, tools)
    ensures var r := TakeAll(empty, g, tools);
            r.Some? ==>
              && r.value.functions == g.functions + Functions(empty, tools)
              && r.value.grouped == g.grouped + Others(empty, tools)
              && r.value.description == Described(empty, g.description, tools)
    decreases |tools|
  {
    if tools == [] {
      assert g.functions + [] == g.functions && g.grouped + [] == g.grouped;
    } else {
      var role := RoleOf(empty, tools[0]);
      var next := TakeRole(g, tools[0], role);
      if next.Some? {
        TakenAll(empty, next.value, tools[1..]);
        Shift(g.functions, FunctionsIn(tools[0], role), Functions(empty, tools[1..]));
        Shift(g.grouped, if role.Kept? then [tools[0]] else [], Others(empty, tools[1..]));
        assert g.functions + [] == g.functions && g.grouped + [] == g.grouped;
      }
    }
  }

  lemma {:induction false} BeforeWithin(empty: string -> bool, tools: seq<Value>)
    ensures Before(empty, tools) <= |Others(empty, tools)|
    decreases |tools|
  {
    if tools != [] {
      BeforeWithin(empty, tools[1..]);
    }
  }

  lemma {:induction false} FunctionsAreFunctionLike(empty: string -> bool, tools: seq<Value>)
    ensures Functions(empty, tools) != [] ==> HasFunctionLike(empty, tools)
    decreases |tools|
  {
    if tools != [] {
      FunctionsAreFunctionLike(empty, tools[1..]);
    }
  }

  /** Grouping keeps every other tool in order and puts all functions, in order,
      in one namespace where the first function-like tool stood; it fails
      exactly when a tool has no type or a `functions` namespace no list. */
  lemma GroupIsPartition(empty: string -> bool, tools: seq<Value>)
    ensures Group(empty, tools).Some? <==> WellFormed(empty, tools)
    ensures Before(empty, tools) <= |Others(empty, tools)|
    ensures Group(empty, tools).Some? ==>
              var others, functions, n := Others(empty, tools), Functions(empty, tools), Before(empty, tools);
              Group(empty, tools).value
              == if functions == [] then others
                 else others[..n] + [FunctionsNamespace(Described(empty, "", tools), functions)] + others[n..]
  {
    TakenAll(empty, NOTHING, tools);
    if TakeAll(empty, NOTHING, tools).Some? {
      TakenPlace(empty, NOTHING, tools);
    }
    BeforeWithin(empty, tools);
    FunctionsAreFunctionLike(empty, tools);
    assert [] + Functions(empty, tools) == Functions(empty, tools);
    assert [] + Others(empty, tools) == Others(empty, tools);
  }

  // ----- grouping twice -----

  predicate AllKept(empty: string -> bool, tools: seq<Value>) {
    forall i :: 0 <= i < |tools| ==> RoleOf(empty, tools[i]).Kept?
  }

  lemma {:induction false} OthersAreKept(empty: string -> bool, tools: seq<Value>)
    ensures AllKept(empty, Others(empty, tools))
    decreases |tools|
  {
    if tools != [] {
      OthersAreKept(empty, tools[1..]);
    }
  }

  /** Tools that stay just join the list. */
  lemma {:induction false} TakeKept(empty: string -> bool, g: Grouping, kept: seq<Value>, rest: seq<Value>)
    requires AllKept(empty, kept)
    ensures TakeAll(empty, g, kept + rest) == TakeAll(empty, g.(grouped := g.grouped + kept), rest)
    decreases |kept|
  {
    if kept == [] {
      assert kept + rest == rest && g.grouped + [] == g.grouped;
    } else {
      assert (kept + rest)[0] == kept[0] && (kept + rest)[1..] == kept[1..] + rest;
      TakeKept(empty, g.(grouped := g.grouped + [kept[0]]), kept[1..], rest);
      assert (g.grouped + [kept[0]]) + kept[1..] == g.grouped + kept;
    }
  }

  lemma {:induction false} DescriptionIsGiven(empty: string -> bool, otherwise: string, tools: seq<Value>)
    ensures Described(empty, otherwise, tools) == otherwise || !empty(Described(empty, otherwise, tools))
    decreases |tools|
  {
    if tools != [] {
      var role := RoleOf(empty, tools[0]);
      DescriptionIsGiven(empty, if role.Namespace? && role.description.Some? then role.description.value else otherwise,
                         tools[1..]);
    }
  }

  lemma NamespaceRole(empty: string -> bool, description: string, functions: seq<Value>)
    ensures RoleOf(empty, FunctionsNamespace(description, functions))
         == Namespace(if empty(description) then None else Some(description), functions)
  {
    var tool := FunctionsNamespace(description, functions);
    assert AsStr(Get(tool, "type")) == Some("namespace") && AsStr(Get(tool, "name")) == Some("functions");
    assert AsStr(Get(tool, "description")) == Some(description) && Get(tool, "tools") == Some(Arr(functions));
  }

  lemma RegroupedNamespace(empty: string -> bool, before: seq<Value>, description: string, functions: seq<Value>,
                           after: seq<Value>)
    requires AllKept(empty, before) && AllKept(empty, after) && functions != []
    requires empty("") && (description == "" || !empty(description))
    ensures var tools := before + [FunctionsNamespace(description, functions)] + after;
            Group(empty, tools) == Some(tools)
  {
    var tool := FunctionsNamespace(description, functions);
    assert before + [tool] + after == before + ([tool] + after);
    TakeKept(empty, NOTHING, before, [tool] + after);
    NamespaceRole(empty, description, functions);
    assert ([tool] + after)[1..] == after;
    var first := NOTHING.(grouped := [] + before);
    var next := TakeRole(first, tool, RoleOf(empty, tool)).value;
    TakeKept(empty, next, after, []);
    assert after + [] == after && [] + before == before && [] + functions == functions;
    assert (before + after)[..|before|] == before && (before + after)[|before|..] == after;
  }

  /** Grouping a grouped list changes nothing. */
  lemma GroupTwice(empty: string -> bool, tools: seq<Value>)
    requires empty("") && Group(empty, tools).Some?
    ensures Group(empty, Group(empty, tools).value) == Group(empty, tools)
  {
    var others, functions, n := Others(empty, tools), Functions(empty, tools), Before(empty, tools);
    GroupIsPartition(empty, tools);
    OthersAreKept(empty, tools);
    if functions == [] {
      assert others + [] == others && [] + others == others;
      TakeKept(empty, NOTHING, others, []);
    } else {
      DescriptionIsGiven(empty, "", tools);
      RegroupedNamespace(empty, others[..n], Described(empty, "", tools), functions, others[n..]);
    }
  }

  // ----- the result by the tools' own members -----

  predicate Typed(tool: Value, kind: string) { AsStr(Get(tool, "type")) == Some(kind) }

  predicate HostedTool(tool: Value) {
    Typed(tool, "web_search") || Typed(tool, "web_search_preview") || Typed(tool, "file_search")
    || Typed(tool, "computer_use") || Typed(tool, "computer_use_preview") || Typed(tool, "code_interpreter")
    || Typed(tool, "image_generation")
  }

  /** The namespace that gathers functions. */
  predicate Gathers(tool: Value) { Typed(tool, "namespace") && AsStr(Get(tool, "name")) == Some("functions") }

  predicate Callable(tool: Value) { Typed(tool, "function") || Typed(tool, "custom") || Gathers(tool) }

  /** A tool with a type, and a gathering namespace with a list. */
  predicate WellTyped(tool: Value) {
    && AsStr(Get(tool, "type")).Some?
    && (Gathers(tool) ==> Get(tool, "tools").Some? && Get(tool, "tools").value.Arr?)
  }

  predicate Stays(tool: Value) { AsStr(Get(tool, "type")).Some? && !HostedTool(tool) && !Callable(tool) }

  function Staying(tools: seq<Value>): seq<Value> {
    if tools == [] then [] else (if Stays(tools[0]) then [tools[0]] else []) + Staying(tools[1..])
  }

  /** The functions a tool stands for: itself, or those it gathers. */
  function FunctionsOf(tool: Value): seq<Value> {
    if Gathers(tool) && Get(tool, "tools").Some? && Get(tool, "tools").value.Arr? then Get(tool, "tools").value.items
    else if Callable(tool) && !Gathers(tool) then [tool]
    else []
  }

  function AllFunctions(tools: seq<Value>): seq<Value> {
    if tools == [] then [] else FunctionsOf(tools[0]) + AllFunctions(tools[1..])
  }

  /** How many tools stay before the first callable one. */
  function StayingFirst(tools: seq<Value>): nat {
    if tools == [] || Callable(tools[0]) then 0 else (if Stays(tools[0]) then 1 else 0) + StayingFirst(tools[1..])
  }

  /** The last description, not blank, of a gathering namespace. */
  function LastDescription(empty: string -> bool, otherwise: string, tools: seq<Value>): string
    decreases |tools|
  {
    if tools == [] then otherwise
    else
      var text := AsStr(Get(tools[0], "description"));
      var gives := Gathers(tools[0]) && text.Some? && !empty(text.value);
      LastDescription(empty, if gives then text.value else otherwise, tools[1..])
  }

  lemma HostedByPlace(tool: Value)
    requires AsStr(Get(tool, "type")).Some?
    ensures Hosted(AsStr(Get(tool, "type")).value) <==> HostedTool(tool)
    ensures HostedTool(tool) ==> !Callable(tool)
  {
  }

  lemma RoleByPlace(empty: string -> bool, tool: Value)
    ensures var role := RoleOf(empty, tool);
            && (!role.Malformed? <==> WellTyped(tool)) && (role.Kept? <==> Stays(tool))
            && (WellTyped(tool) ==>
                  (FunctionLike(role) <==> Callable(tool)) && FunctionsIn(tool, role) == FunctionsOf(tool))
            && (WellTyped(tool) ==> (role.Namespace? <==> Gathers(tool)))
            && (role.Namespace? ==>
                  var text := AsStr(Get(tool, "description"));
                  role.description == if text.Some? && !empty(text.value) then text else None)
  {
    if AsStr(Get(tool, "type")).Some? {
      HostedByPlace(tool);
    }
  }

  lemma {:induction false} ListByPlace(empty: string -> bool, otherwise: string, tools: seq<Value>)
    ensures WellFormed(empty, tools) <==> forall i :: 0 <= i < |tools| ==> WellTyped(tools[i])
    ensures WellFormed(empty, tools) ==>
              && Others(empty, tools) == Staying(tools) && Functions(empty, tools) == AllFunctions(tools)
              && Before(empty, tools) == StayingFirst(tools)
              && Described(empty, otherwise, tools) == LastDescription(empty, otherwise, tools)
    decreases |tools|
  {
    if tools != [] {
      var text := AsStr(Get(tools[0], "description"));
      var gives := Gathers(tools[0]) && text.Some? && !empty(text.value);
      RoleByPlace(empty, tools[0]);
      ListByPlace(empty, if gives then text.value else otherwise, tools[1..]);
      assert forall i :: 0 <= i < |tools[1..]| ==> tools[1..][i] == tools[i + 1];
      if forall i :: 0 <= i < |tools[1..]| ==> WellTyped(tools[1..][i]) {
        assert forall i :: 0 < i < |tools| ==> tools[i] == tools[1..][i - 1];
      }
    }
  }

  /** The one namespace that gathers the functions. */
  predicate GathersAll(tool: Value, description: string, functions: seq<Value>) {
    && tool.Obj? && tool.fields.Keys == {"type", "name", "description", "tools"}
    && Typed(tool, "namespace") && Get(tool, "name") == Some(Str("functions"))
    && Get(tool, "description") == Some(Str(description)) && Get(tool, "tools") == Some(Arr(functions))
  }

  lemma NamespaceGathers(description: string, functions: seq<Value>)
    ensures GathersAll(FunctionsNamespace(description, functions), description, functions)
  {
  }

  /** Grouping succeeds exactly when every tool is well typed. Hosted tools then
      are gone, functions stand in one namespace where the first callable tool
      stood, and every other tool stays in its order. */
  lemma GroupByPlace(empty: string -> bool, tools: seq<Value>)
    ensures Group(empty, tools).Some? <==> forall i :: 0 <= i < |tools| ==> WellTyped(tools[i])
    ensures StayingFirst(tools) <= |Staying(tools)| || Group(empty, tools).None?
    ensures Group(empty, tools).Some? ==>
              var r, others, n, functions :=
                Group(empty, tools).value, Staying(tools), StayingFirst(tools), AllFunctions(tools);
              if functions == [] then r == others
              else
                && |r| == |others| + 1 && r[..n] == others[..n] && r[n + 1..] == others[n..]
                && GathersAll(r[n], LastDescription(empty, "", tools), functions)
  {
    GroupIsPartition(empty, tools);
    ListByPlace(empty, "", tools);
    NamespaceGathers(Described(empty, "", tools), Functions(empty, tools));
  }
}
