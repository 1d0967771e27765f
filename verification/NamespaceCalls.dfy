/** Undoing the flattening of namespaced tool calls: `namespace.tool` in a
    replayed history becomes the pair the request advertises. */
module NamespaceCalls {
  import opened Prelude
  import opened Json

  type Pair = (string, string)

  function Flatten(pair: Pair): string { pair.0 + "." + pair.1 }

  predicate IsFunction(tool: Value) { AsStr(Get(tool, "type")) == Some("function") }

  /** Names of functions outside any namespace. */
  function StandaloneNames(tools: seq<Value>): set<string> {
    if tools == [] then {}
    else
      var name := AsStr(Get(tools[0], "name"));
      (if IsFunction(tools[0]) && name.Some? then {name.value} else {}) + StandaloneNames(tools[1..])
  }

  /** The functions of one namespace; anything malformed is skipped. */
  function PairsIn(namespace: string, nested: seq<Value>): seq<Pair>
    decreases |nested|
  {
    if nested == [] then []
    else
      var name := AsStr(Get(nested[0], "name"));
      (if IsFunction(nested[0]) && name.Some? then [(namespace, name.value)] else []) + PairsIn(namespace, nested[1..])
  }

  function PairsOf(tool: Value): seq<Pair> {
    var namespace, nested := AsStr(Get(tool, "name")), Get(tool, "tools");
    if AsStr(Get(tool, "type")) == Some("namespace") && namespace.Some? && nested.Some? && nested.value.Arr?
    then PairsIn(namespace.value, nested.value.items) else []
  }

  /** Every namespaced function a request advertises, in order. */
  function Advertised(tools: seq<Value>): seq<Pair>
    decreases |tools|
  {
    if tools == [] then [] else PairsOf(tools[0]) + Advertised(tools[1..])
  }

  type Calls = map<string, Pair>

  function AddPair(standalone: set<string>, calls: Calls, pair: Pair): Option<Calls> {
    var flat := Flatten(pair);
    if flat in standalone then None
    else if flat in calls && calls[flat] != pair then None
    else Some(calls[flat := pair])
  }

  function AddPairs(standalone: set<string>, calls: Calls, pairs: seq<Pair>): Option<Calls>
    decreases |pairs|
  {
    if pairs == [] then Some(calls)
    else
      match AddPair(standalone, calls, pairs[0])
      case None => None
      case Some(next) => AddPairs(standalone, next, pairs[1..])
  }

  function Collect(tools: seq<Value>): Option<Calls> { AddPairs(StandaloneNames(tools), map[], Advertised(tools)) }

  // ----- the loops -----

  lemma {:induction false} AddPairsAppend(standalone: set<string>, calls: Calls, a: seq<Pair>, b: seq<Pair>)
    ensures AddPairs(standalone, calls, a + b)
         == match AddPairs(standalone, calls, a) case None => None case Some(next) => AddPairs(standalone, next, b)
    decreases |a|
  {
    if a == [] {
      assert a + b == b;
    } else {
      assert (a + b)[0] == a[0] && (a + b)[1..] == a[1..] + b;
      var next := AddPair(standalone, calls, a[0]);
      if next.Some? {
        AddPairsAppend(standalone, next.value, a[1..], b);
      }
    }
  }

  method CollectNamespace(standalone: set<string>, before: Calls, namespace: string, nested: seq<Value>)
    returns (r: Option<Calls>)
    ensures r == AddPairs(standalone, before, PairsIn(namespace, nested))
  {
    var calls := before;
    for i := 0 to |nested|
      invariant AddPairs(standalone, calls, PairsIn(namespace, nested[i..]))
                == AddPairs(standalone, before, PairsIn(namespace, nested))
    {
      assert nested[i..][0] == nested[i] && nested[i..][1..] == nested[i + 1..];
      var name := AsStr(Get(nested[i], "name"));
      if !IsFunction(nested[i]) || name.None? {
        assert [] + PairsIn(namespace, nested[i + 1..]) == PairsIn(namespace, nested[i + 1..]);
        continue;
      }
      var split: Pair := (namespace, name.value);
      assert ([split] + PairsIn(namespace, nested[i + 1..]))[1..] == PairsIn(namespace, nested[i + 1..]);
      var flat := Flatten(split);
      if flat in standalone {
        return None;
      }
      if flat in calls && calls[flat] != split {
        return None;
      }
      calls := calls[flat := split];
    }
    return Some(calls);
  }

  method CollectNamespaceCalls(tools: seq<Value>) returns (r: Option<Calls>)
    ensures r == Collect(tools)
  {
    var standalone := StandaloneNames(tools);
    var calls: Calls := map[];
    for i := 0 to |tools|
      invariant AddPairs(standalone, calls, Advertised(tools[i..])) == Collect(tools)
    {
      assert tools[i..][0] == tools[i] && tools[i..][1..] == tools[i + 1..];
      AddPairsAppend(standalone, calls, PairsOf(tools[i]), Advertised(tools[i + 1..]));
      var namespace, nested := AsStr(Get(tools[i], "name")), Get(tools[i], "tools");
      if AsStr(Get(tools[i], "type")) != Some("namespace") || namespace.None? || nested.None? || !nested.value.Arr? {
        continue;
      }
      var more := CollectNamespace(standalone, calls, namespace.value, nested.value.items);
      if more.None? {
        return None;
      }
      calls := more.value;
    }
    return Some(calls);
  }

  // ----- when collecting fails, and what the map means -----

  /** No advertised pair flattens like another, or like a standalone function. */
  ghost predicate Unambiguous(standalone: set<string>, calls: Calls, pairs: seq<Pair>) {
    && (forall i :: 0 <= i < |pairs| ==>
          Flatten(pairs[i]) !in standalone && (Flatten(pairs[i]) in calls ==> calls[Flatten(pairs[i])] == pairs[i]))
    && (forall i, j :: 0 <= i < j < |pairs| && Flatten(pairs[i]) == Flatten(pairs[j]) ==> pairs[i] == pairs[j])
  }

  lemma UnambiguousStep(standalone: set<string>, calls: Calls, pairs: seq<Pair>, next: Calls)
    requires pairs != [] && AddPair(standalone, calls, pairs[0]) == Some(next)
    ensures Unambiguous(standalone, calls, pairs) <==> Unambiguous(standalone, next, pairs[1..])
  {
    var rest := pairs[1..];
    assert forall i :: 0 <= i < |rest| ==> rest[i] == pairs[i + 1];
    if Unambiguous(standalone, next, rest) {
      forall i | 0 <= i < |pairs|
        ensures Flatten(pairs[i]) !in standalone
                && (Flatten(pairs[i]) in calls ==> calls[Flatten(pairs[i])] == pairs[i])
      {
        if i > 0 {
          assert pairs[i] == rest[i - 1];
        }
      }
      forall i, j | 0 <= i < j < |pairs| && Flatten(pairs[i]) == Flatten(pairs[j])
        ensures pairs[i] == pairs[j]
      {
        assert pairs[j] == rest[j - 1];
        if i > 0 {
          assert pairs[i] == rest[i - 1];
        }
      }
    }
    if Unambiguous(standalone, calls, pairs) {
      forall i | 0 <= i < |rest|
        ensures Flatten(rest[i]) !in standalone && (Flatten(rest[i]) in next ==> next[Flatten(rest[i])] == rest[i])
      {
        assert Flatten(pairs[0]) == Flatten(pairs[i + 1]) ==> pairs[0] == pairs[i + 1];
      }
    }
  }

  lemma {:induction false} CollectingSucceeds(standalone: set<string>, calls: Calls, pairs: seq<Pair>)
    ensures AddPairs(standalone, calls, pairs).Some? <==> Unambiguous(standalone, calls, pairs)
    decreases |pairs|
  {
    if pairs != [] {
      var next := AddPair(standalone, calls, pairs[0]);
      if next.Some? {
        UnambiguousStep(standalone, calls, pairs, next.value);
        CollectingSucceeds(standalone, next.value, pairs[1..]);
      } else {
        assert !Unambiguous(standalone, calls, pairs);
      }
    }
  }

  lemma {:induction false} CollectedPairs(standalone: set<string>, calls: Calls, pairs: seq<Pair>)
    requires AddPairs(standalone, calls, pairs).Some?
    requires forall flat :: flat in calls ==> Flatten(calls[flat]) == flat
    ensures var after := AddPairs(standalone, calls, pairs).value;
            && (forall flat :: flat in after ==> Flatten(after[flat]) == flat)
            && (forall flat :: flat in calls ==> flat in after && after[flat] == calls[flat])
            && (forall pair :: pair in pairs ==> Flatten(pair) in after && after[Flatten(pair)] == pair)
            && (forall flat :: flat in after ==> flat in calls || after[flat] in pairs)
    decreases |pairs|
  {
    if pairs != [] {
      var next := AddPair(standalone, calls, pairs[0]).value;
      CollectedPairs(standalone, next, pairs[1..]);
      assert forall pair :: pair in pairs ==> pair == pairs[0] || pair in pairs[1..];
    }
  }

  /** Collecting fails exactly when two distinct advertised pairs, or a pair
      and a standalone function, share a flattened name. On success the map
      undoes flattening for exactly the advertised pairs. */
  lemma CollectInvertsFlattening(tools: seq<Value>)
    ensures Collect(tools).Some? <==> Unambiguous(StandaloneNames(tools), map[], Advertised(tools))
    ensures Collect(tools).Some? ==>
              && (forall pair :: pair in Advertised(tools) ==>
                    var flat := pair.0 + "." + pair.1;
                    flat in Collect(tools).value && Collect(tools).value[flat] == pair)
              && (forall flat :: flat in Collect(tools).value ==>
                    var pair := Collect(tools).value[flat];
                    pair in Advertised(tools) && pair.0 + "." + pair.1 == flat)
  {
    CollectingSucceeds(StandaloneNames(tools), map[], Advertised(tools));
    if Collect(tools).Some? {
      CollectedPairs(StandaloneNames(tools), map[], Advertised(tools));
    }
  }

  // ----- what is advertised -----

  /** Element `i` is a function named `name`. */
  predicate FunctionAt(tools: seq<Value>, i: nat, name: string) {
    && i < |tools| && AsStr(Get(tools[i], "type")) == Some("function") && AsStr(Get(tools[i], "name")) == Some(name)
  }

  /** Element `i` is a namespace of that name with a list of tools. */
  predicate NamespaceAt(tools: seq<Value>, i: nat, name: string) {
    && i < |tools| && AsStr(Get(tools[i], "type")) == Some("namespace") && AsStr(Get(tools[i], "name")) == Some(name)
    && Get(tools[i], "tools").Some? && Get(tools[i], "tools").value.Arr?
  }

  lemma {:induction false} NestedPairs(namespace: string, nested: seq<Value>, pair: Pair)
    ensures pair in PairsIn(namespace, nested)
       <==> pair.0 == namespace && exists j: nat :: FunctionAt(nested, j, pair.1)
    decreases |nested|
  {
    if nested != [] {
      var rest := nested[1..];
      NestedPairs(namespace, rest, pair);
      forall j: nat
        ensures FunctionAt(nested, j + 1, pair.1) <==> FunctionAt(rest, j, pair.1)
      {
      }
      if pair.0 == namespace {
        if j: nat :| FunctionAt(nested, j, pair.1) {
          assert j > 0 ==> FunctionAt(rest, j - 1, pair.1);
        }
        if FunctionAt(nested, 0, pair.1) {
          assert pair == (namespace, pair.1);
        }
      }
    }
  }

  /** The pairs of the namespaces' functions are advertised, and no others. */
  lemma {:induction false} AdvertisedExactly(tools: seq<Value>, pair: Pair)
    ensures pair in Advertised(tools)
       <==> exists i: nat, j: nat | NamespaceAt(tools, i, pair.0) ::
              FunctionAt(Get(tools[i], "tools").value.items, j, pair.1)
    decreases |tools|
  {
    if tools != [] {
      var rest := tools[1..];
      AdvertisedExactly(rest, pair);
      ToolPairs(tools[0], pair);
      assert pair in Advertised(tools) <==> pair in PairsOf(tools[0]) || pair in Advertised(rest);
      if i: nat, j: nat :| NamespaceAt(rest, i, pair.0) && FunctionAt(Get(rest[i], "tools").value.items, j, pair.1) {
        assert NamespaceAt(tools, i + 1, pair.0);
      }
      if i: nat, j: nat :| NamespaceAt(tools, i, pair.0) && FunctionAt(Get(tools[i], "tools").value.items, j, pair.1) {
        if i > 0 {
          assert NamespaceAt(rest, i - 1, pair.0);
        } else {
          assert NamespaceAt([tools[0]], 0, pair.0);
        }
      }
      if j: nat :| NamespaceAt([tools[0]], 0, pair.0) && FunctionAt(Get(tools[0], "tools").value.items, j, pair.1) {
        assert NamespaceAt(tools, 0, pair.0);
      }
    }
  }

  lemma ToolPairs(tool: Value, pair: Pair)
    ensures pair in PairsOf(tool)
       <==> NamespaceAt([tool], 0, pair.0)
            && exists j: nat :: FunctionAt(Get(tool, "tools").value.items, j, pair.1)
  {
    var namespace, nested := AsStr(Get(tool, "name")), Get(tool, "tools");
    if namespace.Some? && nested.Some? && nested.value.Arr? {
      NestedPairs(namespace.value, nested.value.items, pair);
    }
  }

  /** The standalone names are those of the functions outside namespaces. */
  lemma {:induction false} StandaloneExactly(tools: seq<Value>, name: string)
    ensures name in StandaloneNames(tools) <==> exists i: nat :: FunctionAt(tools, i, name)
  {
    if tools != [] {
      var rest := tools[1..];
      StandaloneExactly(rest, name);
      forall i: nat
        ensures FunctionAt(tools, i + 1, name) <==> FunctionAt(rest, i, name)
      {
      }
      if i: nat :| FunctionAt(tools, i, name) {
        assert i > 0 ==> FunctionAt(rest, i - 1, name);
      }
      if FunctionAt([tools[0]], 0, name) {
        assert FunctionAt(tools, 0, name);
      }
    }
  }

  // ----- replayed calls -----

  /** A replayed function call gets its namespace back; everything else is left
      as it is. */
  function SplitCall(calls: Calls, item: Value): Value {
    var name := AsStr(Get(item, "name"));
    if item.Obj? && IsCall(item) && Get(item, "namespace").None? && name.Some? && name.value in calls then
      var (namespace, tool) := calls[name.value];
      Obj(item.fields["namespace" := Str(namespace)]["name" := Str(tool)])
    else item
  }

  predicate IsCall(item: Value) { AsStr(Get(item, "type")) == Some("function_call") }

  /** The call as stock Muse records it. */
  function Recorded(item: Value): Value
    requires item.Obj? && AsStr(Get(item, "namespace")).Some? && AsStr(Get(item, "name")).Some?
  {
    Obj((item.fields - {"namespace"})["name" := Str(item.fields["namespace"].s + "." + item.fields["name"].s)])
  }

  /** Recording a call to an advertised tool and splitting it again gives the
      call back. */
  lemma SplitUndoesRecording(tools: seq<Value>, item: Value)
    requires Collect(tools).Some? && item.Obj? && AsStr(Get(item, "type")) == Some("function_call")
    requires AsStr(Get(item, "namespace")).Some? && AsStr(Get(item, "name")).Some?
    requires (item.fields["namespace"].s, item.fields["name"].s) in Advertised(tools)
    ensures SplitCall(Collect(tools).value, Recorded(item)) == item
  {
    var namespace, name := item.fields["namespace"].s, item.fields["name"].s;
    CollectInvertsFlattening(tools);
    var recorded := Recorded(item);
    var flat := namespace + "." + name;
    assert Get(recorded, "type") == Get(item, "type") by {
      assert "type" != "name" && "type" != "namespace" by { assert "type"[0] != "name"[0]; }
    }
    assert Get(recorded, "name") == Some(Str(flat)) && Get(recorded, "namespace").None?;
    assert recorded.fields["namespace" := Str(namespace)]["name" := Str(name)] == item.fields;
  }

  /** Calls with any other name pass unchanged, dotted or not. */
  lemma OtherCallsPass(tools: seq<Value>, item: Value)
    requires Collect(tools).Some?
    requires forall pair :: pair in Advertised(tools) ==> AsStr(Get(item, "name")) != Some(pair.0 + "." + pair.1)
    ensures SplitCall(Collect(tools).value, item) == item
  {
    CollectInvertsFlattening(tools);
  }

  /** So does everything that is no function call, or has a namespace. */
  lemma OthersPass(calls: Calls, item: Value)
    requires AsStr(Get(item, "type")) != Some("function_call") || Get(item, "namespace").Some?
    ensures SplitCall(calls, item) == item
  {
  }
}
