/** What the Z.ai wire says, by the places of its JSON, whoever reads it. */
module Upstream {
  import opened Prelude
  import opened Json
  import opened Synthesizer

  // ----- where a chunk keeps what it says -----

  /** The one choice a chunk is read for. */
  function Choice(v: Value): Option<Value> { ItemAt(Get(v, "choices"), 0) }

  /** A chunk that reports an error says nothing else. */
  predicate Reports(v: Value) { Get(v, "error").Some? && Get(v, "error") != Some(Null) }

  function ReasoningOf(v: Value): string { TextOf(At(At(Choice(v), "delta"), "reasoning_content")) }

  function ContentOf(v: Value): string { TextOf(At(At(Choice(v), "delta"), "content")) }

  function FinishOf(v: Value): string { TextOf(At(Choice(v), "finish_reason")) }

  /** The provider's own words for an error, if it has any. */
  function ReportOf(v: Value): string {
    var message := AsStr(At(Get(v, "error"), "message"));
    if message.Some? then message.value else "the Z.ai stream reported an error"
  }

  /** What element `i` of a chunk's `tool_calls` says. */
  function CallAt(v: Value, i: nat): Fragment {
    var call := ItemAt(At(At(Choice(v), "delta"), "tool_calls"), i);
    var index := AsU64(At(call, "index"));
    Fragment(if index.Some? then index.value else 0, TextOf(At(call, "id")),
             TextOf(At(At(call, "function"), "name")), TextOf(At(At(call, "function"), "arguments")))
  }

  function CallsFrom(v: Value, i: nat): seq<Fragment>
    decreases CallTotal(v) - i
  {
    if i >= CallTotal(v) then [] else [CallAt(v, i)] + CallsFrom(v, i + 1)
  }

  function CallTotal(v: Value): nat {
    var calls := At(At(Choice(v), "delta"), "tool_calls");
    if calls.Some? && calls.value.Arr? then |calls.value.items| else 0
  }

  /** The reader of chunks finds each thing in its place. */
  lemma ChunkRead(v: Value)
    ensures var chunk := ReadChunk(v);
            && chunk.error == (if Reports(v) then Some(ReportOf(v)) else None)
            && chunk.id == TextOf(Get(v, "id")) && chunk.model == TextOf(Get(v, "model"))
            && chunk.reasoning == ReasoningOf(v) && chunk.content == ContentOf(v) && chunk.finish == FinishOf(v)
            && chunk.calls == CallsFrom(v, 0)
  {
    CallsRead(v, 0);
    assert ReadChunk(v).calls[0..] == ReadChunk(v).calls;
  }

  lemma CallRead(v: Value, i: nat)
    requires i < |ReadChunk(v).calls|
    ensures |ReadChunk(v).calls| == CallTotal(v) && ReadChunk(v).calls[i] == CallAt(v, i)
  {
  }

  lemma {:induction false} CallsRead(v: Value, i: nat)
    requires i <= |ReadChunk(v).calls|
    ensures |ReadChunk(v).calls| == CallTotal(v) && ReadChunk(v).calls[i..] == CallsFrom(v, i)
    decreases |ReadChunk(v).calls| - i
  {
    var calls := ReadChunk(v).calls;
    if i < |calls| {
      CallRead(v, i);
      CallsRead(v, i + 1);
      assert calls[i..] == [calls[i]] + calls[i + 1..];
    }
  }

  // ----- a chunk as a provider writes it -----

  /** Token counts, each as far as it is given. */
  datatype Usage = Usage(input: Option<nat>, output: Option<nat>, total: Option<nat>)

  datatype Provided = Provided(
    error: Option<string>,
    id: string,
    model: string,
    usage: Option<Usage>,
    reasoning: string,
    content: string,
    calls: seq<Fragment>,
    finish: string)

  function Count(n: Option<nat>): Value { if n.Some? then Num(n.value) else Null }

  function WriteUsage(u: Usage): Value {
    Obj(map["prompt_tokens" := Count(u.input), "completion_tokens" := Count(u.output),
            "total_tokens" := Count(u.total)])
  }

  function WriteCall(f: Fragment): Value {
    Obj(map["index" := Num(f.index), "id" := Str(f.id), "type" := Str("function"),
            "function" := Obj(map["name" := Str(f.name), "arguments" := Str(f.arguments)])])
  }

  function WriteCalls(calls: seq<Fragment>): seq<Value> {
    seq(|calls|, i requires 0 <= i < |calls| => WriteCall(calls[i]))
  }

  function WriteDelta(p: Provided): Value {
    Obj(map["role" := Str("assistant"), "reasoning_content" := Str(p.reasoning), "content" := Str(p.content),
            "tool_calls" := Arr(WriteCalls(p.calls))])
  }

  function WriteChoice(p: Provided): Value {
    Obj(map["index" := Num(0), "delta" := WriteDelta(p), "finish_reason" := Str(p.finish)])
  }

  function WriteChunk(p: Provided): Value {
    Obj(map["error" := if p.error.Some? then Obj(map["message" := Str(p.error.value)]) else Null,
            "id" := Str(p.id), "model" := Str(p.model),
            "usage" := if p.usage.Some? then WriteUsage(p.usage.value) else Null,
            "choices" := Arr([WriteChoice(p)])])
  }

  /** The counts a provider's usage object gives. */
  function UsageAt(given: Value): Usage {
    Usage(AsU64(Get(given, "prompt_tokens")), AsU64(Get(given, "completion_tokens")), AsU64(Get(given, "total_tokens")))
  }

  /** The usage a client is told of, given the provider's counts. */
  predicate Tells(told: Value, u: Usage) {
    && told.Obj? && told.fields.Keys <= {"input_tokens", "output_tokens", "total_tokens"}
    && Get(told, "input_tokens") == (if u.input.Some? then Some(Num(u.input.value)) else None)
    && Get(told, "output_tokens") == (if u.output.Some? then Some(Num(u.output.value)) else None)
    && Get(told, "total_tokens")
       == Some(Num(if u.total.Some? then u.total.value
                   else (if u.input.Some? then u.input.value else 0) + if u.output.Some? then u.output.value else 0))
  }

  predicate Fits64(n: Option<nat>) { n.Some? ==> n.value <= U64_MAX }

  lemma UsageTold(u: Usage)
    requires Fits64(u.input) && Fits64(u.output) && Fits64(u.total)
    ensures Tells(MapUsage(WriteUsage(u)), u)
  {
    CountsTold(WriteUsage(u));
    assert UsageAt(WriteUsage(u)) == u;
  }

  /** The reader of chunks tells of the counts in their places. */
  lemma UsageRead(v: Value)
    ensures var usage := Get(v, "usage");
            && ReadChunk(v).usage.Some? == (usage.Some? && usage.value.Obj?)
            && (ReadChunk(v).usage.Some? ==> Tells(ReadChunk(v).usage.value, UsageAt(usage.value)))
  {
    var usage := Get(v, "usage");
    if usage.Some? && usage.value.Obj? {
      CountsTold(usage.value);
    }
  }

  lemma CountsTold(given: Value)
    ensures Tells(MapUsage(given), UsageAt(given))
  {
    assert "input_tokens"[0] == 'i' && "output_tokens"[0] == 'o' && "total_tokens"[0] == 't';
  }

  lemma FragmentReads(f: Fragment)
    requires f.index <= U64_MAX
    ensures ReadFragment(WriteCall(f)) == f
  {
    var v := WriteCall(f);
    assert Get(v, "index") == Some(Num(f.index)) && Get(v, "id") == Some(Str(f.id));
    assert At(Get(v, "function"), "name") == Some(Str(f.name));
    assert At(Get(v, "function"), "arguments") == Some(Str(f.arguments));
  }

  lemma WrittenTop(p: Provided)
    ensures var v := WriteChunk(p);
            && Get(v, "error") == Some(if p.error.Some? then Obj(map["message" := Str(p.error.value)]) else Null)
            && Get(v, "id") == Some(Str(p.id)) && Get(v, "model") == Some(Str(p.model))
            && Get(v, "usage") == Some(if p.usage.Some? then WriteUsage(p.usage.value) else Null)
            && Choice(v) == Some(WriteChoice(p))
  {
  }

  lemma WrittenDelta(p: Provided)
    ensures Get(WriteChoice(p), "delta") == Some(WriteDelta(p))
            && Get(WriteChoice(p), "finish_reason") == Some(Str(p.finish))
    ensures Get(WriteDelta(p), "reasoning_content") == Some(Str(p.reasoning))
    ensures Get(WriteDelta(p), "content") == Some(Str(p.content))
    ensures Get(WriteDelta(p), "tool_calls") == Some(Arr(WriteCalls(p.calls)))
  {
  }

  lemma WrittenCalls(p: Provided)
    requires forall i :: 0 <= i < |p.calls| ==> p.calls[i].index <= U64_MAX
    ensures ReadChunk(WriteChunk(p)).calls == p.calls
  {
    var v := WriteChunk(p);
    WrittenTop(p);
    WrittenDelta(p);
    assert FirstOf(Get(v, "choices")) == Choice(v);
    forall i | 0 <= i < |p.calls|
      ensures ReadFragment(WriteCalls(p.calls)[i]) == p.calls[i]
    {
      FragmentReads(p.calls[i]);
    }
  }

  /** Reading a provider's chunk gives back all it was written with. */
  lemma ChunkRoundTrip(p: Provided)
    requires forall i :: 0 <= i < |p.calls| ==> p.calls[i].index <= U64_MAX
    requires p.usage.Some? ==>
               Fits64(p.usage.value.input) && Fits64(p.usage.value.output) && Fits64(p.usage.value.total)
    ensures var chunk := ReadChunk(WriteChunk(p));
            && chunk == Chunk(p.error, p.id, p.model, chunk.usage, p.reasoning, p.content, p.calls, p.finish)
            && chunk.usage.Some? == p.usage.Some? && (p.usage.Some? ==> Tells(chunk.usage.value, p.usage.value))
  {
    var v := WriteChunk(p);
    WrittenTop(p);
    WrittenDelta(p);
    WrittenCalls(p);
    ChunkRead(v);
    if p.error.Some? {
      assert AsStr(At(Get(v, "error"), "message")) == Some(p.error.value);
    }
    if p.usage.Some? {
      UsageTold(p.usage.value);
    }
  }
}
