/** Tool calls put together from fragments that arrive in any interleaving. */
module ToolCalls {
  import opened Prelude
  import opened Json
  import opened Responses
  import opened ToolNames
  import opened Synthesizer
  import Framing
  import C = Client
  import Conformance
  import Conservation

  // ----- calls as the upstream describes them -----

  function Last(heard: seq<Delta>): Delta
    requires heard != []
  {
    heard[|heard| - 1]
  }

  function Before(heard: seq<Delta>): seq<Delta>
    requires heard != []
  {
    heard[..|heard| - 1]
  }

  predicate OfCall(d: Delta, i: nat) { d.Tool? && d.fragment.index == i }

  /** All argument text of call `i`, in arrival order. */
  function Arguments(heard: seq<Delta>, i: nat): string {
    if heard == [] then ""
    else Arguments(Before(heard), i) + if OfCall(Last(heard), i) then Last(heard).fragment.arguments else ""
  }

  function FirstId(heard: seq<Delta>, i: nat): string {
    if heard == [] then ""
    else if FirstId(Before(heard), i) != "" then FirstId(Before(heard), i)
    else if OfCall(Last(heard), i) then Last(heard).fragment.id else ""
  }

  function FirstName(heard: seq<Delta>, i: nat): string {
    if heard == [] then ""
    else if FirstName(Before(heard), i) != "" then FirstName(Before(heard), i)
    else if OfCall(Last(heard), i) then Last(heard).fragment.name else ""
  }

  /** A call can be announced once its id and its name have been seen. */
  predicate Known(heard: seq<Delta>, i: nat) { FirstId(heard, i) != "" && FirstName(heard, i) != "" }

  /** The argument text of the fragments that came with or after the one that
      made the call known. */
  function Streamed(heard: seq<Delta>, i: nat): string {
    if heard == [] then ""
    else Streamed(Before(heard), i)
         + if OfCall(Last(heard), i) && Known(heard, i) then Last(heard).fragment.arguments else ""
  }

  /** The argument text that came too early to be streamed. */
  function Early(heard: seq<Delta>, i: nat): string {
    if heard == [] then ""
    else Early(Before(heard), i)
         + if OfCall(Last(heard), i) && !Known(heard, i) then Last(heard).fragment.arguments else ""
  }

  function CallCount(heard: seq<Delta>): nat {
    if heard == [] then 0
    else
      var n := CallCount(Before(heard));
      if Last(heard).Tool? && Last(heard).fragment.index >= n then Last(heard).fragment.index + 1 else n
  }

  predicate Freeform(cfg: Config, heard: seq<Delta>, i: nat) { FirstName(heard, i) in cfg.tools.freeform }

  /** The input that argument text wraps, or the text itself when it wraps
      none. */
  function InputIn(c: Codec, arguments: string): string {
    var wrapped := At(c.parse(arguments), "input");
    if wrapped.Some? && wrapped.value.Str? then wrapped.value.s else arguments
  }

  /** The finished item of call `i`, under item id `id`. */
  function CallItem(cfg: Config, heard: seq<Delta>, i: nat, id: string): Item {
    var callId, name := SanitizeIdentifier(FirstId(heard, i)), Decode(cfg.tools, FirstName(heard, i));
    if Freeform(cfg, heard, i) then CustomCall(id, true, callId, name, InputIn(cfg.codec, Arguments(heard, i)))
    else FunctionCall(id, true, callId, name, if Arguments(heard, i) == "" then "{}" else Arguments(heard, i))
  }

  /** The known calls from index `i` on, with item ids left out. */
  function ExpectedCalls(cfg: Config, heard: seq<Delta>, i: nat): seq<Item>
    decreases CallCount(heard) - i
  {
    if i >= CallCount(heard) then []
    else (if Known(heard, i) then [CallItem(cfg, heard, i, "")] else []) + ExpectedCalls(cfg, heard, i + 1)
  }

  function WithoutId(item: Item): Item { item.(id := "") }

  /** The call items of an output list, with item ids left out. */
  function CallsIn(items: seq<Item>): seq<Item> {
    if items == [] then []
    else
      var item := items[|items| - 1];
      CallsIn(items[..|items| - 1]) + if item.FunctionCall? || item.CustomCall? then [WithoutId(item)] else []
  }

  // ----- the state agrees with that description -----

  predicate CallMatches(cfg: Config, call: Call, heard: seq<Delta>, i: nat) {
    && call.arguments == Arguments(heard, i)
    && call.callId == (if FirstId(heard, i) == "" then "" else SanitizeIdentifier(FirstId(heard, i)))
    && call.encodedName == FirstName(heard, i)
    && (FirstName(heard, i) != "" ==> call.name == Decode(cfg.tools, FirstName(heard, i)))
    && call.freeform == (FirstName(heard, i) != "" && Freeform(cfg, heard, i))
    && call.announced == Known(heard, i)
  }

  predicate Matches(cfg: Config, calls: seq<Call>, heard: seq<Delta>) {
    |calls| == CallCount(heard) && forall i :: 0 <= i < |calls| ==> CallMatches(cfg, calls[i], heard, i)
  }

  lemma Unheard(heard: seq<Delta>, i: nat)
    requires i >= CallCount(heard)
    ensures Arguments(heard, i) == "" && FirstId(heard, i) == "" && FirstName(heard, i) == ""
  {
    if heard != [] {
      Unheard(Before(heard), i);
    }
  }

  lemma OtherDelta(heard: seq<Delta>, d: Delta, i: nat)
    requires !OfCall(d, i)
    ensures var h := heard + [d];
            && Arguments(h, i) == Arguments(heard, i) && FirstId(h, i) == FirstId(heard, i)
            && FirstName(h, i) == FirstName(heard, i)
            && Streamed(h, i) == Streamed(heard, i) && Known(h, i) == Known(heard, i)
  {
    assert Before(heard + [d]) == heard;
  }

  lemma OwnFragment(heard: seq<Delta>, f: Fragment)
    ensures var h, i := heard + [Tool(f)], f.index;
            && Arguments(h, i) == Arguments(heard, i) + f.arguments
            && FirstId(h, i) == (if FirstId(heard, i) != "" then FirstId(heard, i) else f.id)
            && FirstName(h, i) == (if FirstName(heard, i) != "" then FirstName(heard, i) else f.name)
            && Streamed(h, i) == Streamed(heard, i) + if Known(h, i) then f.arguments else ""
  {
    assert Before(heard + [Tool(f)]) == heard;
  }

  lemma SanitizedNotEmpty(t: string)
    ensures SanitizeIdentifier(t) != ""
  {
  }

  /** What a fragment makes of its call. */
  ghost predicate Settled(cfg: Config, was: Call, f: Fragment, call: Call) {
    var marked := Label(cfg, was, f);
    && call.arguments == was.arguments + f.arguments
    && call.callId == marked.callId && call.encodedName == marked.encodedName
    && call.name == marked.name && call.freeform == marked.freeform
    && call.announced == (was.announced || (marked.encodedName != "" && marked.callId != ""))
  }

  lemma FragmentSettles(cfg: Config, heard: seq<Delta>, was: Call, f: Fragment, call: Call)
    requires CallMatches(cfg, was, heard, f.index) && Settled(cfg, was, f, call)
    ensures CallMatches(cfg, call, heard + [Tool(f)], f.index)
  {
    OwnFragment(heard, f);
    SanitizedNotEmpty(FirstId(heard, f.index));
    SanitizedNotEmpty(f.id);
  }

  lemma LabelledCall(cfg: Config, s: State, f: Fragment)
    requires f.index < |s.calls|
    ensures var known := Identify(s, f.index);
            var r := Relabel(cfg, known, f);
            var was, marked := s.calls[f.index], Label(cfg, s.calls[f.index], f);
            && |r.calls| == |s.calls| && (forall j :: 0 <= j < |s.calls| && j != f.index ==> r.calls[j] == s.calls[j])
            && r.calls[f.index] == marked.(id := r.calls[f.index].id, index := r.calls[f.index].index)
  {
  }

  lemma AnnouncedCall(s: State, i: nat, text: string)
    requires i < |s.calls|
    ensures var announced := Announce(s, i);
            var r := AddArguments(announced, i, text);
            var c := s.calls[i];
            && |r.calls| == |s.calls| && (forall j :: 0 <= j < |s.calls| && j != i ==> r.calls[j] == s.calls[j])
            && r.calls[i] == c.(announced := c.announced || Announceable(c), arguments := c.arguments + text)
  {
    assert s.calls[i].arguments + "" == s.calls[i].arguments;
  }

  lemma StepsSettle(cfg: Config, was: Call, f: Fragment, marked: Call, call: Call)
    requires marked == Label(cfg, was, f).(id := marked.id, index := marked.index)
    requires call
          == marked.(announced := marked.announced || Announceable(marked), arguments := marked.arguments + f.arguments)
    ensures Settled(cfg, was, f, call)
  {
  }

  lemma CallsAfterPush(cfg: Config, s: State, f: Fragment)
    ensures var g, r := Grow(s.calls, f.index), PushCall(cfg, s, f).calls;
            && |r| == |g| && (forall j :: 0 <= j < |g| && j != f.index ==> r[j] == g[j])
            && Settled(cfg, g[f.index], f, r[f.index])
  {
    var a := Arrive(s, f);
    assert a.calls == Grow(s.calls, f.index);
    LabelledCall(cfg, a, f);
    var m := Relabel(cfg, Identify(a, f.index), f);
    AnnouncedCall(m, f.index, f.arguments);
    StepsSettle(cfg, a.calls[f.index], f, m.calls[f.index], PushCall(cfg, s, f).calls[f.index]);
  }

  /** Fragment `f` turned `calls` into `next`. */
  lemma FragmentKeepsMatch(cfg: Config, calls: seq<Call>, next: seq<Call>, heard: seq<Delta>, f: Fragment)
    requires Matches(cfg, calls, heard)
    requires var g := Grow(calls, f.index);
             && |next| == |g| && (forall j :: 0 <= j < |g| && j != f.index ==> next[j] == g[j])
             && Settled(cfg, g[f.index], f, next[f.index])
    requires |Grow(calls, f.index)| == CallCount(heard + [Tool(f)])
    ensures Matches(cfg, next, heard + [Tool(f)])
  {
    var g := Grow(calls, f.index);
    forall i | 0 <= i < |g|
      ensures CallMatches(cfg, next[i], heard + [Tool(f)], i)
    {
      if i >= |calls| {
        Unheard(heard, i);
        assert g[i] == NEW_CALL;
      }
      assert CallMatches(cfg, g[i], heard, i);
      if i == f.index {
        FragmentSettles(cfg, heard, g[i], f, next[i]);
      } else {
        OtherDelta(heard, Tool(f), i);
      }
    }
  }

  lemma {:induction false} GrowLength(calls: seq<Call>, index: nat)
    ensures |Grow(calls, index)| == if index >= |calls| then index + 1 else |calls|
    decreases index + 1 - |calls|
  {
    if |calls| <= index {
      GrowLength(calls + [NEW_CALL], index);
    }
  }

  lemma PushCallMatches(cfg: Config, s: State, f: Fragment)
    requires Matches(cfg, s.calls, s.heard)
    ensures Matches(cfg, PushCall(cfg, s, f).calls, s.heard + [Tool(f)])
  {
    GrowLength(s.calls, f.index);
    assert Before(s.heard + [Tool(f)]) == s.heard;
    CallsAfterPush(cfg, s, f);
    FragmentKeepsMatch(cfg, s.calls, PushCall(cfg, s, f).calls, s.heard, f);
  }

  lemma TextKeepsMatch(cfg: Config, calls: seq<Call>, heard: seq<Delta>, d: Delta)
    requires Matches(cfg, calls, heard) && !d.Tool?
    ensures Matches(cfg, calls, heard + [d])
  {
    assert Before(heard + [d]) == heard;
    forall i | 0 <= i < |calls|
      ensures CallMatches(cfg, calls[i], heard + [d], i)
    {
      assert CallMatches(cfg, calls[i], heard, i);
      OtherDelta(heard, d, i);
    }
  }

  // ----- streamed arguments -----

  /** The deltas of a tool call, of either kind. */
  predicate CallDelta(body: Body) { body.ArgumentsDelta? || body.InputDelta? }

  /** The tool-call deltas sent under item index `index`. */
  function DeltasAt(events: seq<Event>, index: nat): seq<Body> {
    if events == [] then []
    else
      var body := events[|events| - 1].body;
      DeltasAt(events[..|events| - 1], index) + if CallDelta(body) && body.index == index then [body] else []
  }

  /** What argument deltas add up to. */
  function DeltaText(deltas: seq<Body>): string {
    if deltas == [] then ""
    else
      var body := deltas[|deltas| - 1];
      DeltaText(deltas[..|deltas| - 1]) + if body.ArgumentsDelta? then body.delta else ""
  }

  function ArgumentText(events: seq<Event>, index: nat): string { DeltaText(DeltasAt(events, index)) }

  predicate OnlyArguments(deltas: seq<Body>) { forall k :: 0 <= k < |deltas| ==> deltas[k].ArgumentsDelta? }

  ghost predicate SameDeltas(a: seq<Event>, b: seq<Event>) {
    forall index: nat :: DeltasAt(b, index) == DeltasAt(a, index)
  }

  lemma TextGrows(deltas: seq<Body>, body: Body)
    ensures DeltaText(deltas + [body]) == DeltaText(deltas) + if body.ArgumentsDelta? then body.delta else ""
  {
    assert (deltas + [body])[..|deltas|] == deltas;
  }

  lemma EmittedDelta(s: State, body: Body, index: nat)
    ensures DeltasAt(Emit(s, body).events, index)
         == DeltasAt(s.events, index) + if CallDelta(body) && body.index == index then [body] else []
  {
    var e := Event(s.sequence, body);
    assert (s.events + [e])[..|s.events|] == s.events;
  }

  lemma EmitQuietly(s: State, body: Body)
    requires !CallDelta(body)
    ensures SameDeltas(s.events, Emit(s, body).events)
  {
    forall index: nat
      ensures DeltasAt(Emit(s, body).events, index) == DeltasAt(s.events, index)
    {
      EmittedDelta(s, body, index);
    }
  }

  lemma EmitTwiceQuietly(s: State, a: Body, b: Body)
    requires !CallDelta(a) && !CallDelta(b)
    ensures SameDeltas(s.events, Emit(Emit(s, a), b).events)
  {
    EmitQuietly(s, a);
    EmitQuietly(Emit(s, a), b);
  }

  lemma EmitThriceQuietly(s: State, a: Body, b: Body, c: Body)
    requires !CallDelta(a) && !CallDelta(b) && !CallDelta(c)
    ensures SameDeltas(s.events, Emit(Emit(Emit(s, a), b), c).events)
  {
    EmitTwiceQuietly(s, a, b);
    EmitQuietly(Emit(Emit(s, a), b), c);
  }

  lemma ClosingIsQuiet(s: State)
    ensures SameDeltas(s.events, CloseReasoning(s).events) && SameDeltas(s.events, CloseMessage(s).events)
  {
    if s.reasoning.Some? {
      var t := s.reasoning.value;
      EmitThriceQuietly(s.(reasoning := None), SummaryDone(t.id, t.index, t.text),
                        SummaryPartDone(t.id, t.index, t.text),
                        ItemDone(t.index, Reasoning(t.id, [t.text])));
    }
    if s.message.Some? {
      var t := s.message.value;
      EmitThriceQuietly(s.(message := None), TextDone(t.id, t.index, t.text), ContentPartDone(t.id, t.index, t.text),
                        ItemDone(t.index, Message(t.id, true, [t.text])));
    }
  }

  lemma ClosingBothIsQuiet(s: State)
    ensures SameDeltas(s.events, CloseMessage(CloseReasoning(s)).events)
  {
    ClosingIsQuiet(s);
    ClosingIsQuiet(CloseReasoning(s));
  }

  lemma ReasoningIsQuiet(s: State, delta: string)
    ensures SameDeltas(s.events, PushReasoning(s, delta).events)
  {
    ClosingIsQuiet(s);
    var closed := CloseMessage(s);
    var ready := if closed.reasoning.None? then OpenReasoning(closed) else closed;
    if closed.reasoning.None? {
      var id := ItemId(closed, "rs", closed.nextIndex);
      EmitTwiceQuietly(closed.(nextIndex := closed.nextIndex + 1), ItemAdded(closed.nextIndex, Reasoning(id, [])),
                       SummaryPartAdded(id, closed.nextIndex));
    }
    var t := ready.reasoning.value;
    EmitQuietly(ready.(reasoning := Some(t.(text := t.text + delta)), heard := ready.heard + [Think(delta)]),
                SummaryDelta(t.id, t.index, delta));
  }

  lemma SpeechIsQuiet(s: State, delta: string)
    ensures SameDeltas(s.events, PushText(s, delta).events)
  {
    ClosingIsQuiet(s);
    var closed := CloseReasoning(s);
    var ready := if closed.message.None? then OpenMessage(closed) else closed;
    if closed.message.None? {
      var id := ItemId(closed, "msg", closed.nextIndex);
      EmitTwiceQuietly(closed.(nextIndex := closed.nextIndex + 1), ItemAdded(closed.nextIndex, Message(id, false, [])),
                       ContentPartAdded(id, closed.nextIndex));
    }
    var t := ready.message.value;
    EmitQuietly(ready.(message := Some(t.(text := t.text + delta)), heard := ready.heard + [Say(delta)]),
                TextDelta(t.id, t.index, delta));
  }

  /** The delta with which a call passes on a fragment's argument text. */
  function Passing(call: Call, fragment: string, index: nat): seq<Body> {
    if fragment != "" && call.index == index && !call.freeform && call.announced
    then [ArgumentsDelta(call.id, index, fragment)] else []
  }

  lemma ArgumentsSent(s: State, i: nat, fragment: string, index: nat)
    requires i < |s.calls|
    ensures DeltasAt(AddArguments(s, i, fragment).events, index)
         == DeltasAt(s.events, index) + Passing(s.calls[i], fragment, index)
  {
    var call := s.calls[i].(arguments := s.calls[i].arguments + fragment);
    EmittedDelta(s.(calls := s.calls[i := call]), ArgumentsDelta(call.id, call.index, fragment), index);
  }

  lemma AnnouncementIsQuiet(s: State, i: nat)
    requires i < |s.calls|
    ensures SameDeltas(s.events, Announce(s, i).events)
  {
    if Announceable(s.calls[i]) {
      EmitQuietly(s.(calls := s.calls[i := s.calls[i].(announced := true)]),
                  ItemAdded(s.calls[i].index, AddedItem(s.calls[i])));
    }
  }

  /** A fragment sends its argument text exactly when its call is announced by
      then and takes no free-form input. */
  lemma FragmentSent(cfg: Config, s: State, f: Fragment, index: nat)
    ensures var r := PushCall(cfg, s, f);
            && f.index < |r.calls|
            && DeltasAt(r.events, index) == DeltasAt(s.events, index) + Passing(r.calls[f.index], f.arguments, index)
  {
    var a := Arrive(s, f);
    ClosingBothIsQuiet(s);
    assert a.events == CloseMessage(CloseReasoning(s)).events;
    var m := Relabel(cfg, Identify(a, f.index), f);
    assert m.events == a.events;
    AnnouncementIsQuiet(m, f.index);
    ArgumentsSent(Announce(m, f.index), f.index, f.arguments, index);
    AnnouncedCall(m, f.index, f.arguments);
    AnnouncedCall(m, f.index, "");
  }

  ghost predicate CallStreams(events: seq<Event>, call: Call, heard: seq<Delta>, i: nat) {
    call.id != "" ==>
      && OnlyArguments(DeltasAt(events, call.index))
      && (call.freeform || !call.announced ==> DeltasAt(events, call.index) == [])
      && (!call.freeform ==> ArgumentText(events, call.index) == Streamed(heard, i))
  }

  /** Every call has been sent what it streams, and unused indices nothing. */
  ghost predicate Streams(s: State) {
    && (forall index: nat :: index >= s.nextIndex ==> DeltasAt(s.events, index) == [])
    && (forall i :: 0 <= i < |s.calls| ==> CallStreams(s.events, s.calls[i], s.heard, i))
  }

  lemma {:induction false} UnknownStreamsNothing(heard: seq<Delta>, i: nat)
    requires !Known(heard, i)
    ensures Streamed(heard, i) == ""
  {
    if heard != [] {
      UnknownStreamsNothing(Before(heard), i);
    }
  }

  lemma DeltasGrow(deltas: seq<Body>, call: Call, text: string)
    requires OnlyArguments(deltas)
    ensures var grown := deltas + Passing(call, text, call.index);
            && OnlyArguments(grown) && (call.freeform || !call.announced ==> grown == deltas)
            && DeltaText(grown) == DeltaText(deltas) + if call.freeform || !call.announced then "" else text
  {
    if text != "" && !call.freeform && call.announced {
      TextGrows(deltas, ArgumentsDelta(call.id, call.index, text));
    } else {
      assert deltas + [] == deltas;
    }
  }

  lemma OwnCallStreams(cfg: Config, events: seq<Event>, next: seq<Event>, was: Call, call: Call, heard: seq<Delta>,
                       f: Fragment)
    requires CallMatches(cfg, was, heard, f.index) && CallMatches(cfg, call, heard + [Tool(f)], f.index)
    requires CallStreams(events, was, heard, f.index) && (was.id != "" ==> call.index == was.index)
    requires was.id == "" ==> DeltasAt(events, call.index) == [] && !was.announced
    requires DeltasAt(next, call.index) == DeltasAt(events, call.index) + Passing(call, f.arguments, call.index)
    ensures CallStreams(next, call, heard + [Tool(f)], f.index)
  {
    OwnFragment(heard, f);
    if !Known(heard, f.index) {
      UnknownStreamsNothing(heard, f.index);
    }
    DeltasGrow(DeltasAt(events, call.index), call, f.arguments);
  }

  lemma IndexAfterPush(cfg: Config, s: State, f: Fragment)
    ensures var g, r := Grow(s.calls, f.index), PushCall(cfg, s, f);
            && r.nextIndex >= s.nextIndex && |r.calls| == |g|
            && r.calls[f.index].id != ""
            && if g[f.index].id != ""
               then r.calls[f.index].id == g[f.index].id && r.calls[f.index].index == g[f.index].index
               else r.calls[f.index].index == s.nextIndex && r.nextIndex == s.nextIndex + 1
  {
    var a := Arrive(s, f);
    assert a.nextIndex == s.nextIndex && a.calls == Grow(s.calls, f.index);
    var k := Identify(a, f.index);
    assert k.calls[f.index].id != "" by {
      if a.calls[f.index].id == "" {
        assert k.calls[f.index].id[0] == 'f';
      }
    }
    IndexThroughSteps(cfg, k, f);
  }

  lemma RelabelKeepsIndex(cfg: Config, k: State, f: Fragment)
    requires f.index < |k.calls|
    ensures var r := Relabel(cfg, k, f);
            && r.nextIndex == k.nextIndex && |r.calls| == |k.calls|
            && r.calls[f.index].id == k.calls[f.index].id && r.calls[f.index].index == k.calls[f.index].index
  {
  }

  lemma IndexThroughSteps(cfg: Config, k: State, f: Fragment)
    requires f.index < |k.calls|
    ensures var r := AddArguments(Announce(Relabel(cfg, k, f), f.index), f.index, f.arguments);
            && r.nextIndex == k.nextIndex && |r.calls| == |k.calls|
            && r.calls[f.index].id == k.calls[f.index].id && r.calls[f.index].index == k.calls[f.index].index
  {
    RelabelKeepsIndex(cfg, k, f);
    AnnouncedCall(Relabel(cfg, k, f), f.index, f.arguments);
  }

  /** `r` is `s` after fragment `f`, as far as streaming is concerned. */
  ghost predicate Sent(s: State, r: State, f: Fragment) {
    && f.index < |r.calls|
    && forall index: nat ::
         DeltasAt(r.events, index) == DeltasAt(s.events, index) + Passing(r.calls[f.index], f.arguments, index)
  }

  lemma OtherCallStreams(events: seq<Event>, next: seq<Event>, call: Call, heard: seq<Delta>, f: Fragment, i: nat,
                         other: Call)
    requires CallStreams(events, call, heard, i) && i != f.index && call.index != other.index
    requires DeltasAt(next, call.index) == DeltasAt(events, call.index) + Passing(other, f.arguments, call.index)
    ensures CallStreams(next, call, heard + [Tool(f)], i)
  {
    OtherDelta(heard, Tool(f), i);
    assert DeltasAt(events, call.index) + [] == DeltasAt(events, call.index);
  }

  lemma SentStreams(cfg: Config, s: State, r: State, g: seq<Call>, f: Fragment)
    requires Streams(s) && Sent(s, r, f) && |r.calls| == |g|
    requires forall i :: 0 <= i < |g| ==> CallMatches(cfg, g[i], s.heard, i) && CallStreams(s.events, g[i], s.heard, i)
    requires forall j :: 0 <= j < |g| && j != f.index ==> r.calls[j] == g[j]
    requires r.heard == s.heard + [Tool(f)] && CallMatches(cfg, r.calls[f.index], r.heard, f.index)
    requires Conformance.Separate(r, r.calls) && r.nextIndex >= s.nextIndex && r.calls[f.index].id != ""
    requires if g[f.index].id != "" then r.calls[f.index].index == g[f.index].index
             else r.calls[f.index].index >= s.nextIndex && !g[f.index].announced
    ensures Streams(r)
  {
    forall i | 0 <= i < |r.calls|
      ensures CallStreams(r.events, r.calls[i], r.heard, i)
    {
      if i == f.index {
        OwnCallStreams(cfg, s.events, r.events, g[i], r.calls[i], s.heard, f);
      } else if r.calls[i].id != "" {
        assert r.calls[i].index != r.calls[f.index].index;
        OtherCallStreams(s.events, r.events, g[i], s.heard, f, i, r.calls[f.index]);
      }
    }
  }

  lemma UnidentifiedIsSilent(s: State, f: Fragment)
    requires Conformance.Live(s, s.calls)
    ensures var g := Grow(s.calls, f.index);
            g[f.index].id == "" ==> !g[f.index].announced
  {
    if f.index < |s.calls| {
      assert Conformance.HoldsCall(C.Replay(s.events).value, s.calls[f.index]);
    }
  }

  lemma PushCallStreams(cfg: Config, s: State, f: Fragment)
    requires Conformance.Live(s, s.calls) && Matches(cfg, s.calls, s.heard) && Streams(s)
    requires PushCall(cfg, s, f).heard == s.heard + [Tool(f)]
    ensures Streams(PushCall(cfg, s, f))
  {
    var r := PushCall(cfg, s, f);
    CallsAfterPush(cfg, s, f);
    IndexAfterPush(cfg, s, f);
    PushCallMatches(cfg, s, f);
    Conformance.CallConforms(cfg, s, f);
    GrownCallsStream(cfg, s, f);
    UnidentifiedIsSilent(s, f);
    forall index: nat
      ensures DeltasAt(r.events, index) == DeltasAt(s.events, index) + Passing(r.calls[f.index], f.arguments, index)
    {
      FragmentSent(cfg, s, f, index);
    }
    SentStreams(cfg, s, r, Grow(s.calls, f.index), f);
  }

  lemma GrownCallsStream(cfg: Config, s: State, f: Fragment)
    requires Matches(cfg, s.calls, s.heard) && Streams(s)
    ensures var g := Grow(s.calls, f.index);
            forall i :: 0 <= i < |g| ==> CallMatches(cfg, g[i], s.heard, i) && CallStreams(s.events, g[i], s.heard, i)
  {
    var g := Grow(s.calls, f.index);
    forall i | 0 <= i < |g|
      ensures CallMatches(cfg, g[i], s.heard, i) && CallStreams(s.events, g[i], s.heard, i)
    {
      if i >= |s.calls| {
        Unheard(s.heard, i);
      }
    }
  }

  // ----- a live state -----

  /** A response under way: the calls are as the upstream described them, and
      no call item is finished yet. */
  ghost predicate Assembling(cfg: Config, s: State) {
    && Conformance.Live(s, s.calls) && Conservation.TextKept(s)
    && Matches(cfg, s.calls, s.heard) && Streams(s) && CallsIn(s.output) == []
  }

  lemma TextItemIsNoCall(items: seq<Item>, item: Item)
    requires item.Reasoning? || item.Message?
    ensures CallsIn(items + [item]) == CallsIn(items)
  {
    assert (items + [item])[..|items|] == items;
  }

  lemma ClosedTextIsNoCall(s: State)
    ensures CallsIn(CloseReasoning(s).output) == CallsIn(s.output)
            && CallsIn(CloseMessage(s).output) == CallsIn(s.output)
    ensures CloseReasoning(s).calls == s.calls && CloseMessage(s).calls == s.calls
    ensures CloseReasoning(s).nextIndex == s.nextIndex && CloseMessage(s).nextIndex == s.nextIndex
  {
    if s.reasoning.Some? {
      TextItemIsNoCall(s.output, Reasoning(s.reasoning.value.id, [s.reasoning.value.text]));
    }
    if s.message.Some? {
      TextItemIsNoCall(s.output, Message(s.message.value.id, true, [s.message.value.text]));
    }
  }

  /** A text step: same calls, same argument text, one text delta heard. */
  lemma TextStepAssembles(cfg: Config, s: State, r: State, d: Delta)
    requires Assembling(cfg, s) && !d.Tool? && r.heard == s.heard + [d]
    requires Conformance.Live(r, r.calls) && Conservation.TextKept(r)
    requires r.calls == s.calls && r.nextIndex >= s.nextIndex && SameDeltas(s.events, r.events)
    requires CallsIn(r.output) == CallsIn(s.output)
    ensures Assembling(cfg, r)
  {
    TextKeepsMatch(cfg, s.calls, s.heard, d);
    forall i | 0 <= i < |r.calls|
      ensures CallStreams(r.events, r.calls[i], r.heard, i)
    {
      assert CallStreams(s.events, s.calls[i], s.heard, i);
      OtherDelta(s.heard, d, i);
    }
  }

  lemma ReasoningStep(s: State, delta: string)
    ensures var r := PushReasoning(s, delta);
            r.calls == s.calls && r.nextIndex >= s.nextIndex && CallsIn(r.output) == CallsIn(s.output)
  {
    ClosedTextIsNoCall(s);
  }

  lemma SpeechStep(s: State, delta: string)
    ensures var r := PushText(s, delta);
            r.calls == s.calls && r.nextIndex >= s.nextIndex && CallsIn(r.output) == CallsIn(s.output)
  {
    ClosedTextIsNoCall(s);
  }

  lemma ReasoningAssembles(cfg: Config, s: State, delta: string)
    requires Assembling(cfg, s)
    ensures Assembling(cfg, PushReasoning(s, delta))
  {
    Conformance.ReasoningConforms(s, delta);
    Conservation.ReasoningKeepsText(s, delta);
    ReasoningIsQuiet(s, delta);
    ReasoningStep(s, delta);
    TextStepAssembles(cfg, s, PushReasoning(s, delta), Think(delta));
  }

  lemma SpeechAssembles(cfg: Config, s: State, delta: string)
    requires Assembling(cfg, s)
    ensures Assembling(cfg, PushText(s, delta))
  {
    Conformance.TextConforms(s, delta);
    Conservation.SpeechKeepsText(s, delta);
    SpeechIsQuiet(s, delta);
    SpeechStep(s, delta);
    TextStepAssembles(cfg, s, PushText(s, delta), Say(delta));
  }

  lemma PushedCallOutput(cfg: Config, s: State, f: Fragment)
    ensures CallsIn(PushCall(cfg, s, f).output) == CallsIn(s.output)
  {
    ClosedTextIsNoCall(s);
    ClosedTextIsNoCall(CloseReasoning(s));
    Conservation.CallStepsLeaveText(cfg, Arrive(s, f), f);
  }

  lemma CallAssembles(cfg: Config, s: State, f: Fragment)
    requires Assembling(cfg, s)
    ensures Assembling(cfg, PushCall(cfg, s, f))
  {
    Conformance.CallConforms(cfg, s, f);
    Conservation.CallKeepsText(cfg, s, f);
    PushCallMatches(cfg, s, f);
    PushCallStreams(cfg, s, f);
    PushedCallOutput(cfg, s, f);
  }

  lemma {:induction false} CallsAssemble(cfg: Config, s: State, fragments: seq<Fragment>)
    requires Assembling(cfg, s)
    ensures Assembling(cfg, PushCalls(cfg, s, fragments))
    decreases |fragments|
  {
    if fragments != [] {
      CallAssembles(cfg, s, fragments[0]);
      CallsAssemble(cfg, PushCall(cfg, s, fragments[0]), fragments[1..]);
    }
  }

  // ----- completion -----

  /** Event `k` is the `done` event of call `i`. Under its index a free-form
      call was sent its input as one delta; a function call was sent nothing
      but argument deltas, which add up to what it streams. */
  ghost predicate ReportedAt(cfg: Config, events: seq<Event>, heard: seq<Delta>, i: nat, k: nat) {
    && k < |events| && events[k].body.ItemDone?
    && WithoutId(events[k].body.item) == CallItem(cfg, heard, i, "")
    && var index, item := events[k].body.index, events[k].body.item;
       if Freeform(cfg, heard, i) then DeltasAt(events, index) == [InputDelta(item.id, index, item.input)]
       else OnlyArguments(DeltasAt(events, index)) && ArgumentText(events, index) == Streamed(heard, i)
  }

  /** `at` tells the `done` event of each known call: one each, in call order. */
  ghost predicate ReportedBy(cfg: Config, events: seq<Event>, heard: seq<Delta>, at: map<nat, nat>) {
    && (forall i: nat :: i in at <==> i < CallCount(heard) && Known(heard, i))
    && (forall i :: i in at ==> ReportedAt(cfg, events, heard, i, at[i]))
    && (forall i, j :: i in at && j in at && i < j ==> at[i] < at[j])
  }

  ghost predicate Reported(cfg: Config, events: seq<Event>, heard: seq<Delta>) {
    exists at: map<nat, nat> :: ReportedBy(cfg, events, heard, at)
  }

  /** What a completed response holds of the tool calls. */
  ghost predicate Assembled(cfg: Config, s: State) {
    CallsIn(s.output) == ExpectedCalls(cfg, s.heard, 0) && Reported(cfg, s.events, s.heard)
  }

  lemma CallItemAppends(items: seq<Item>, item: Item)
    requires item.FunctionCall? || item.CustomCall?
    ensures CallsIn(items + [item]) == CallsIn(items) + [WithoutId(item)]
  {
    assert (items + [item])[..|items|] == items;
  }

  ghost predicate Extends(a: seq<Event>, b: seq<Event>) {
    |a| <= |b| && forall k :: 0 <= k < |a| ==> b[k] == a[k]
  }

  /** The delta with which a free-form call passes on its input. */
  function InputPassed(c: Codec, call: Call, index: nat): seq<Body> {
    if call.announced && call.freeform && call.index == index
    then [InputDelta(call.id, index, DoneItem(c, call).input)] else []
  }

  lemma CallIsReported(c: Codec, s: State, call: Call)
    requires call.announced
    ensures var r := CloseCall(c, s, call);
            && r.output == s.output + [DoneItem(c, call)] && r.heard == s.heard
            && Extends(s.events, r.events)
            && (forall index: nat ::
                  DeltasAt(r.events, index) == DeltasAt(s.events, index) + InputPassed(c, call, index))
            && |r.events| > |s.events| && r.events[|r.events| - 1].body == ItemDone(call.index, DoneItem(c, call))
  {
    var item := DoneItem(c, call);
    if call.freeform {
      var said := Emit(s, InputDelta(call.id, call.index, item.input));
      EmitTwiceQuietly(said, InputDone(call.id, call.index, item.input), ItemDone(call.index, item));
      forall index: nat
        ensures DeltasAt(said.events, index) == DeltasAt(s.events, index) + InputPassed(c, call, index)
      {
        EmittedDelta(s, InputDelta(call.id, call.index, item.input), index);
      }
    } else {
      EmitTwiceQuietly(s, ArgumentsDone(call.id, call.index, item.arguments), ItemDone(call.index, item));
    }
  }

  /** The items of the announced calls, without ids, from the first on. */
  function AnnouncedItems(c: Codec, calls: seq<Call>): seq<Item> {
    if calls == [] then []
    else (if calls[0].announced then [WithoutId(DoneItem(c, calls[0]))] else []) + AnnouncedItems(c, calls[1..])
  }

  /** Each announced call was done at its place of `at`, from event `from` on
      and in order, and sent `InputPassed` besides. */
  ghost predicate ClosedAt(c: Codec, calls: seq<Call>, from: nat, events: seq<Event>, at: seq<nat>) {
    && |at| == |calls|
    && (forall i :: 0 <= i < |calls| && calls[i].announced ==>
          from <= at[i] < |events| && events[at[i]].body == ItemDone(calls[i].index, DoneItem(c, calls[i])))
    && (forall i, j :: 0 <= i < j < |calls| && calls[i].announced && calls[j].announced ==> at[i] < at[j])
  }

  /** What closing `calls` sends under `index`. */
  function InputsPassed(c: Codec, calls: seq<Call>, index: nat): seq<Body> {
    if calls == [] then [] else InputPassed(c, calls[0], index) + InputsPassed(c, calls[1..], index)
  }

  lemma ClosedBefore(c: Codec, calls: seq<Call>, from: nat, to: nat, events: seq<Event>, k: nat, at: seq<nat>)
    requires calls != [] && from <= to && ClosedAt(c, calls[1..], to, events, at)
    requires calls[0].announced ==>
               from <= k < to <= |events| && events[k].body == ItemDone(calls[0].index, DoneItem(c, calls[0]))
    ensures ClosedAt(c, calls, from, events, [k] + at)
  {
    forall i | 0 <= i < |calls| && calls[i].announced
      ensures from <= ([k] + at)[i] < |events|
      ensures events[([k] + at)[i]].body == ItemDone(calls[i].index, DoneItem(c, calls[i]))
    {
      if i > 0 {
        assert calls[i] == calls[1..][i - 1];
      }
    }
    forall i, j | 0 <= i < j < |calls| && calls[i].announced && calls[j].announced
      ensures ([k] + at)[i] < ([k] + at)[j]
    {
      assert calls[j] == calls[1..][j - 1];
      if i > 0 {
        assert calls[i] == calls[1..][i - 1];
      }
    }
  }

  /** `r` is `s` with `calls` closed, their `done` events at the places `at`. */
  ghost predicate ClosesCalls(c: Codec, s: State, r: State, calls: seq<Call>, at: seq<nat>) {
    && CallsIn(r.output) == CallsIn(s.output) + AnnouncedItems(c, calls) && r.heard == s.heard
    && Extends(s.events, r.events) && ClosedAt(c, calls, |s.events|, r.events, at)
    && forall index: nat :: DeltasAt(r.events, index) == DeltasAt(s.events, index) + InputsPassed(c, calls, index)
  }

  lemma SilentCallCloses(c: Codec, s: State, r: State, calls: seq<Call>, rest: seq<nat>)
    requires calls != [] && !calls[0].announced && ClosesCalls(c, s, r, calls[1..], rest)
    ensures ClosesCalls(c, s, r, calls, [0] + rest)
  {
    ClosedBefore(c, calls, |s.events|, |s.events|, r.events, 0, rest);
  }

  lemma AnnouncedCallCloses(c: Codec, s: State, r: State, calls: seq<Call>, rest: seq<nat>)
    requires calls != [] && calls[0].announced && ClosesCalls(c, CloseCall(c, s, calls[0]), r, calls[1..], rest)
    ensures ClosesCalls(c, s, r, calls, [|CloseCall(c, s, calls[0]).events| - 1] + rest)
  {
    var next := CloseCall(c, s, calls[0]);
    CallIsReported(c, s, calls[0]);
    CallItemAppends(s.output, DoneItem(c, calls[0]));
    ClosedBefore(c, calls, |s.events|, |next.events|, r.events, |next.events| - 1, rest);
  }

  lemma NoneClosed(c: Codec, s: State)
    ensures ClosesCalls(c, s, s, [], [])
  {
  }

  lemma {:induction false} CallsAreReported(c: Codec, s: State, calls: seq<Call>) returns (at: seq<nat>)
    ensures ClosesCalls(c, s, CloseCalls(c, s, calls), calls, at)
    decreases |calls|
  {
    if calls == [] {
      NoneClosed(c, s);
      at := [];
    } else {
      var next := if calls[0].announced then CloseCall(c, s, calls[0]) else s;
      var r := CloseCalls(c, next, calls[1..]);
      assert CloseCalls(c, s, calls) == r;
      var rest := CallsAreReported(c, next, calls[1..]);
      at := OneMoreClosed(c, s, next, r, calls, rest);
    }
  }

  lemma OneMoreClosed(c: Codec, s: State, next: State, r: State, calls: seq<Call>, rest: seq<nat>)
    returns (at: seq<nat>)
    requires calls != [] && next == if calls[0].announced then CloseCall(c, s, calls[0]) else s
    requires ClosesCalls(c, next, r, calls[1..], rest)
    ensures ClosesCalls(c, s, r, calls, at)
  {
    if calls[0].announced {
      AnnouncedCallCloses(c, s, r, calls, rest);
      at := [|next.events| - 1] + rest;
    } else {
      SilentCallCloses(c, s, r, calls, rest);
      at := [0] + rest;
    }
  }

  /** A call that shares its index with no other is sent its own input only. */
  lemma {:induction false} OwnInput(c: Codec, calls: seq<Call>, i: nat)
    requires i < |calls| && calls[i].announced
    requires forall j :: 0 <= j < |calls| && j != i && calls[j].announced ==> calls[j].index != calls[i].index
    ensures InputsPassed(c, calls, calls[i].index) == InputPassed(c, calls[i], calls[i].index)
    decreases |calls|
  {
    if i == 0 {
      NoInput(c, calls[1..], calls[0].index);
    } else {
      OwnInput(c, calls[1..], i - 1);
    }
  }

  lemma {:induction false} NoInput(c: Codec, calls: seq<Call>, index: nat)
    requires forall j :: 0 <= j < |calls| && calls[j].announced ==> calls[j].index != index
    ensures InputsPassed(c, calls, index) == []
    decreases |calls|
  {
    if calls != [] {
      NoInput(c, calls[1..], index);
    }
  }

  lemma MatchingItem(cfg: Config, call: Call, heard: seq<Delta>, i: nat)
    requires CallMatches(cfg, call, heard, i) && call.announced
    ensures WithoutId(DoneItem(cfg.codec, call)) == CallItem(cfg, heard, i, "")
  {
  }

  lemma {:induction false} AnnouncedAreExpected(cfg: Config, calls: seq<Call>, heard: seq<Delta>, i: nat)
    requires Matches(cfg, calls, heard) && i <= |calls|
    ensures AnnouncedItems(cfg.codec, calls[i..]) == ExpectedCalls(cfg, heard, i)
    decreases |calls| - i
  {
    if i < |calls| {
      assert calls[i..][0] == calls[i] && calls[i..][1..] == calls[i + 1..];
      AnnouncedAreExpected(cfg, calls, heard, i + 1);
      assert CallMatches(cfg, calls[i], heard, i);
      if calls[i].announced {
        MatchingItem(cfg, calls[i], heard, i);
      }
    }
  }

  ghost predicate OwnIndices(calls: seq<Call>) {
    && (forall i :: 0 <= i < |calls| && calls[i].announced ==> calls[i].id != "")
    && (forall i, j :: 0 <= i < j < |calls| && calls[i].announced && calls[j].announced ==>
          calls[i].index != calls[j].index)
  }

  /** The `done` event of a call reports it. */
  lemma ClosedCallReports(cfg: Config, s: State, r: State, i: nat, k: nat)
    requires Matches(cfg, s.calls, s.heard) && Streams(s) && OwnIndices(s.calls)
    requires i < |s.calls| && s.calls[i].announced && k < |r.events|
    requires r.events[k].body == ItemDone(s.calls[i].index, DoneItem(cfg.codec, s.calls[i]))
    requires DeltasAt(r.events, s.calls[i].index)
          == DeltasAt(s.events, s.calls[i].index) + InputsPassed(cfg.codec, s.calls, s.calls[i].index)
    ensures ReportedAt(cfg, r.events, s.heard, i, k)
  {
    var call := s.calls[i];
    assert CallMatches(cfg, call, s.heard, i) && CallStreams(s.events, call, s.heard, i);
    MatchingItem(cfg, call, s.heard, i);
    OwnInput(cfg.codec, s.calls, i);
    assert DeltasAt(s.events, call.index) + [] == DeltasAt(s.events, call.index);
  }

  /** With the text closed, closing the calls assembles the response. */
  lemma ClosingAssembles(cfg: Config, s: State, r: State, at: seq<nat>)
    requires Matches(cfg, s.calls, s.heard) && Streams(s) && CallsIn(s.output) == [] && OwnIndices(s.calls)
    requires CallsIn(r.output) == AnnouncedItems(cfg.codec, s.calls) && r.heard == s.heard
    requires ClosedAt(cfg.codec, s.calls, |s.events|, r.events, at)
    requires forall index: nat ::
               DeltasAt(r.events, index) == DeltasAt(s.events, index) + InputsPassed(cfg.codec, s.calls, index)
    ensures Assembled(cfg, r)
  {
    assert s.calls[0..] == s.calls;
    AnnouncedAreExpected(cfg, s.calls, s.heard, 0);
    var places := map i: nat | i < |s.calls| && Known(s.heard, i) :: at[i];
    forall i | i in places
      ensures s.calls[i].announced && ReportedAt(cfg, r.events, r.heard, i, places[i])
    {
      assert CallMatches(cfg, s.calls[i], s.heard, i);
      ClosedCallReports(cfg, s, r, i, at[i]);
    }
    assert ReportedBy(cfg, r.events, r.heard, places);
  }

  lemma AnnouncedHaveIds(s: State)
    requires Conformance.Live(s, s.calls)
    ensures OwnIndices(s.calls)
  {
    forall i | 0 <= i < |s.calls| && s.calls[i].announced
      ensures s.calls[i].id != ""
    {
      assert Conformance.HoldsCall(C.Replay(s.events).value, s.calls[i]);
    }
  }

  lemma QuietAssembles(cfg: Config, s: State, r: State)
    requires Assembling(cfg, s)
    requires r.calls == s.calls && r.heard == s.heard && r.nextIndex >= s.nextIndex && SameDeltas(s.events, r.events)
    requires CallsIn(r.output) == []
    ensures Matches(cfg, r.calls, r.heard) && Streams(r)
  {
    forall i | 0 <= i < |r.calls|
      ensures CallStreams(r.events, r.calls[i], r.heard, i)
    {
      assert CallStreams(s.events, s.calls[i], s.heard, i);
    }
  }

  lemma ReportStays(cfg: Config, a: seq<Event>, b: seq<Event>, heard: seq<Delta>, i: nat, k: nat)
    requires ReportedAt(cfg, a, heard, i, k) && Extends(a, b) && SameDeltas(a, b)
    ensures ReportedAt(cfg, b, heard, i, k)
  {
    assert b[k] == a[k];
    assert DeltasAt(b, a[k].body.index) == DeltasAt(a, a[k].body.index);
  }

  /** The last event keeps what is assembled. */
  lemma EndingKeepsAssembled(cfg: Config, s: State, r: State)
    requires Assembled(cfg, s) && r.output == s.output && r.heard == s.heard
    requires Extends(s.events, r.events) && SameDeltas(s.events, r.events)
    ensures Assembled(cfg, r)
  {
    var at: map<nat, nat> :| ReportedBy(cfg, s.events, s.heard, at);
    forall i | i in at
      ensures ReportedAt(cfg, r.events, r.heard, i, at[i])
    {
      ReportStays(cfg, s.events, r.events, s.heard, i, at[i]);
    }
    assert ReportedBy(cfg, r.events, r.heard, at);
  }

  /** Ready for its calls to be closed. */
  ghost predicate Quiet(cfg: Config, s: State) {
    Matches(cfg, s.calls, s.heard) && Streams(s) && CallsIn(s.output) == [] && OwnIndices(s.calls)
  }

  lemma ClosingTextIsQuiet(cfg: Config, s: State)
    requires Assembling(cfg, s)
    ensures Quiet(cfg, CloseMessage(CloseReasoning(s)))
  {
    ClosingBothIsQuiet(s);
    ClosedTextIsNoCall(s);
    ClosedTextIsNoCall(CloseReasoning(s));
    QuietAssembles(cfg, s, CloseMessage(CloseReasoning(s)));
    AnnouncedHaveIds(s);
  }

  lemma ClosingCallsAssembles(cfg: Config, quiet: State)
    requires Quiet(cfg, quiet)
    ensures Assembled(cfg, CloseCalls(cfg.codec, quiet.(calls := []), quiet.calls))
  {
    var at := CallsAreReported(cfg.codec, quiet.(calls := []), quiet.calls);
    ClosingAssembles(cfg, quiet, CloseCalls(cfg.codec, quiet.(calls := []), quiet.calls), at);
  }

  lemma CloseAllAssembles(cfg: Config, s: State)
    requires Assembling(cfg, s)
    ensures Assembled(cfg, CloseAll(cfg.codec, s))
  {
    ClosingTextIsQuiet(cfg, s);
    ClosingCallsAssembles(cfg, CloseMessage(CloseReasoning(s)));
  }

  lemma CompletionAssembles(cfg: Config, s: State, truncated: bool)
    requires Assembling(cfg, s)
    ensures Assembled(cfg, Complete(cfg, s, truncated))
  {
    CloseAllAssembles(cfg, s);
    var closed := CloseAll(cfg.codec, s);
    var envelope := EnvelopeOf(closed, if truncated then Truncated else Finished, true);
    EmitQuietly(closed, if truncated then Incomplete(envelope) else Completed(envelope));
    EndingKeepsAssembled(cfg, closed, Complete(cfg, s, truncated));
  }

  // ----- runs -----

  /** Before the first chunk, while assembling, and after the end. */
  ghost predicate Tracked(cfg: Config, s: State) {
    Conformance.Conforms(s)
    && if s.terminated then s.events[|s.events| - 1].body.Error? || Assembled(cfg, s)
       else if s.started then Assembling(cfg, s)
       else s.heard == [] && s.nextIndex == 0
  }

  lemma MeteringTracks(cfg: Config, s: State, chunk: Chunk)
    requires Tracked(cfg, s) && !s.terminated
    ensures Assembling(cfg, Metered(cfg, s, chunk))
  {
    Conformance.MeteredConforms(cfg, s, chunk);
    if !s.started {
      FirstEventsAreQuiet(cfg, s, chunk);
    }
  }

  lemma FirstEventsAreQuiet(cfg: Config, s: State, chunk: Chunk)
    requires !s.started && s.events == []
    ensures var r := Metered(cfg, s, chunk);
            && (forall index: nat :: DeltasAt(r.events, index) == [])
            && r.calls == s.calls && r.output == s.output && r.heard == s.heard && r.nextIndex == s.nextIndex
            && r.reasoning == s.reasoning && r.message == s.message
  {
    var stem := SanitizeIdentifier(if chunk.id != "" then chunk.id else cfg.requestKey);
    var named := s.(started := true, idStem := stem, responseId := "resp_" + stem,
                    model := if chunk.model != "" then chunk.model else s.model);
    var envelope := EnvelopeOf(named, Running, false);
    EmitTwiceQuietly(named, Created(envelope), InProgress(envelope));
    forall index: nat
      ensures DeltasAt(s.events, index) == []
    {
    }
  }

  lemma DeltasAssemble(cfg: Config, s: State, chunk: Chunk)
    requires Assembling(cfg, s)
    ensures Assembling(cfg, TakeDeltas(cfg, s, chunk))
  {
    if chunk.reasoning != "" {
      ReasoningAssembles(cfg, s, chunk.reasoning);
    }
    var thought := TakeReasoning(s, chunk.reasoning);
    if chunk.content != "" {
      SpeechAssembles(cfg, thought, chunk.content);
    }
    CallsAssemble(cfg, TakeContent(thought, chunk.content), chunk.calls);
  }

  lemma FailureIsTracked(cfg: Config, s: State, message: string)
    requires Tracked(cfg, s)
    ensures Tracked(cfg, Fail(s, message))
  {
    Conformance.FailureConforms(s, message);
  }

  lemma CompletionIsTracked(cfg: Config, s: State, truncated: bool)
    requires Assembling(cfg, s)
    ensures Tracked(cfg, Complete(cfg, s, truncated))
  {
    Conformance.CompletionConforms(cfg, s, truncated);
    CompletionAssembles(cfg, s, truncated);
  }

  lemma AssemblingIsTracked(cfg: Config, s: State)
    requires Assembling(cfg, s)
    ensures Tracked(cfg, s)
  {
  }

  lemma ChunkIsTracked(cfg: Config, s: State, chunk: Chunk)
    requires Tracked(cfg, s) && !s.terminated
    ensures Tracked(cfg, HandleChunk(cfg, s, chunk))
  {
    if chunk.error.Some? {
      FailureIsTracked(cfg, s, chunk.error.value);
    } else {
      MeteringTracks(cfg, s, chunk);
      DeltasAssemble(cfg, Metered(cfg, s, chunk), chunk);
      var called := TakeDeltas(cfg, Metered(cfg, s, chunk), chunk);
      AssemblingIsTracked(cfg, called);
      if chunk.finish != "" {
        CompletionIsTracked(cfg, called, chunk.finish == "length");
      }
    }
  }

  lemma DataIsTracked(cfg: Config, s: State, data: Bytes)
    requires Tracked(cfg, s) && !s.terminated
    ensures Tracked(cfg, HandleData(cfg, s, data))
  {
    if data != "" {
      if cfg.codec.trim(data) == "[DONE]" {
        if s.started {
          CompletionIsTracked(cfg, s, false);
        } else {
          FailureIsTracked(cfg, s, NO_CONTENT);
        }
      } else {
        match cfg.codec.parse(data)
        case None => FailureIsTracked(cfg, s, BAD_JSON);
        case Some(v) => ChunkIsTracked(cfg, s, ReadChunk(v));
      }
    }
  }

  lemma {:induction false} DrainIsTracked(cfg: Config, x: Intake)
    requires Tracked(cfg, x.state) && !x.state.terminated
    ensures Tracked(cfg, Drain(cfg, x).state)
    decreases |x.buffer|
  {
    match Framing.EagerFrameLen(x.buffer)
    case None =>
    case Some(n) =>
      var frame := x.buffer[..n];
      if cfg.codec.utf8(frame) {
        DataIsTracked(cfg, x.state, DataOf("", frame));
      } else {
        FailureIsTracked(cfg, x.state, NOT_UTF8);
      }
      var next := Intake(HandleFrame(cfg, x.state, frame), x.buffer[n..], x.taken + [frame]);
      if !next.state.terminated {
        DrainIsTracked(cfg, next);
      }
  }

  lemma {:induction false} PushAllIsTracked(cfg: Config, x: Intake, chunks: seq<Bytes>)
    requires Tracked(cfg, x.state)
    ensures Tracked(cfg, PushAll(cfg, x, chunks).state)
    decreases |chunks|
  {
    if chunks != [] && !x.state.finished {
      if !x.state.terminated {
        if |x.buffer| + |chunks[0]| > cfg.maxBuffered {
          FailureIsTracked(cfg, x.state, TOO_LARGE);
        } else {
          DrainIsTracked(cfg, x.(buffer := x.buffer + chunks[0]));
        }
      }
      PushAllIsTracked(cfg, Push(cfg, x, chunks[0]), chunks[1..]);
    }
  }

  lemma RunIsTracked(cfg: Config, chunks: seq<Bytes>, end: End)
    ensures Tracked(cfg, Run(cfg, chunks, end).state)
  {
    PushAllIsTracked(cfg, Begin(cfg), chunks);
    var pushed := PushAll(cfg, Begin(cfg), chunks).state;
    if !pushed.finished {
      FailureIsTracked(cfg, pushed, if end.Broken? then end.message else ENDED_EARLY);
    }
    Conformance.RunConforms(cfg, chunks, end);
  }

  lemma CompletedIsAssembled(cfg: Config, s: State, response: Envelope)
    requires Tracked(cfg, s) && Conservation.CompletedWith(s.events, response)
    requires C.Replay(s.events).Some? && s.terminated
    ensures Assembled(cfg, s) && response.output == s.output
  {
    C.CompletedStream(s.events, response, 0);
  }

  /** At every completion the calls in `output` are the known calls of the
      fragments taken, by index, each with its own argument text in arrival
      order. Each was reported by a `done` event of its own, in this order: a
      function call with deltas that add up to the text received from its
      announcement on, a free-form call with one delta, its input. */
  lemma ToolCallReassembly(cfg: Config, chunks: seq<Bytes>, end: End, response: Envelope)
    requires Conservation.CompletedWith(Run(cfg, chunks, end).state.events, response)
    ensures var x := Run(cfg, chunks, end);
            var heard := Conservation.FramesDeltas(cfg, x.taken);
            CallsIn(response.output) == ExpectedCalls(cfg, heard, 0) && Reported(cfg, x.state.events, heard)
  {
    RunIsTracked(cfg, chunks, end);
    Conservation.RunIsFaithful(cfg, chunks, end);
    CompletedIsAssembled(cfg, Run(cfg, chunks, end).state, response);
  }

  // ----- when the deltas tell the whole call -----

  lemma {:induction false} EarlyThenStreamed(heard: seq<Delta>, i: nat)
    ensures Arguments(heard, i) == Early(heard, i) + Streamed(heard, i)
  {
    if heard != [] {
      EarlyThenStreamed(Before(heard), i);
      if OfCall(Last(heard), i) && !Known(heard, i) {
        UnknownStreamsNothing(heard, i);
        assert Streamed(Before(heard), i) == "";
      }
    }
  }

  /** The deltas of a function call add up to its final arguments if and only
      if no argument text came before the call was known, and some came. */
  lemma DeltasAreComplete(cfg: Config, heard: seq<Delta>, i: nat)
    requires !Freeform(cfg, heard, i)
    ensures Streamed(heard, i) == CallItem(cfg, heard, i, "").arguments
       <==> Early(heard, i) == "" && Arguments(heard, i) != ""
  {
    EarlyThenStreamed(heard, i);
    if Early(heard, i) != "" {
      assert |Arguments(heard, i)| > |Streamed(heard, i)|;
    }
  }

  /** Argument text that comes before the call is known is delivered, but not
      as a delta. */
  lemma EarlyArgumentsExample(cfg: Config)
    requires "n" !in cfg.tools.freeform
    ensures var heard := [Tool(Fragment(0, "", "", "x")), Tool(Fragment(0, "c", "n", ""))];
            Streamed(heard, 0) == "" && CallItem(cfg, heard, 0, "").arguments == "x"
  {
    var first, second := Tool(Fragment(0, "", "", "x")), Tool(Fragment(0, "c", "n", ""));
    assert Before([first]) == [] && Before([first, second]) == [first];
    OwnFragment([], first.fragment);
    OwnFragment([first], second.fragment);
    assert [] + [first] == [first] && [first] + [second] == [first, second];
  }
}
