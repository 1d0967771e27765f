/** Every run of the synthesizer is accepted by the strict client. */
module Conformance {
  import opened Prelude
  import opened Json
  import opened Responses
  import opened Synthesizer
  import Framing
  import C = Client

  // ----- what the client holds while a response is under way -----

  ghost predicate HoldsReasoning(v: C.View, t: Option<TextItem>) {
    t.Some? ==> t.value.index in v.open
                && v.open[t.value.index] == C.OpenItem(Reasoning(t.value.id, []), C.Receiving, t.value.text)
  }

  ghost predicate HoldsMessage(v: C.View, t: Option<TextItem>) {
    t.Some? ==> t.value.index in v.open
                && v.open[t.value.index] == C.OpenItem(Message(t.value.id, false, []), C.Receiving, t.value.text)
  }

  /** An announced call is open with part of its arguments received; one that
      is not announced has an index the client never saw. */
  ghost predicate HoldsCall(v: C.View, call: Call) {
    if call.announced then
      && call.id != "" && call.encodedName != "" && call.callId != ""
      && call.index in v.open
      && v.open[call.index].added == AddedItem(call)
      && v.open[call.index].stage == C.Receiving
      && if call.freeform then v.open[call.index].text == "" else C.IsSuffix(v.open[call.index].text, call.arguments)
    else call.id != "" ==> call.index !in v.seen
  }

  predicate Uses(t: Option<TextItem>, i: nat) { t.Some? && t.value.index == i }

  ghost predicate CallOwns(calls: seq<Call>, i: nat) {
    exists j :: 0 <= j < |calls| && calls[j].announced && calls[j].index == i
  }

  /** No two open things share an output index. */
  ghost predicate Separate(s: State, calls: seq<Call>) {
    && (s.reasoning.Some? ==> s.message.None? && s.reasoning.value.index < s.nextIndex)
    && (s.message.Some? ==> s.message.value.index < s.nextIndex)
    && (forall j :: 0 <= j < |calls| && calls[j].id != "" ==>
          calls[j].index < s.nextIndex && !Uses(s.reasoning, calls[j].index) && !Uses(s.message, calls[j].index))
    && (forall j, k :: 0 <= j < k < |calls| && calls[j].id != "" && calls[k].id != "" ==>
          calls[j].index != calls[k].index)
  }

  /** The client's view `v` mirrors the state, `calls` being the calls not yet
      closed. */
  ghost predicate Mirrors(s: State, calls: seq<Call>, v: C.View) {
    && v.next == s.sequence && !v.ended && v.live && v.done == s.output
    && v.id == Some(s.responseId) && C.GoodId(s.responseId)
    && Separate(s, calls)
    && (forall i :: i in v.seen ==> i < s.nextIndex)
    && (forall i :: i in v.open ==> i in v.seen && (Uses(s.reasoning, i) || Uses(s.message, i) || CallOwns(calls, i)))
    && HoldsReasoning(v, s.reasoning) && HoldsMessage(v, s.message)
    && (forall j :: 0 <= j < |calls| ==> HoldsCall(v, calls[j]))
  }

  ghost predicate Live(s: State, calls: seq<Call>) {
    && s.started && !s.terminated && !s.finished
    && C.Replay(s.events).Some? && Mirrors(s, calls, C.Replay(s.events).value)
  }

  /** The three situations of a run: nothing emitted yet, under way, over. */
  ghost predicate Conforms(s: State) {
    if s.terminated then
      && s.finished && C.Replay(s.events).Some?
      && C.Replay(s.events).value.ended && C.Replay(s.events).value.done == s.output
      && s.events != [] && (s.events[|s.events| - 1].body.Error? || (s.reasoning.None? && s.message.None?))
    else if s.started then Live(s, s.calls)
    else
      && !s.finished && s.events == [] && s.sequence == 0 && s.responseId == "" && s.output == []
      && s.calls == [] && s.reasoning.None? && s.message.None?
  }

  // ----- one event -----

  lemma Emitted(s: State, body: Body, v: C.View, w: C.View)
    requires C.Replay(s.events) == Some(v) && !v.ended && v.next == s.sequence
    requires C.Act(v, body) == Some(w)
    ensures C.Replay(Emit(s, body).events) == Some(w.(next := v.next + 1))
  {
    C.ReplayStep(s.events, Event(s.sequence, body));
  }

  lemma ActIgnoresNext(v: C.View, n: nat, body: Body)
    ensures C.Act(v.(next := n), body)
         == (match C.Act(v, body)
             case None => None
             case Some(w) => Some(w.(next := n)))
  {
  }

  lemma EmittedTwice(s: State, a: Body, b: Body, v: C.View, x: C.View, w: C.View)
    requires C.Replay(s.events) == Some(v) && !v.ended && !x.ended && v.next == s.sequence
    requires C.Act(v, a) == Some(x) && C.Act(x, b) == Some(w)
    ensures C.Replay(Emit(Emit(s, a), b).events) == Some(w.(next := v.next + 2))
  {
    Emitted(s, a, v, x);
    ActIgnoresNext(x, v.next + 1, b);
    Emitted(Emit(s, a), b, x.(next := v.next + 1), w.(next := v.next + 1));
  }

  lemma EmittedThrice(s: State, a: Body, b: Body, c: Body, v: C.View, x: C.View, y: C.View, w: C.View)
    requires C.Replay(s.events) == Some(v) && !v.ended && !x.ended && !y.ended && v.next == s.sequence
    requires C.Act(v, a) == Some(x) && C.Act(x, b) == Some(y) && C.Act(y, c) == Some(w)
    ensures C.Replay(Emit(Emit(Emit(s, a), b), c).events) == Some(w.(next := v.next + 3))
  {
    EmittedTwice(s, a, b, v, x, y);
    ActIgnoresNext(y, v.next + 2, c);
    Emitted(Emit(Emit(s, a), b), c, y.(next := v.next + 2), w.(next := v.next + 2));
  }

  /** Between the two views only item `i` has opened, changed or closed. */
  ghost predicate OnlyAt(v: C.View, w: C.View, i: nat) {
    && v.seen <= w.seen <= v.seen + {i}
    && (forall k :: k in v.open && k != i ==> k in w.open && w.open[k] == v.open[k])
    && (forall k :: k in w.open && k != i ==> k in v.open)
    && (i in w.open ==> i in w.seen)
    && w.id == v.id && w.live == v.live && !w.ended
  }

  /** A text item opened, grew or closed. */
  lemma TextChanges(s: State, t: State, calls: seq<Call>, v: C.View, w: C.View, i: nat)
    requires Mirrors(s, calls, v) && OnlyAt(v, w, i)
    requires w.next == t.sequence && w.done == t.output && t.responseId == s.responseId
    requires Separate(t, calls) && s.nextIndex <= t.nextIndex && i < t.nextIndex
    requires forall j :: 0 <= j < |calls| && calls[j].id != "" ==> calls[j].index != i
    requires HoldsReasoning(w, t.reasoning) && HoldsMessage(w, t.message)
    requires forall k :: k != i && (Uses(s.reasoning, k) || Uses(s.message, k)) ==>
               Uses(t.reasoning, k) || Uses(t.message, k)
    requires i in w.open ==> Uses(t.reasoning, i) || Uses(t.message, i)
    ensures Mirrors(t, calls, w)
  {
    forall j | 0 <= j < |calls|
      ensures HoldsCall(w, calls[j])
    {
      assert HoldsCall(v, calls[j]);
    }
  }

  // ----- closing and opening text -----

  lemma ReasoningClosing(v: C.View, t: TextItem) returns (x: C.View, y: C.View, w: C.View)
    requires HoldsReasoning(v, Some(t)) && !v.ended
    ensures C.Act(v, SummaryDone(t.id, t.index, t.text)) == Some(x) && !x.ended
    ensures C.Act(x, SummaryPartDone(t.id, t.index, t.text)) == Some(y) && !y.ended
    ensures C.Act(y, ItemDone(t.index, Reasoning(t.id, [t.text]))) == Some(w)
    ensures w == v.(open := w.open, done := v.done + [Reasoning(t.id, [t.text])])
    ensures t.index !in w.open && OnlyAt(v, w, t.index)
  {
    x := C.Update(v, t.index, C.Said, t.text);
    y := C.Update(x, t.index, C.Wrapped, t.text);
    w := y.(open := y.open - {t.index}, done := y.done + [Reasoning(t.id, [t.text])]);
  }

  lemma ReasoningCloses(s: State, calls: seq<Call>)
    requires Live(s, calls)
    ensures Live(CloseReasoning(s), calls) && CloseReasoning(s).reasoning.None?
  {
    if s.reasoning.Some? {
      var t := s.reasoning.value;
      var v := C.Replay(s.events).value;
      var x, y, w := ReasoningClosing(v, t);
      EmittedThrice(s.(reasoning := None), SummaryDone(t.id, t.index, t.text), SummaryPartDone(t.id, t.index, t.text),
                    ItemDone(t.index, Reasoning(t.id, [t.text])), v, x, y, w);
      TextChanges(s, CloseReasoning(s), calls, v, w.(next := v.next + 3), t.index);
    }
  }

  lemma MessageClosing(v: C.View, t: TextItem) returns (x: C.View, y: C.View, w: C.View)
    requires HoldsMessage(v, Some(t)) && !v.ended
    ensures C.Act(v, TextDone(t.id, t.index, t.text)) == Some(x) && !x.ended
    ensures C.Act(x, ContentPartDone(t.id, t.index, t.text)) == Some(y) && !y.ended
    ensures C.Act(y, ItemDone(t.index, Message(t.id, true, [t.text]))) == Some(w)
    ensures w == v.(open := w.open, done := v.done + [Message(t.id, true, [t.text])])
    ensures t.index !in w.open && OnlyAt(v, w, t.index)
  {
    x := C.Update(v, t.index, C.Said, t.text);
    y := C.Update(x, t.index, C.Wrapped, t.text);
    w := y.(open := y.open - {t.index}, done := y.done + [Message(t.id, true, [t.text])]);
  }

  lemma MessageCloses(s: State, calls: seq<Call>)
    requires Live(s, calls)
    ensures Live(CloseMessage(s), calls) && CloseMessage(s).message.None?
  {
    if s.message.Some? {
      var t := s.message.value;
      var v := C.Replay(s.events).value;
      var x, y, w := MessageClosing(v, t);
      EmittedThrice(s.(message := None), TextDone(t.id, t.index, t.text), ContentPartDone(t.id, t.index, t.text),
                    ItemDone(t.index, Message(t.id, true, [t.text])), v, x, y, w);
      TextChanges(s, CloseMessage(s), calls, v, w.(next := v.next + 3), t.index);
    }
  }

  /** A fresh item index opens with its first part. */
  lemma TextItemOpens(v: C.View, i: nat, item: Item) returns (bare: C.View, w: C.View)
    requires i !in v.seen && i !in v.open && C.TextItem(item) && C.Empty(item)
    ensures bare == v.(seen := v.seen + {i}, open := v.open[i := C.OpenItem(item, C.Bare, "")])
    ensures w == v.(seen := v.seen + {i}, open := v.open[i := C.OpenItem(item, C.Receiving, "")])
    ensures C.Add(v, i, item) == Some(bare) && C.Open(bare, i, item.id, item.Reasoning?) == Some(w)
    ensures OnlyAt(v, w, i) || v.ended
  {
    bare := v.(seen := v.seen + {i}, open := v.open[i := C.OpenItem(item, C.Bare, "")]);
    w := C.Update(bare, i, C.Receiving, "");
    assert w.open == v.open[i := C.OpenItem(item, C.Receiving, "")];
  }

  lemma ReasoningOpens(s: State, calls: seq<Call>)
    requires Live(s, calls) && s.reasoning.None? && s.message.None?
    ensures Live(OpenReasoning(s), calls) && OpenReasoning(s).reasoning.Some?
  {
    var v := C.Replay(s.events).value;
    var i := s.nextIndex;
    var item := Reasoning(ItemId(s, "rs", i), []);
    var bare, w := TextItemOpens(v, i, item);
    EmittedTwice(s.(nextIndex := i + 1), ItemAdded(i, item), SummaryPartAdded(item.id, i), v, bare, w);
    TextChanges(s, OpenReasoning(s), calls, v, w.(next := v.next + 2), i);
  }

  lemma MessageOpens(s: State, calls: seq<Call>)
    requires Live(s, calls) && s.reasoning.None? && s.message.None?
    ensures Live(OpenMessage(s), calls) && OpenMessage(s).message.Some?
  {
    var v := C.Replay(s.events).value;
    var i := s.nextIndex;
    var item := Message(ItemId(s, "msg", i), false, []);
    var bare, w := TextItemOpens(v, i, item);
    EmittedTwice(s.(nextIndex := i + 1), ItemAdded(i, item), ContentPartAdded(item.id, i), v, bare, w);
    TextChanges(s, OpenMessage(s), calls, v, w.(next := v.next + 2), i);
  }

  lemma ReasoningExtends(s: State, calls: seq<Call>, delta: string)
    requires Live(s, calls) && s.reasoning.Some?
    ensures Live(ExtendReasoning(s, delta), calls)
  {
    var t := s.reasoning.value;
    var v := C.Replay(s.events).value;
    var w := C.Update(v, t.index, C.Receiving, t.text + delta);
    var s0 := s.(reasoning := Some(t.(text := t.text + delta)), heard := s.heard + [Think(delta)]);
    Emitted(s0, SummaryDelta(t.id, t.index, delta), v, w);
    TextChanges(s, ExtendReasoning(s, delta), calls, v, w.(next := v.next + 1), t.index);
  }

  lemma MessageExtends(s: State, calls: seq<Call>, delta: string)
    requires Live(s, calls) && s.message.Some?
    ensures Live(ExtendMessage(s, delta), calls)
  {
    var t := s.message.value;
    var v := C.Replay(s.events).value;
    var w := C.Update(v, t.index, C.Receiving, t.text + delta);
    var s0 := s.(message := Some(t.(text := t.text + delta)), heard := s.heard + [Say(delta)]);
    Emitted(s0, TextDelta(t.id, t.index, delta), v, w);
    TextChanges(s, ExtendMessage(s, delta), calls, v, w.(next := v.next + 1), t.index);
  }

  lemma ReasoningConforms(s: State, delta: string)
    requires Live(s, s.calls)
    ensures Live(PushReasoning(s, delta), PushReasoning(s, delta).calls)
  {
    MessageCloses(s, s.calls);
    var closed := CloseMessage(s);
    if closed.reasoning.None? {
      ReasoningOpens(closed, s.calls);
      ReasoningExtends(OpenReasoning(closed), s.calls, delta);
    } else {
      ReasoningExtends(closed, s.calls, delta);
    }
  }

  lemma TextConforms(s: State, delta: string)
    requires Live(s, s.calls)
    ensures Live(PushText(s, delta), PushText(s, delta).calls)
  {
    ReasoningCloses(s, s.calls);
    var closed := CloseReasoning(s);
    if closed.message.None? {
      MessageOpens(closed, s.calls);
      MessageExtends(OpenMessage(closed), s.calls, delta);
    } else {
      MessageExtends(closed, s.calls, delta);
    }
  }

  // ----- tool calls -----

  lemma CallsGrow(s: State, index: nat, heard: seq<Delta>)
    requires Live(s, s.calls)
    ensures Live(s.(calls := Grow(s.calls, index), heard := heard), Grow(s.calls, index))
  {
    var grown := Grow(s.calls, index);
    assert forall j :: 0 <= j < |s.calls| ==> grown[j] == s.calls[j];
    assert forall i :: CallOwns(s.calls, i) ==> CallOwns(grown, i);
  }

  lemma CallArrives(s: State, f: Fragment)
    requires Live(s, s.calls)
    ensures Live(Arrive(s, f), Arrive(s, f).calls)
  {
    ReasoningCloses(s, s.calls);
    MessageCloses(CloseReasoning(s), s.calls);
    CallsGrow(CloseMessage(CloseReasoning(s)), f.index, s.heard + [Tool(f)]);
  }

  lemma SameCallOwners(a: seq<Call>, b: seq<Call>)
    requires |a| == |b|
    requires forall j :: 0 <= j < |a| && a[j].announced ==> b[j].announced && a[j].index == b[j].index
    ensures forall k :: CallOwns(a, k) ==> CallOwns(b, k)
  {
    forall k | CallOwns(a, k)
      ensures CallOwns(b, k)
    {
      var j :| 0 <= j < |a| && a[j].announced && a[j].index == k;
      assert b[j].announced;
    }
  }

  lemma CallIsIdentified(s: State, i: nat)
    requires Live(s, s.calls) && i < |s.calls|
    ensures var r := Identify(s, i);
            Live(r, r.calls) && |r.calls| == |s.calls| && r.calls[i].id != ""
  {
    var r := Identify(s, i);
    var v := C.Replay(s.events).value;
    if s.calls[i].id == "" {
      assert HoldsCall(v, s.calls[i]);
      assert r.calls[i].id[0] == 'f';
      SameCallOwners(s.calls, r.calls);
    }
  }

  /** Call `i` changed, keeping its identity. */
  lemma CallChanges(s: State, t: State, i: nat, call: Call, v: C.View, w: C.View)
    requires Mirrors(s, s.calls, v) && i < |s.calls| && t.calls == s.calls[i := call]
    requires t.reasoning == s.reasoning && t.message == s.message && t.nextIndex == s.nextIndex
    requires t.output == s.output && t.responseId == s.responseId
    requires call.id == s.calls[i].id != "" && call.index == s.calls[i].index
    requires OnlyAt(v, w, call.index) && w.next == t.sequence && w.done == v.done
    requires HoldsCall(w, call) && (s.calls[i].announced ==> call.announced)
             && (call.index in w.open ==> call.announced)
    ensures Mirrors(t, t.calls, w)
  {
    SameCallOwners(s.calls, t.calls);
    if call.announced {
      assert t.calls[i].announced;
      assert CallOwns(t.calls, call.index);
    }
    forall j | 0 <= j < |t.calls|
      ensures HoldsCall(w, t.calls[j])
    {
      if j != i {
        assert t.calls[j] == s.calls[j] && HoldsCall(v, s.calls[j]);
      }
    }
  }

  lemma NothingAt(v: C.View, i: nat)
    requires !v.ended && (i in v.open ==> i in v.seen)
    ensures OnlyAt(v, v, i)
  {
  }

  lemma CallIsLabelled(cfg: Config, s: State, f: Fragment)
    requires Live(s, s.calls) && f.index < |s.calls| && s.calls[f.index].id != ""
    ensures Live(Relabel(cfg, s, f), Relabel(cfg, s, f).calls)
  {
    var v := C.Replay(s.events).value;
    var call := Label(cfg, s.calls[f.index], f);
    assert HoldsCall(v, s.calls[f.index]);
    NothingAt(v, call.index);
    assert call.index in v.open ==> call.announced;
    CallChanges(s, Relabel(cfg, s, f), f.index, call, v, v);
  }

  lemma CallIsAnnounced(s: State, i: nat)
    requires Live(s, s.calls) && i < |s.calls| && s.calls[i].id != ""
    ensures var r := Announce(s, i);
            Live(r, r.calls) && |r.calls| == |s.calls|
  {
    if Announceable(s.calls[i]) {
      var was := s.calls[i];
      var call := was.(announced := true);
      var v := C.Replay(s.events).value;
      assert HoldsCall(v, was);
      var item := C.OpenItem(AddedItem(was), C.Receiving, "");
      var w := v.(seen := v.seen + {was.index}, open := v.open[was.index := item]);
      assert C.Add(v, was.index, AddedItem(was)) == Some(w);
      Emitted(s.(calls := s.calls[i := call]), ItemAdded(was.index, AddedItem(was)), v, w);
      CallChanges(s, Announce(s, i), i, call, v, w.(next := v.next + 1));
    }
  }

  lemma SuffixGrows(a: string, b: string, more: string)
    requires C.IsSuffix(a, b)
    ensures C.IsSuffix(a + more, b + more)
  {
    assert (b + more)[|b| - |a|..] == b[|b| - |a|..] + more;
  }

  lemma CallReceives(v: C.View, call: Call, fragment: string) returns (w: C.View)
    requires HoldsCall(v, call) && call.announced && !call.freeform && !v.ended && call.index in v.seen
    ensures call.index in v.open && w == C.Update(v, call.index, C.Receiving, v.open[call.index].text + fragment)
    ensures C.Act(v, ArgumentsDelta(call.id, call.index, fragment)) == Some(w)
    ensures OnlyAt(v, w, call.index) && HoldsCall(w, call.(arguments := call.arguments + fragment))
  {
    w := C.Update(v, call.index, C.Receiving, v.open[call.index].text + fragment);
    SuffixGrows(v.open[call.index].text, call.arguments, fragment);
  }

  lemma CallTakesArguments(s: State, i: nat, fragment: string)
    requires Live(s, s.calls) && i < |s.calls| && s.calls[i].id != ""
    ensures var r := AddArguments(s, i, fragment);
            Live(r, r.calls)
  {
    if fragment != "" {
      var was := s.calls[i];
      var call := was.(arguments := was.arguments + fragment);
      var grown := s.(calls := s.calls[i := call]);
      var v := C.Replay(s.events).value;
      assert HoldsCall(v, was);
      if call.announced && !call.freeform {
        var w := CallReceives(v, was, fragment);
        Emitted(grown, ArgumentsDelta(call.id, call.index, fragment), v, w);
        CallChanges(s, AddArguments(s, i, fragment), i, call, v, w.(next := v.next + 1));
      } else {
        NothingAt(v, call.index);
        CallChanges(s, grown, i, call, v, v);
      }
    }
  }

  lemma CallConforms(cfg: Config, s: State, f: Fragment)
    requires Live(s, s.calls)
    ensures Live(PushCall(cfg, s, f), PushCall(cfg, s, f).calls)
  {
    CallArrives(s, f);
    CallIsIdentified(Arrive(s, f), f.index);
    var known := Identify(Arrive(s, f), f.index);
    CallIsLabelled(cfg, known, f);
    CallIsAnnounced(Relabel(cfg, known, f), f.index);
    CallTakesArguments(Announce(Relabel(cfg, known, f), f.index), f.index, f.arguments);
  }

  lemma {:induction false} CallsConform(cfg: Config, s: State, fragments: seq<Fragment>)
    requires Live(s, s.calls)
    ensures Live(PushCalls(cfg, s, fragments), PushCalls(cfg, s, fragments).calls)
    decreases |fragments|
  {
    if fragments != [] {
      CallConforms(cfg, s, fragments[0]);
      CallsConform(cfg, PushCall(cfg, s, fragments[0]), fragments[1..]);
    }
  }

  // ----- completion -----

  /** Closing the first call leaves the others as they were. */
  lemma FirstCallGone(s: State, t: State, calls: seq<Call>, v: C.View, w: C.View)
    requires calls != [] && Mirrors(s, calls, v) && calls[0].id != "" && OnlyAt(v, w, calls[0].index)
    requires t.reasoning == s.reasoning && t.message == s.message && t.nextIndex == s.nextIndex
             && t.responseId == s.responseId
    requires w.next == t.sequence && w.done == t.output && calls[0].index !in w.open
    requires calls[0].index < s.nextIndex
    ensures Mirrors(t, calls[1..], w)
  {
    forall j | 0 <= j < |calls[1..]|
      ensures HoldsCall(w, calls[1..][j])
    {
      assert calls[1..][j] == calls[j + 1] && HoldsCall(v, calls[j + 1]);
    }
    forall i | i in w.open
      ensures Uses(t.reasoning, i) || Uses(t.message, i) || CallOwns(calls[1..], i)
    {
      if CallOwns(calls, i) {
        var j :| 0 <= j < |calls| && calls[j].announced && calls[j].index == i;
        assert calls[1..][j - 1] == calls[j];
      }
    }
  }

  lemma FunctionClosing(c: Codec, v: C.View, call: Call) returns (x: C.View, w: C.View)
    requires HoldsCall(v, call) && call.announced && !call.freeform && !v.ended
    ensures C.Act(v, ArgumentsDone(call.id, call.index, FinalArguments(call))) == Some(x) && !x.ended
    ensures C.Act(x, ItemDone(call.index, DoneItem(c, call))) == Some(w)
    ensures w == v.(open := w.open, done := v.done + [DoneItem(c, call)])
    ensures call.index !in w.open && OnlyAt(v, w, call.index)
  {
    x := C.Update(v, call.index, C.Said, FinalArguments(call));
    w := x.(open := x.open - {call.index}, done := x.done + [DoneItem(c, call)]);
  }

  lemma FunctionCloses(c: Codec, s: State, calls: seq<Call>)
    requires calls != [] && Live(s, calls) && calls[0].announced && !calls[0].freeform
    ensures Live(CloseCall(c, s, calls[0]), calls[1..])
  {
    var call, v := calls[0], C.Replay(s.events).value;
    assert HoldsCall(v, call);
    var x, w := FunctionClosing(c, v, call);
    EmittedTwice(s, ArgumentsDone(call.id, call.index, FinalArguments(call)), ItemDone(call.index, DoneItem(c, call)),
                 v, x, w);
    FirstCallGone(s, CloseCall(c, s, call), calls, v, w.(next := v.next + 2));
  }

  lemma FreeformClosing(c: Codec, v: C.View, call: Call, input: string) returns (x: C.View, y: C.View, w: C.View)
    requires HoldsCall(v, call) && call.announced && call.freeform && !v.ended
             && input == FreeformInput(c, call.arguments)
    ensures C.Act(v, InputDelta(call.id, call.index, input)) == Some(x) && !x.ended
    ensures C.Act(x, InputDone(call.id, call.index, input)) == Some(y) && !y.ended
    ensures C.Act(y, ItemDone(call.index, DoneItem(c, call))) == Some(w)
    ensures w == v.(open := w.open, done := v.done + [DoneItem(c, call)])
    ensures call.index !in w.open && OnlyAt(v, w, call.index)
  {
    assert "" + input == input;
    x := C.Update(v, call.index, C.Receiving, input);
    y := C.Update(x, call.index, C.Said, input);
    w := y.(open := y.open - {call.index}, done := y.done + [DoneItem(c, call)]);
  }

  lemma FreeformCloses(c: Codec, s: State, calls: seq<Call>)
    requires calls != [] && Live(s, calls) && calls[0].announced && calls[0].freeform
    ensures Live(CloseCall(c, s, calls[0]), calls[1..])
  {
    var call, v := calls[0], C.Replay(s.events).value;
    assert HoldsCall(v, call);
    var input := FreeformInput(c, call.arguments);
    var x, y, w := FreeformClosing(c, v, call, input);
    EmittedThrice(s, InputDelta(call.id, call.index, input), InputDone(call.id, call.index, input),
                  ItemDone(call.index, DoneItem(c, call)), v, x, y, w);
    FirstCallGone(s, CloseCall(c, s, call), calls, v, w.(next := v.next + 3));
  }

  lemma SilentCallGoes(s: State, calls: seq<Call>)
    requires calls != [] && Live(s, calls) && !calls[0].announced
    ensures Live(s, calls[1..])
  {
    var v := C.Replay(s.events).value;
    forall j | 0 <= j < |calls[1..]|
      ensures HoldsCall(v, calls[1..][j])
    {
      assert calls[1..][j] == calls[j + 1] && HoldsCall(v, calls[j + 1]);
    }
    forall i | CallOwns(calls, i)
      ensures CallOwns(calls[1..], i)
    {
      var j :| 0 <= j < |calls| && calls[j].announced && calls[j].index == i;
      assert calls[1..][j - 1] == calls[j];
    }
  }

  lemma {:induction false} AllCallsClose(c: Codec, s: State, calls: seq<Call>)
    requires Live(s, calls)
    ensures Live(CloseCalls(c, s, calls), [])
    ensures CloseCalls(c, s, calls).reasoning == s.reasoning && CloseCalls(c, s, calls).message == s.message
    decreases |calls|
  {
    if calls != [] {
      if !calls[0].announced {
        SilentCallGoes(s, calls);
        AllCallsClose(c, s, calls[1..]);
      } else {
        if calls[0].freeform {
          FreeformCloses(c, s, calls);
        } else {
          FunctionCloses(c, s, calls);
        }
        AllCallsClose(c, CloseCall(c, s, calls[0]), calls[1..]);
      }
    }
  }

  lemma NothingOpenConcludes(s: State, truncated: bool)
    requires Live(s, []) && s.reasoning.None? && s.message.None?
    ensures var envelope := EnvelopeOf(s, if truncated then Truncated else Finished, true);
            var ending := if truncated then Incomplete(envelope) else Completed(envelope);
            var r := Emit(s, ending).(terminated := true, finished := true);
            Conforms(r)
  {
    var v := C.Replay(s.events).value;
    assert forall i :: i !in v.open;
    assert v.open == map[];
    var envelope := EnvelopeOf(s, if truncated then Truncated else Finished, true);
    Emitted(s, if truncated then Incomplete(envelope) else Completed(envelope), v, v.(ended := true));
  }

  lemma CompletionConforms(cfg: Config, s: State, truncated: bool)
    requires Live(s, s.calls)
    ensures Conforms(Complete(cfg, s, truncated)) && Complete(cfg, s, truncated).terminated
  {
    ReasoningCloses(s, s.calls);
    MessageCloses(CloseReasoning(s), s.calls);
    var quiet := CloseMessage(CloseReasoning(s));
    assert Live(quiet.(calls := []), quiet.calls);
    AllCallsClose(cfg.codec, quiet.(calls := []), quiet.calls);
    NothingOpenConcludes(CloseCalls(cfg.codec, quiet.(calls := []), quiet.calls), truncated);
  }

  // ----- starting and failing -----

  lemma {:induction false} KeptCharsAreGraphic(t: string)
    ensures Graphic(KeepIdentifierChars(t))
  {
    if t != "" {
      KeptCharsAreGraphic(t[1..]);
    }
  }

  lemma SanitizedIsGood(t: string)
    ensures C.GoodId("resp_" + SanitizeIdentifier(t))
  {
    KeptCharsAreGraphic(t);
    assert Graphic("unknown") && Graphic("resp_");
  }

  lemma StartConforms(cfg: Config, s: State, chunk: Chunk)
    requires Conforms(s) && !s.terminated
    ensures Live(Start(cfg, s, chunk), Start(cfg, s, chunk).calls)
  {
    if !s.started {
      var stem := SanitizeIdentifier(if chunk.id != "" then chunk.id else cfg.requestKey);
      SanitizedIsGood(if chunk.id != "" then chunk.id else cfg.requestKey);
      var named := s.(started := true, idStem := stem, responseId := "resp_" + stem,
                      model := if chunk.model != "" then chunk.model else s.model);
      var envelope := EnvelopeOf(named, Running, false);
      var x := C.FRESH.(id := Some(named.responseId));
      EmittedTwice(named, Created(envelope), InProgress(envelope), C.FRESH, x, x.(live := true));
    }
  }

  lemma FailureConforms(s: State, message: string)
    requires Conforms(s)
    ensures Conforms(Fail(s, message)) && Fail(s, message).terminated
  {
    if !s.terminated {
      var v := if s.started then C.Replay(s.events).value else C.FRESH;
      Emitted(s, Error(message, if s.responseId == "" then None else Some(s.responseId)), v, v.(ended := true));
    }
  }

  // ----- chunks, frames, runs -----

  lemma LiveConforms(s: State)
    requires Live(s, s.calls)
    ensures Conforms(s)
  {
  }

  lemma DeltasConform(cfg: Config, s: State, chunk: Chunk)
    requires Live(s, s.calls)
    ensures Live(TakeDeltas(cfg, s, chunk), TakeDeltas(cfg, s, chunk).calls)
  {
    if chunk.reasoning != "" {
      ReasoningConforms(s, chunk.reasoning);
    }
    var thought := TakeReasoning(s, chunk.reasoning);
    if chunk.content != "" {
      TextConforms(thought, chunk.content);
    }
    CallsConform(cfg, TakeContent(thought, chunk.content), chunk.calls);
  }

  lemma MeteredConforms(cfg: Config, s: State, chunk: Chunk)
    requires Conforms(s) && !s.terminated
    ensures Live(Metered(cfg, s, chunk), Metered(cfg, s, chunk).calls)
  {
    StartConforms(cfg, s, chunk);
  }

  lemma ChunkConforms(cfg: Config, s: State, chunk: Chunk)
    requires Conforms(s) && !s.terminated
    ensures Conforms(HandleChunk(cfg, s, chunk))
  {
    if chunk.error.Some? {
      FailureConforms(s, chunk.error.value);
    } else {
      MeteredConforms(cfg, s, chunk);
      DeltasConform(cfg, Metered(cfg, s, chunk), chunk);
      var called := TakeDeltas(cfg, Metered(cfg, s, chunk), chunk);
      LiveConforms(called);
      if chunk.finish != "" {
        CompletionConforms(cfg, called, chunk.finish == "length");
      }
    }
  }

  lemma FrameConforms(cfg: Config, s: State, frame: Bytes)
    requires Conforms(s) && !s.terminated
    ensures Conforms(HandleFrame(cfg, s, frame))
  {
    if !cfg.codec.utf8(frame) {
      FailureConforms(s, NOT_UTF8);
    } else {
      DataConforms(cfg, s, DataOf("", frame));
    }
  }

  lemma DataConforms(cfg: Config, s: State, data: Bytes)
    requires Conforms(s) && !s.terminated
    ensures Conforms(HandleData(cfg, s, data))
  {
    if data != "" {
      if cfg.codec.trim(data) == "[DONE]" {
        if s.started {
          CompletionConforms(cfg, s, false);
        } else {
          FailureConforms(s, NO_CONTENT);
        }
      } else {
        match cfg.codec.parse(data)
        case None => FailureConforms(s, BAD_JSON);
        case Some(v) => ChunkConforms(cfg, s, ReadChunk(v));
      }
    }
  }

  lemma {:induction false} DrainConforms(cfg: Config, x: Intake)
    requires Conforms(x.state) && !x.state.terminated
    ensures Conforms(Drain(cfg, x).state)
    decreases |x.buffer|
  {
    match Framing.EagerFrameLen(x.buffer)
    case None =>
    case Some(n) =>
      var frame := x.buffer[..n];
      FrameConforms(cfg, x.state, frame);
      var next := Intake(HandleFrame(cfg, x.state, frame), x.buffer[n..], x.taken + [frame]);
      if !next.state.terminated {
        DrainConforms(cfg, next);
      }
  }

  lemma {:induction false} PushAllConforms(cfg: Config, x: Intake, chunks: seq<Bytes>)
    requires Conforms(x.state)
    ensures Conforms(PushAll(cfg, x, chunks).state)
    decreases |chunks|
  {
    if chunks != [] && !x.state.finished {
      if |x.buffer| + |chunks[0]| > cfg.maxBuffered {
        FailureConforms(x.state, TOO_LARGE);
      } else {
        DrainConforms(cfg, x.(buffer := x.buffer + chunks[0]));
      }
      PushAllConforms(cfg, Push(cfg, x, chunks[0]), chunks[1..]);
    }
  }

  /** Whatever the upstream sends and however it is cut, the strict client
      accepts every event and has seen the stream end. */
  lemma RunConforms(cfg: Config, chunks: seq<Bytes>, end: End)
    ensures var s := Run(cfg, chunks, end).state;
            && Conforms(s) && s.terminated
            && C.Replay(s.events).Some? && C.Replay(s.events).value.ended
  {
    PushAllConforms(cfg, Begin(cfg), chunks);
    var s := PushAll(cfg, Begin(cfg), chunks).state;
    if !s.finished {
      FailureConforms(s, if end.Broken? then end.message else ENDED_EARLY);
    }
  }

  /** The shape of every run: numbered 0, 1, 2, ..., one ending event, last;
      either a lone error or opened by `created` and `in_progress`. */
  lemma RunShape(cfg: Config, chunks: seq<Bytes>, end: End)
    ensures var events := Run(cfg, chunks, end).state.events;
            && events != []
            && (forall i :: 0 <= i < |events| ==>
                  events[i].sequence == i && (Ending(events[i].body) <==> i == |events| - 1))
            && (|events| == 1 ==> events[0].body.Error? && events[0].body.responseId.None?)
            && (|events| > 1 ==> |events| > 2 && events[0].body.Created? && events[1].body.InProgress?)
  {
    RunConforms(cfg, chunks, end);
    var events := Run(cfg, chunks, end).state.events;
    assert events != [] by { assert C.Replay([]) == Some(C.FRESH); }
    forall i | 0 <= i < |events|
      ensures events[i].sequence == i && (Ending(events[i].body) <==> i == |events| - 1)
    {
      C.AcceptedEvents(events, i);
      C.EndedByEnding(events);
    }
    C.Opening(events);
  }
}
