/** The identifiers a synthesized response hands out. */
module Identifiers {
  import opened Prelude
  import opened Json
  import opened Responses
  import opened Synthesizer
  import Framing
  import Conformance
  import Endings

  // ----- sanitized identifiers -----

  predicate Allowed(c: char) {
    'a' <= c <= 'z' || 'A' <= c <= 'Z' || '0' <= c <= '9' || c == '_' || c == '-'
  }

  predicate AllAllowed(t: string) { forall i :: 0 <= i < |t| ==> Allowed(t[i]) }

  lemma Associates(a: string, b: string, c: string)
    ensures (a + b) + c == a + (b + c)
  {
  }

  lemma {:induction false} KeptAppend(a: string, b: string)
    ensures KeepIdentifierChars(a + b) == KeepIdentifierChars(a) + KeepIdentifierChars(b)
  {
    if a == "" {
      assert a + b == b;
    } else {
      assert (a + b)[0] == a[0] && (a + b)[1..] == a[1..] + b;
      KeptAppend(a[1..], b);
      Associates(if IdentifierChar(a[0]) then [a[0]] else "", KeepIdentifierChars(a[1..]), KeepIdentifierChars(b));
    }
  }

  lemma {:induction false} AllowedStay(t: string)
    requires AllAllowed(t)
    ensures KeepIdentifierChars(t) == t
  {
    if t != "" {
      AllowedStay(t[1..]);
    }
  }

  lemma {:induction false} KeptAreAllowed(t: string)
    ensures AllAllowed(KeepIdentifierChars(t))
  {
    if t != "" {
      KeptAreAllowed(t[1..]);
    }
  }

  /** A sanitized identifier has one to 64 letters, digits, underscores and
      hyphens. A text of those is cut to 64 or, when empty, replaced. */
  lemma SanitizedForm(t: string)
    ensures var r := SanitizeIdentifier(t); AllAllowed(r) && 1 <= |r| <= 64
    ensures AllAllowed(t) ==>
              SanitizeIdentifier(t) == if t == "" then "unknown" else if |t| > 64 then t[..64] else t
  {
    KeptAreAllowed(t);
    if AllAllowed(t) {
      AllowedStay(t);
    }
  }

  /** Any other character is as if it were not there. */
  lemma OthersIgnored(before: string, c: char, after: string)
    requires !Allowed(c)
    ensures SanitizeIdentifier(before + [c] + after) == SanitizeIdentifier(before + after)
  {
    KeptAppend(before + [c], after);
    KeptAppend(before, [c]);
    KeptAppend(before, after);
    assert KeepIdentifierChars([c]) == "" by { assert [c][1..] == ""; }
    assert KeepIdentifierChars(before) + "" == KeepIdentifierChars(before);
  }

  // ----- item identifiers -----

  function Digit(c: char): int { c as int - '0' as int }

  /** The number a text of digits writes. */
  function NumberOf(t: string): int {
    if t == "" then 0 else NumberOf(t[..|t| - 1]) * 10 + Digit(t[|t| - 1])
  }

  lemma {:induction false} DecimalReads(n: nat)
    ensures NumberOf(Decimal(n)) == n && forall i :: 0 <= i < |Decimal(n)| ==> '0' <= Decimal(n)[i] <= '9'
  {
    if n < 10 {
      assert Decimal(n)[..0] == "";
    } else {
      DecimalReads(n / 10);
      assert Decimal(n)[..|Decimal(n)| - 1] == Decimal(n / 10);
    }
  }

  function PrefixOf(item: Item): string {
    if item.Reasoning? then "rs_" else if item.Message? then "msg_" else "fc_"
  }

  /** An announced item is named by its kind, the response and its index. */
  predicate ItemNamed(stem: string, index: nat, item: Item) { item.id == PrefixOf(item) + stem + "_" + Decimal(index) }

  predicate AllNamed(events: seq<Event>, stem: string) {
    forall k :: 0 <= k < |events| && events[k].body.ItemAdded? ==>
      ItemNamed(stem, events[k].body.index, events[k].body.item)
  }

  predicate CallsNamed(calls: seq<Call>, stem: string) {
    forall i :: 0 <= i < |calls| && calls[i].id != "" ==> calls[i].id == "fc_" + stem + "_" + Decimal(calls[i].index)
  }

  predicate Naming(s: State) { AllNamed(s.events, s.idStem) && CallsNamed(s.calls, s.idStem) }

  lemma EmitNames(s: State, body: Body)
    requires AllNamed(s.events, s.idStem) && (body.ItemAdded? ==> ItemNamed(s.idStem, body.index, body.item))
    ensures AllNamed(Emit(s, body).events, s.idStem)
  {
  }

  lemma ItemIdReads(s: State, index: nat)
    ensures ItemId(s, "rs", index) == "rs_" + s.idStem + "_" + Decimal(index)
    ensures ItemId(s, "msg", index) == "msg_" + s.idStem + "_" + Decimal(index)
  {
    assert "rs" + "_" == "rs_" && "msg" + "_" == "msg_";
  }

  lemma ClosingNames(s: State)
    requires Naming(s)
    ensures Naming(CloseReasoning(s)) && Naming(CloseMessage(s))
    ensures CloseReasoning(s).idStem == s.idStem && CloseMessage(s).idStem == s.idStem
  {
  }

  lemma OpeningNames(s: State)
    requires Naming(s)
    ensures Naming(OpenReasoning(s)) && Naming(OpenMessage(s))
  {
    ItemIdReads(s, s.nextIndex);
    var t := s.(nextIndex := s.nextIndex + 1);
    EmitNames(t, ItemAdded(s.nextIndex, Reasoning(ItemId(s, "rs", s.nextIndex), [])));
    EmitNames(t, ItemAdded(s.nextIndex, Message(ItemId(s, "msg", s.nextIndex), false, [])));
  }

  lemma ReasoningNames(s: State, text: string)
    requires Naming(s)
    ensures Naming(TakeReasoning(s, text))
  {
    if text != "" {
      ClosingNames(s);
      var closed := CloseMessage(s);
      OpeningNames(closed);
      var ready := if closed.reasoning.None? then OpenReasoning(closed) else closed;
      var t := ready.reasoning.value;
      EmitNames(ready.(reasoning := Some(t.(text := t.text + text)), heard := ready.heard + [Think(text)]),
                SummaryDelta(t.id, t.index, text));
    }
  }

  lemma ContentNames(s: State, text: string)
    requires Naming(s)
    ensures Naming(TakeContent(s, text))
  {
    if text != "" {
      ClosingNames(s);
      var closed := CloseReasoning(s);
      OpeningNames(closed);
      var ready := if closed.message.None? then OpenMessage(closed) else closed;
      var t := ready.message.value;
      EmitNames(ready.(message := Some(t.(text := t.text + text)), heard := ready.heard + [Say(text)]),
                TextDelta(t.id, t.index, text));
    }
  }

  lemma ArrivalNames(s: State, f: Fragment)
    requires Naming(s)
    ensures Naming(Arrive(s, f))
  {
    ClosingNames(s);
    ClosingNames(CloseReasoning(s));
  }

  lemma IdentifyNames(s: State, i: nat)
    requires Naming(s) && i < |s.calls|
    ensures Naming(Identify(s, i)) && Identify(s, i).idStem == s.idStem && |Identify(s, i).calls| == |s.calls|
  {
  }

  lemma RelabelNames(cfg: Config, s: State, f: Fragment)
    requires Naming(s) && f.index < |s.calls|
    ensures Naming(Relabel(cfg, s, f)) && |Relabel(cfg, s, f).calls| == |s.calls|
  {
    LabelKeepsId(cfg, s.calls[f.index], f);
  }

  lemma LabelKeepsId(cfg: Config, call: Call, f: Fragment)
    ensures Label(cfg, call, f).id == call.id && Label(cfg, call, f).index == call.index
  {
  }

  lemma AnnounceNames(s: State, i: nat)
    requires Naming(s) && i < |s.calls| && s.calls[i].id != ""
    ensures Naming(Announce(s, i)) && |Announce(s, i).calls| == |s.calls|
  {
    if Announceable(s.calls[i]) {
      var t := s.(calls := s.calls[i := s.calls[i].(announced := true)]);
      assert PrefixOf(AddedItem(s.calls[i])) == "fc_";
      EmitNames(t, ItemAdded(s.calls[i].index, AddedItem(s.calls[i])));
    }
  }

  lemma ArgumentsNames(s: State, i: nat, text: string)
    requires Naming(s) && i < |s.calls|
    ensures Naming(AddArguments(s, i, text))
  {
  }

  lemma CallNames(cfg: Config, s: State, f: Fragment)
    requires Naming(s)
    ensures Naming(PushCall(cfg, s, f))
  {
    var a := Arrive(s, f);
    ArrivalNames(s, f);
    IdentifyNames(a, f.index);
    var k := Identify(a, f.index);
    RelabelNames(cfg, k, f);
    LabelKeepsId(cfg, k.calls[f.index], f);
    IdentifiedHasId(a, f.index);
    AnnounceNames(Relabel(cfg, k, f), f.index);
    ArgumentsNames(Announce(Relabel(cfg, k, f), f.index), f.index, f.arguments);
  }

  lemma IdentifiedHasId(s: State, i: nat)
    requires i < |s.calls|
    ensures Identify(s, i).calls[i].id != ""
  {
    if s.calls[i].id == "" {
      assert Identify(s, i).calls[i].id[0] == 'f';
    }
  }

  lemma {:induction false} CallsName(cfg: Config, s: State, fragments: seq<Fragment>)
    requires Naming(s)
    ensures Naming(PushCalls(cfg, s, fragments))
    decreases |fragments|
  {
    if fragments != [] {
      CallNames(cfg, s, fragments[0]);
      CallsName(cfg, PushCall(cfg, s, fragments[0]), fragments[1..]);
    }
  }

  lemma {:induction false} ClosingCallsNames(c: Codec, s: State, calls: seq<Call>)
    requires AllNamed(s.events, s.idStem)
    ensures AllNamed(CloseCalls(c, s, calls).events, s.idStem) && CloseCalls(c, s, calls).idStem == s.idStem
    ensures CloseCalls(c, s, calls).calls == s.calls
    decreases |calls|
  {
    if calls != [] {
      var next := if calls[0].announced then CloseCall(c, s, calls[0]) else s;
      CloseCallNames(c, s, calls[0]);
      ClosingCallsNames(c, next, calls[1..]);
    }
  }

  lemma CloseCallNames(c: Codec, s: State, call: Call)
    requires AllNamed(s.events, s.idStem)
    ensures var r := CloseCall(c, s, call); AllNamed(r.events, s.idStem) && r.idStem == s.idStem && r.calls == s.calls
  {
  }

  lemma CompletionNames(cfg: Config, s: State, truncated: bool)
    requires Naming(s)
    ensures Naming(Complete(cfg, s, truncated))
  {
    ClosingNames(s);
    ClosingNames(CloseReasoning(s));
    var quiet := CloseMessage(CloseReasoning(s));
    ClosingCallsNames(cfg.codec, quiet.(calls := []), quiet.calls);
  }

  // ----- runs -----

  lemma MeteringNames(cfg: Config, s: State, chunk: Chunk)
    requires Naming(s) && (!s.started ==> s.events == [] && s.calls == [])
    ensures Naming(Metered(cfg, s, chunk))
  {
  }

  /** Items are announced only once the response has started. */
  predicate Announced(s: State) {
    Naming(s) && (!s.started ==> forall k :: 0 <= k < |s.events| ==> !s.events[k].body.ItemAdded?)
  }

  lemma ChunkStarts(cfg: Config, s: State, chunk: Chunk)
    requires chunk.error.None? && !s.terminated
    ensures HandleChunk(cfg, s, chunk).started
  {
    var begun := Metered(cfg, s, chunk);
    Endings.DeltasKeepName(cfg, begun, chunk);
    if chunk.finish != "" {
      Endings.CompletionShows(cfg, TakeDeltas(cfg, begun, chunk), chunk.finish == "length");
    }
  }

  lemma ChunkNames(cfg: Config, s: State, chunk: Chunk)
    requires Announced(s) && Conformance.Conforms(s) && !s.terminated
    ensures Announced(HandleChunk(cfg, s, chunk))
  {
    if chunk.error.None? {
      ChunkStarts(cfg, s, chunk);
      MeteringNames(cfg, s, chunk);
      var begun := Metered(cfg, s, chunk);
      ReasoningNames(begun, chunk.reasoning);
      ContentNames(TakeReasoning(begun, chunk.reasoning), chunk.content);
      CallsName(cfg, TakeContent(TakeReasoning(begun, chunk.reasoning), chunk.content), chunk.calls);
      if chunk.finish != "" {
        CompletionNames(cfg, TakeDeltas(cfg, begun, chunk), chunk.finish == "length");
      }
    } else {
      FailureNames(s, chunk.error.value);
    }
  }

  lemma FailureNames(s: State, message: string)
    requires Announced(s)
    ensures Announced(Fail(s, message))
  {
  }

  lemma FrameNames(cfg: Config, s: State, frame: Bytes)
    requires Announced(s) && Conformance.Conforms(s) && !s.terminated
    ensures Announced(HandleFrame(cfg, s, frame))
  {
    if !cfg.codec.utf8(frame) {
      FailureNames(s, NOT_UTF8);
    } else {
      DataNames(cfg, s, DataOf("", frame));
    }
  }

  lemma DataNames(cfg: Config, s: State, data: Bytes)
    requires Announced(s) && Conformance.Conforms(s) && !s.terminated
    ensures Announced(HandleData(cfg, s, data))
  {
    if data != "" {
      if cfg.codec.trim(data) == "[DONE]" {
        if s.started {
          CompletionNames(cfg, s, false);
          Endings.CompletionShows(cfg, s, false);
        } else {
          FailureNames(s, NO_CONTENT);
        }
      } else if cfg.codec.parse(data).None? {
        FailureNames(s, BAD_JSON);
      } else {
        ChunkNames(cfg, s, ReadChunk(cfg.codec.parse(data).value));
      }
    }
  }

  lemma {:induction false} DrainNames(cfg: Config, x: Intake)
    requires Announced(x.state) && Conformance.Conforms(x.state) && !x.state.terminated
    ensures Announced(Drain(cfg, x).state)
    decreases |x.buffer|
  {
    match Framing.EagerFrameLen(x.buffer)
    case None =>
    case Some(n) =>
      var frame := x.buffer[..n];
      FrameNames(cfg, x.state, frame);
      Conformance.FrameConforms(cfg, x.state, frame);
      var next := Intake(HandleFrame(cfg, x.state, frame), x.buffer[n..], x.taken + [frame]);
      if !next.state.terminated {
        DrainNames(cfg, next);
      }
  }

  lemma {:induction false} PushAllNames(cfg: Config, x: Intake, chunks: seq<Bytes>)
    requires Announced(x.state) && Conformance.Conforms(x.state)
    ensures Announced(PushAll(cfg, x, chunks).state)
    decreases |chunks|
  {
    if chunks != [] && !x.state.finished {
      var next := Push(cfg, x, chunks[0]);
      if |x.buffer| + |chunks[0]| > cfg.maxBuffered {
        FailureNames(x.state, TOO_LARGE);
      } else if !x.state.terminated {
        DrainNames(cfg, x.(buffer := x.buffer + chunks[0]));
      }
      PushConforms(cfg, x, chunks[0]);
      PushAllNames(cfg, next, chunks[1..]);
    }
  }

  lemma PushConforms(cfg: Config, x: Intake, chunk: Bytes)
    requires Conformance.Conforms(x.state) && !x.state.finished
    ensures Conformance.Conforms(Push(cfg, x, chunk).state)
  {
    Conformance.PushAllConforms(cfg, x, [chunk]);
    assert [chunk][1..] == [];
    assert PushAll(cfg, x, [chunk]) == PushAll(cfg, Push(cfg, x, chunk), []);
  }

  lemma RunNames(cfg: Config, chunks: seq<Bytes>, end: End)
    ensures Announced(Run(cfg, chunks, end).state)
  {
    PushAllNames(cfg, Begin(cfg), chunks);
    var s := PushAll(cfg, Begin(cfg), chunks).state;
    FailureNames(s, if end.Broken? then end.message else ENDED_EARLY);
  }

  /** In every run each announced item is named by its kind, the response's stem
      and its index. */
  lemma ItemsNamed(cfg: Config, chunks: seq<Bytes>, end: End, k: nat)
    requires var events := Run(cfg, chunks, end).state.events; k < |events| && events[k].body.ItemAdded?
    ensures var x := Run(cfg, chunks, end);
            && Endings.OpenedBy(cfg, x.taken).Some?
            && ItemNamed(Endings.StemOf(cfg, Endings.OpenedBy(cfg, x.taken).value),
                         x.state.events[k].body.index, x.state.events[k].body.item)
  {
    RunNames(cfg, chunks, end);
    Endings.RunStands(cfg, chunks, end);
  }
}
